/**
 * The photo gallery: loading the photo list, and uploading one photo at a
 * time. The browser and network steps (reading the file, decoding and
 * redrawing the image, the HTTP requests and their timeouts) appear only as
 * their outcomes, which the caller supplies.
 */
module PhotoLibrary {
  import opened Types
  import Pixelation

  /** A stored photo as the list endpoint returns it. */
  datatype Photo = Photo(id: string, url: string, pixelatedUrl: string, uploadedAt: string, uploadedBy: string)

  /** How fetching the photo list ends. */
  datatype LoadOutcome =
    | Loaded(photos: seq<Photo>)
      /** A non-ok response; its body's `error` field, if any. */
    | LoadRejected(errorField: Option<string>)
      /** A thrown `Error` (with its message) or any other thrown value (`None`). */
    | LoadThrew(message: Option<string>)

  /** Why the pixelated rendition could not be produced. */
  datatype PixelationFailure =
    | ReadFailed
    | ImageDecodeFailed
    | NoCanvasContext
    | ProcessingTimedOut
    | CanvasThrew(message: string)

  /** How an accepted upload ends, step by step. */
  datatype UploadOutcome =
    | ProcessingFailed(failure: PixelationFailure)
      /** A non-ok upload response; its body's `error` field, if any. */
    | UploadRejected(errorField: Option<string>)
      /** The request failed or was aborted after 60 s: a thrown `Error` or another value. */
    | UploadThrew(message: Option<string>)
      /** The upload succeeded; the gallery is then reloaded with this outcome. */
    | Uploaded(reload: LoadOutcome)

  const LoadFailedMessage := "Failed to load photos"
  const UploadFailedMessage := "Failed to upload photo"
  const ProcessingPrefix := "Failed to process image: "

  /** JavaScript's `field || fallback` on an optional string: empty counts as absent. */
  function OrElse(field: Option<string>, fallback: string): (r: string)
    ensures field.Some? && field.value != "" ==> r == field.value
    ensures field.None? || field.value == "" ==> r == fallback
  {
    match field
    case Some(s) => if s != "" then s else fallback
    case None => fallback
  }

  /** The message of a rejected pixelation. */
  function PixelationMessage(f: PixelationFailure): string
  {
    match f
    case ReadFailed => "Failed to read file"
    case ImageDecodeFailed => "Failed to load image"
    case NoCanvasContext => "Could not create canvas context"
    case ProcessingTimedOut => "Image processing timed out"
    case CanvasThrew(m) => m
  }

  /**
   * The four fixed rejections of the pixelation step have different,
   * non-empty messages, so the reported error names the step that failed.
   */
  lemma PixelationMessagesDistinct(f: PixelationFailure, g: PixelationFailure)
    requires !f.CanvasThrew? && !g.CanvasThrew?
    ensures PixelationMessage(f) != ""
    ensures f != g ==> PixelationMessage(f) != PixelationMessage(g)
  {
  }

  /** The error a load leaves behind: none exactly when the list arrived. */
  function LoadError(o: LoadOutcome): (e: Option<string>)
    ensures e.None? <==> o.Loaded?
    ensures o.LoadRejected? ==> e == Some(OrElse(o.errorField, LoadFailedMessage))
    ensures o.LoadThrew? ==> e == Some(if o.message.Some? then o.message.value else LoadFailedMessage)
  {
    match o
    case Loaded(_) => None
    case LoadRejected(field) => Some(OrElse(field, LoadFailedMessage))
    case LoadThrew(m) => Some(if m.Some? then m.value else LoadFailedMessage)
  }

  /**
   * The error an accepted upload leaves behind: none exactly when both the
   * upload and the reload succeed. A pixelation failure is reported with the
   * `Failed to process image: ` prefix, a rejected upload with the server's
   * `error` field or `Failed to upload photo`.
   */
  function UploadError(o: UploadOutcome): (e: Option<string>)
    ensures e.None? <==> o.Uploaded? && o.reload.Loaded?
    ensures o.ProcessingFailed? ==>
      e.Some? && |e.value| >= |ProcessingPrefix| && e.value[..|ProcessingPrefix|] == ProcessingPrefix
    ensures o.ProcessingFailed? ==> e == Some(ProcessingPrefix + PixelationMessage(o.failure))
    ensures o.UploadRejected? ==> e == Some(OrElse(o.errorField, UploadFailedMessage))
    ensures o.UploadThrew? ==> e == Some(if o.message.Some? then o.message.value else UploadFailedMessage)
    ensures o.Uploaded? ==> e == LoadError(o.reload)
  {
    match o
    case ProcessingFailed(f) => Some(ProcessingPrefix + PixelationMessage(f))
    case UploadRejected(field) => Some(OrElse(field, UploadFailedMessage))
    case UploadThrew(m) => Some(if m.Some? then m.value else UploadFailedMessage)
    case Uploaded(reload) => LoadError(reload)
  }

  class Gallery {
    var photos: seq<Photo>
    var isUploading: bool
    var error: Option<string>
    const pixelationLevel: nat
    /** How many uploads have been accepted, so how many requests the gallery has begun. */
    ghost var uploadsStarted: nat

    /** The gallery as first rendered, before its first load. */
    constructor ()
      ensures photos == [] && !isUploading && error == None
      ensures pixelationLevel == Pixelation.GalleryLevel && uploadsStarted == 0
    {
      photos := [];
      isUploading := false;
      error := None;
      pixelationLevel := Pixelation.GalleryLevel;
      uploadsStarted := 0;
    }

    /** The start of `loadPhotos`: the error is cleared before the request. */
    method BeginLoad()
      modifies this`error
      ensures error == None
    {
      error := None;
    }

    /**
     * The end of `loadPhotos`: on success the list is replaced (the error
     * is left alone); on failure the error is set and the list kept.
     */
    method FinishLoad(o: LoadOutcome)
      modifies this`photos, this`error
      ensures o.Loaded? ==> photos == o.photos && error == old(error)
      ensures !o.Loaded? ==> photos == old(photos) && error == LoadError(o)
    {
      match o
      case Loaded(ps) => photos := ps;
      case _ => error := LoadError(o);
    }

    /** `loadPhotos` from start to end with nothing in between. */
    method LoadPhotos(o: LoadOutcome)
      modifies this`photos, this`error
      ensures error == LoadError(o)
      ensures photos == if o.Loaded? then o.photos else old(photos)
    {
      BeginLoad();
      FinishLoad(o);
    }

    /**
     * A file chosen in the upload input: the synchronous start of
     * `handleFileUpload`. Without a file, or while another upload is in
     * flight, nothing changes and no request is begun; otherwise the upload
     * is marked in flight and the error cleared.
     */
    method HandleFileUpload(hasFile: bool) returns (accepted: bool)
      modifies this`isUploading, this`error, this`uploadsStarted
      ensures accepted <==> hasFile && !old(isUploading)
      ensures accepted ==> isUploading && error == None && uploadsStarted == old(uploadsStarted) + 1
      ensures !accepted ==>
        isUploading == old(isUploading) && error == old(error) && uploadsStarted == old(uploadsStarted)
    {
      if !hasFile {
        return false;
      }
      if isUploading {
        return false;
      }
      isUploading := true;
      error := None;
      uploadsStarted := uploadsStarted + 1;
      accepted := true;
    }

    /**
     * The rest of an accepted upload, after its awaits: whichever step
     * failed sets the error, a successful upload reloads the list, and the
     * `finally` block always ends the upload.
     */
    method FinishUpload(o: UploadOutcome)
      requires isUploading
      modifies this`isUploading, this`error, this`photos
      ensures !isUploading
      ensures error == UploadError(o)
      ensures photos == if o.Uploaded? && o.reload.Loaded? then o.reload.photos else old(photos)
    {
      match o {
        case Uploaded(reload) =>
          LoadPhotos(reload);
        case _ =>
          error := UploadError(o);
      }
      isUploading := false;
    }
  }

  /**
   * Two files chosen while the first upload is in flight: the second is
   * ignored and begins no request; once the first has finished, a third is
   * accepted.
   */
  method SingleFlightScenario(first: UploadOutcome)
    returns (firstAccepted: bool, secondAccepted: bool, thirdAccepted: bool, ghost requests: nat)
    ensures firstAccepted && !secondAccepted && thirdAccepted
    ensures requests == 2
  {
    var gallery := new Gallery();
    firstAccepted := gallery.HandleFileUpload(true);
    secondAccepted := gallery.HandleFileUpload(true);
    gallery.FinishUpload(first);
    thirdAccepted := gallery.HandleFileUpload(true);
    requests := gallery.uploadsStarted;
  }
}
