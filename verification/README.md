# Classic-Macintosh desktop: a verified model of its state logic

The application is a browser imitation of a classic Macintosh desktop. This
project models four parts of it in Dafny:

- **The desktop's window list** (`Desktop`, `WindowList`). There is one entry per open item and a per-item instance counter. Clicking an icon opens a window, a 400 ms timer flips it from `opening` to `open`, and the close button removes it. Each window's z-index comes from its place in the list. Its React key comes from the item id and that item's instance counter.
- **A window** (`WindowGeometry`, `WindowComponent`). It has its first position and size, the mouse handlers for dragging by the title bar and resizing by one of four corner handles (minimum 200 pixels), the one-way `hasAnimated` latch, and the style for the `opening` box and the `open` window.
- **The photo gallery** (`PhotoLibrary`, `Pixelation`). Loading the photo list, uploading one photo at a time, and the block arithmetic of the pixelated rendition.
- **The menu-bar clock** (`TimeDisplay`, `Text`). 24-hour time shown as `H:MM AM`, with a separator that blinks on every one-second tick.

Event handlers that change component state are methods of a class whose fields are that state, and each method runs to completion. A React state update is modelled as taking effect at once. The timers, the network and the browser's canvas are not modelled. Their effects reach the model as the environment calling a method (`FireOpenFlip`, `Tick`) or as an outcome passed in (`LoadOutcome`, `UploadOutcome`).

An asynchronous upload is split at its first `await`. `HandleFileUpload` is the synchronous start: the guard, setting the flag and clearing the error. `FinishUpload` is everything after the awaits, including the `finally` block.

Three behaviours of the code that a reader might expect to be otherwise; the model follows the code:

- Clicking an icon whose window is already open is ignored (`src/components/Desktop.tsx:30-32`). It does not bring that window to the front.
- A corner resize does not always keep the opposite corner fixed. The code moves the position by the whole pointer delta even when the 200-pixel minimum stops the size, so the window slides. `WindowGeometry.ResizeAnchor` states exactly when the opposite corner stays put.
- The desktop never passes the `onFocus` callback that every window calls (see "## Findings").

## Model

| member | source | states |
|---|---|---|
| Text.DecimalString | src/components/TimeDisplay.tsx:22-27 | the decimal text of a number has at least one digit, only digits, one digit exactly below 10 and no leading zero from 10 on |
| Text.DecimalRoundTrip | src/components/TimeDisplay.tsx:22-27 | reading the decimal text of `n` back gives `n` |
| Text.PadStart | src/components/TimeDisplay.tsx:23 | `padStart` yields max(length, width) characters, ends with the original text and is filled before it |
| WindowList.Find | src/components/Desktop.tsx:30 | the lookup finds an entry exactly when some entry has the id, and then one from the list with that id |
| WindowList.FindFirst | src/components/Desktop.tsx:30 | the entry found is the first with that id: no earlier entry has it |
| WindowList.Without | src/components/Desktop.tsx:71 | closing never lengthens the list |
| WindowList.WithoutMembers | src/components/Desktop.tsx:71 | after closing, a window is in the list iff it was before and has another id; none has the closed id |
| WindowList.WithoutConcat | src/components/Desktop.tsx:71 | the filter distributes over concatenation, so the remaining windows keep their relative order |
| WindowList.WithoutKeepsUnique | src/components/Desktop.tsx:70-72 | closing keeps at most one entry per item id |
| WindowList.AppendKeepsUnique | src/components/Desktop.tsx:49-56 | appending a window with an id not yet open keeps ids unique |
| WindowList.MarkOpen | src/components/Desktop.tsx:60-66 | the flip keeps length, order, items and start points, sets `open` on every entry with the id and leaves every other status alone |
| WindowList.MoveToEndPermutes | src/components/Window.tsx:61-62 | bringing a window to the front keeps the same windows (a permutation) |
| WindowList.MoveToEndOnTop | src/components/Window.tsx:61-62 | bringing an open window to the front puts it last (highest z-index), keeps the others in order and ids unique |
| Desktop.NextInstance | src/components/Desktop.tsx:35-46 | the counter becomes 0 on an id's first open and one more on each later open; other ids' counters are unchanged |
| Desktop.WindowKeyInjective | src/components/Desktop.tsx:103-105 | a key `${id}-${n}` determines both the id and the instance number |
| Desktop.ReopenedKeyIsFresh | src/components/Desktop.tsx:35-46 | re-opening an item gives its window a key that differs from every earlier key of that item |
| Desktop.RenderWindows | src/components/Desktop.tsx:101-111 | each window gets its entry's item, status and start point, the key `id-(counter or 0)`, no focus callback, and the z-index 100 + its list position, so a later window is drawn above every earlier one |
| Desktop.RenderedKeysDistinct | src/components/Desktop.tsx:101-105 | with one entry per id, the rendered windows' keys are pairwise distinct |
| Desktop.WindowManager.constructor | src/components/Desktop.tsx:20-23 | the desktop starts with no windows and an empty counter, and satisfies its invariant |
| Desktop.WindowManager.HandleItemClick | src/components/Desktop.tsx:25-67 | an open id changes nothing; any other item appends one `opening` entry with its start point, advances the counter and schedules one flip; ids stay unique and the counter equals re-openings |
| Desktop.WindowManager.FireOpenFlip | src/components/Desktop.tsx:59-66 | the oldest timer flips every entry with its id to `open`, consumes that timer, leaves the counter alone and keeps the invariant |
| Desktop.WindowManager.HandleCloseWindow | src/components/Desktop.tsx:70-72 | the list becomes the filter of the old list by the id; counter and timers unchanged; invariant kept |
| Desktop.WindowManager.BringToFront | src/components/Window.tsx:61-62 | the corrected focus handler: the window moves to the end of the list (top z-index), the rest keep their order, nothing else changes, invariant kept |
| Desktop.StaleFlipScenario | src/components/Desktop.tsx:59-66 | a window closed and re-opened before its first timer fires is flipped to `open` by that stale timer while its own is still pending |
| WindowGeometry.DefaultPosition | src/components/Window.tsx:24 | the item's default position, or (50, 50) without one |
| WindowGeometry.DefaultSize | src/components/Window.tsx:26-28 | the item's default size, or 400 x 300 without one |
| WindowGeometry.AtLeastMin | src/components/Window.tsx:145 | `Math.max(200, v)` is at least 200 and at least `v`, and is one of the two |
| WindowGeometry.Resize | src/components/Window.tsx:143-164 | every handle leaves width and height at least 200; left handles move x and shrink width by the delta, top handles move y and shrink height; right and bottom handles grow the size and keep the position |
| WindowGeometry.ResizeAnchor | src/components/Window.tsx:143-164 | the opposite corner stays fixed iff no clamped edge also moves the position |
| WindowGeometry.ResizeStepsCompose | src/components/Window.tsx:136-168 | with deltas measured from the last pointer, two unclamped steps equal one step by the total movement |
| WindowGeometry.DragPosition | src/components/Window.tsx:98-101 | the new origin keeps the pointer at the recorded offset from it |
| WindowGeometry.DragReturnsToOrigin | src/components/Window.tsx:74-101 | moving the pointer back to the mouse-down point restores the original origin |
| WindowGeometry.AnimationStyles | src/components/Window.tsx:186-209 | `opening`: a 50 x 50 box centred on the icon point at 80% opacity, no transition; `open`: the window's own position and size at full opacity, with transition `none` exactly while dragging |
| WindowGeometry.OpeningClassPlaysOnce | src/components/Window.tsx:212-214 | the `window-opening` class is never on while `opening`, while dragging or once `hasAnimated` is set, and is on for an `open` window not yet animated |
| WindowComponent.Window.constructor | src/components/Window.tsx:23-44 | a mounted window takes its props, the default position and size, and starts neither dragging, resizing nor animated |
| WindowComponent.Window.ReceiveProps | src/components/Window.tsx:15-22 | a re-render updates status and z-index only, keeping the window's invariant |
| WindowComponent.Window.AnimationEffect | src/components/Window.tsx:53-57 | `hasAnimated` becomes true once the window is `open` and never returns to false; afterwards the `window-opening` class is off; the invariant is kept |
| WindowComponent.Window.HandleMouseDown | src/components/Window.tsx:60-84 | focus is requested first and the handler stops if that throws; a drag starts iff the press is in the title bar, the window is not `opening` and mounted, and then the offset is pointer minus origin; otherwise nothing changes |
| WindowComponent.Window.HandleWindowClick | src/components/Window.tsx:87-90 | a click only requests focus, which succeeds iff a callback was passed |
| WindowComponent.Window.DragMouseMove | src/components/Window.tsx:96-104 | while dragging, the origin is the pointer minus the offset; otherwise the position is unchanged; the invariant is kept |
| WindowComponent.Window.DragMouseUp | src/components/Window.tsx:106-108 | mouse-up ends the drag and keeps the invariant |
| WindowComponent.Window.HandleResizeStart | src/components/Window.tsx:120-130 | after focus is requested, the resize starts in the handle's direction with the pointer as reference; if focus throws, nothing changes |
| WindowComponent.Window.ResizeMouseMove | src/components/Window.tsx:136-169 | while resizing, the frame becomes one resize step by the movement since the last event, both dimensions are at least 200 and the pointer is the new reference |
| WindowComponent.Window.ResizeMouseUp | src/components/Window.tsx:171-174 | mouse-up ends the resize and clears the direction |
| DesktopWindows.TitleBarPressAsRendered | src/components/Desktop.tsx:102-111 | a window rendered by the desktop fails at `onFocus()` on a title-bar press and never starts dragging |
| DesktopWindows.TitleBarPressWithFocusHandler | src/components/Window.tsx:60-84 | with a focus callback, a title-bar press on an `open` window starts the drag at offset pointer minus origin |
| Pixelation.CeilDiv | src/components/PhotoLibrary.tsx:158-159 | `Math.ceil(a / b)` is the least `q` with `q * b >= a` |
| Pixelation.PixelSize | src/components/PhotoLibrary.tsx:149-152 | the block size is at least 1; it is 1 for an image narrower than `20 * level`, otherwise `floor(w / (20 * level))` |
| Pixelation.Downsample | src/components/PhotoLibrary.tsx:149-159 | the block size is `PixelSize(width, level)` and the small drawing is `ceil(width / size)` by `ceil(height / size)`, so its cells cover the whole image and are never more than its pixels, in each dimension |
| Pixelation.NarrowImageUnchanged | src/components/PhotoLibrary.tsx:149-159 | an image narrower than `20 * level` is drawn cell for pixel |
| Pixelation.BlocksAcross | src/components/PhotoLibrary.tsx:149-159 | a wider image gets between `20 * level` and `40 * level` blocks across |
| Pixelation.GalleryExample | src/components/PhotoLibrary.tsx:11 | at the gallery's level 3, a 600 x 400 image becomes 10-pixel blocks on a 60 x 40 grid |
| PhotoLibrary.OrElse | src/components/PhotoLibrary.tsx:94 | `field \|\| fallback`: a non-empty field, else the fallback |
| PhotoLibrary.LoadError | src/components/PhotoLibrary.tsx:18-34 | a load leaves no error iff the list arrived; a non-ok response reports its `error` field or `Failed to load photos`; a thrown `Error` reports its message, any other thrown value `Failed to load photos` |
| PhotoLibrary.UploadError | src/components/PhotoLibrary.tsx:55-107 | an upload leaves no error iff it and the reload succeed; a pixelation failure reports `Failed to process image: ` followed by that failure's message; a non-ok response reports its `error` field or `Failed to upload photo`; a thrown `Error` reports its message, any other thrown value `Failed to upload photo`; after a successful upload, the reload's error |
| PhotoLibrary.PixelationMessagesDistinct | src/components/PhotoLibrary.tsx:124-191 | the four fixed rejections of the pixelation step (read failed, image decode failed, no canvas context, timed out) have non-empty, pairwise different messages |
| PhotoLibrary.Gallery.constructor | src/components/PhotoLibrary.tsx:8-11 | no photos, no upload in flight, no error, and the pixelation level is the one the block arithmetic uses (3) |
| PhotoLibrary.Gallery.BeginLoad | src/components/PhotoLibrary.tsx:20 | loading clears the error first |
| PhotoLibrary.Gallery.FinishLoad | src/components/PhotoLibrary.tsx:21-32 | success replaces the photos and leaves the error; failure sets the error and keeps the photos |
| PhotoLibrary.Gallery.LoadPhotos | src/components/PhotoLibrary.tsx:18-34 | after a load the error is exactly the outcome's error and the photos are replaced only on success |
| PhotoLibrary.Gallery.HandleFileUpload | src/components/PhotoLibrary.tsx:36-50 | a file is accepted iff one was chosen and no upload is in flight; acceptance sets the flag, clears the error and begins one request; otherwise nothing changes |
| PhotoLibrary.Gallery.FinishUpload | src/components/PhotoLibrary.tsx:55-116 | whichever step fails, the flag is cleared; the error is the outcome's error and the photos change only when upload and reload succeed |
| PhotoLibrary.SingleFlightScenario | src/components/PhotoLibrary.tsx:43-50 | a second file chosen during an upload is ignored and begins no request; after the first ends, another is accepted |
| TimeDisplay.DisplayHour | src/components/TimeDisplay.tsx:22 | the 12-hour hour lies in 1..12 and agrees with the 24-hour hour modulo 12, so 0 and 12 show as 12 |
| TimeDisplay.PaddedMinutes | src/components/TimeDisplay.tsx:23 | minutes always show as exactly their tens digit and units digit, with a leading zero below 10 |
| TimeDisplay.Assemble | src/components/TimeDisplay.tsx:25-27 | the template places the hour, the separator, two minute characters, a space and the suffix at fixed offsets from the end |
| TimeDisplay.FormatTime | src/components/TimeDisplay.tsx:18-28 | the text is 7 or 8 characters: the unpadded 12-hour hour, `:` or a space, two minute digits, a space, and `PM` iff the hour is 12 or later, else `AM` |
| TimeDisplay.FormatParseRoundTrip | src/components/TimeDisplay.tsx:18-28 | reading the clock text back gives the 24-hour time and the separator state |
| TimeDisplay.FormatTimeInjective | src/components/TimeDisplay.tsx:18-28 | different times or separator states never show the same text |
| TimeDisplay.Clock.constructor | src/components/TimeDisplay.tsx:6-7 | the clock starts at the given time with the colon shown |
| TimeDisplay.Clock.Tick | src/components/TimeDisplay.tsx:10-13 | a tick reads the time again and negates `showColon`, so the shown separator flips |
| TimeDisplay.TickTwice | src/components/TimeDisplay.tsx:12 | two ticks bring the separator state back to what it was |

## Findings

| source | as written | input that shows it | evidently intended | confidence | as-written member | corrected member |
|---|---|---|---|---|---|---|
| src/components/Desktop.tsx:102-111 | the desktop renders each window without `onFocus`, but each window calls `onFocus()` first when it is pressed or clicked (`src/components/Window.tsx:62`, `89`, `126`) | any open window; press its title bar: `onFocus` is undefined, the call throws, and neither a drag nor a resize ever starts | the press brings the window to the front (top z-index), then drags or resizes it | not executed | DesktopWindows.TitleBarPressAsRendered | DesktopWindows.TitleBarPressWithFocusHandler, Desktop.WindowManager.BringToFront |

## Left out

- The storage route `src/app/api/supabase/route.ts`, the network requests, and their 60 s abort timer. Each request is reduced to its outcome (`LoadOutcome`, `UploadOutcome`).
- Reading the file, decoding the image, drawing on the canvas, `toDataURL`, and the 30 s processing timeout in `createPixelatedImage`. Each is a `PixelationFailure` or success; only the block arithmetic is modelled.
- Pixelation rejections other than an `Error` are not modelled; `PixelationFailure` covers only `Error` rejections. A string or number rejection would show `Failed to process image: undefined`. A `null` or `undefined` rejection makes reading `.message` throw, so the TypeError's own message is shown.
- DOM geometry is an input, not modelled: the bounding box origin, whether the press is inside `.window-title-bar`, and the icon centre computed in `src/components/DesktopItem.tsx`. Coordinates are whole pixels.
- Rendering-only markup is not modelled: the menu files, the about window, the page and layout files, the cursor style, the close button's markup, and the frame's pointer-event switch.
- `formatDate`, which depends on the browser's locale, and the browser window's address field, which has no behaviour.
- The refs `initialSizeRef`, `initialPositionRef` and `dragPositionRef` in `src/components/Window.tsx`. Nothing reads them.
- Resetting the file input's value (`e.target.value = ""`). This belongs to the browser, not the gallery's state.
- Console logging.
- WindowComponent.Window.DragMouseMove: the `requestAnimationFrame` deferral is not modelled; the position is set in the same step.
- Desktop.WindowManager.FireOpenFlip: all flips share one 400 ms delay, so they fire in the order they were scheduled; the environment decides only when.
- PhotoLibrary.Gallery.FinishUpload: requires an upload in flight, since it is the continuation of an accepted upload. The flag is not reset by anything else.
- PhotoLibrary.Gallery.FinishUpload: the reload inside an upload runs atomically; another load interleaving with it is not modelled.
- WindowGeometry.AnimationStyles: lengths are numbers of pixels, not `px` strings; the opacity is a percentage.
