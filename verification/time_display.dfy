/**
 * The menu-bar clock: 24-hour time shown as 12-hour `H:MM AM|PM`, with a
 * separator that blinks between ':' and ' ' on every one-second tick.
 */
module TimeDisplay {
  import opened Types
  import opened Text

  type Hour = h: int | 0 <= h < 24
  type Minute = m: int | 0 <= m < 60

  /** What `getHours()` and `getMinutes()` read from the current date. */
  datatype Time = Time(hours: Hour, minutes: Minute)

  /** `hours % 12 || 12`: the 12-hour clock's hour, with 12 for 0 and 12. */
  function DisplayHour(hours: Hour): (h: int)
    ensures 1 <= h <= 12
    ensures h % 12 == hours % 12
  {
    if hours % 12 == 0 then 12 else hours % 12
  }

  function Meridiem(hours: Hour): string
  {
    if hours >= 12 then "PM" else "AM"
  }

  function Separator(showColon: bool): char
  {
    if showColon then ':' else ' '
  }

  /** `minutes.toString().padStart(2, "0")`: always exactly two digits. */
  function PaddedMinutes(minutes: Minute): (s: string)
    ensures s == [DigitChar(minutes / 10), DigitChar(minutes % 10)]
  {
    var d := DecimalString(minutes);
    assert minutes >= 10 ==> d == DecimalString(minutes / 10) + [DigitChar(minutes % 10)];
    PadStart(d, 2, '0')
  }

  /**
   * `formatTime`: the hour without padding, the separator, two minute
   * digits, a space and the meridiem.
   */
  function FormatTime(hours: Hour, minutes: Minute, showColon: bool): (s: string)
    ensures |s| == if DisplayHour(hours) < 10 then 7 else 8
    ensures s[..|s| - 6] == DecimalString(DisplayHour(hours))
    ensures s[|s| - 6] == Separator(showColon)
    ensures s[|s| - 5..|s| - 3] == PaddedMinutes(minutes)
    ensures s[|s| - 3] == ' '
    ensures s[|s| - 2..] == if hours >= 12 then "PM" else "AM"
  {
    DecimalLengthBelow100(DisplayHour(hours));
    Assemble(DecimalString(DisplayHour(hours)), Separator(showColon), PaddedMinutes(minutes), Meridiem(hours))
  }

  /** The template `${hour}${separator}${minutes} ${meridiem}`, and where its parts sit. */
  function Assemble(hh: string, sep: char, mm: string, ap: string): (s: string)
    requires |mm| == 2 && |ap| == 2
    ensures |s| == |hh| + 6
    ensures s[..|s| - 6] == hh
    ensures s[|s| - 6] == sep
    ensures s[|s| - 5..|s| - 3] == mm
    ensures s[|s| - 3] == ' '
    ensures s[|s| - 2..] == ap
  {
    var s := hh + [sep] + mm + " " + ap;
    assert s == hh + ([sep] + mm + " " + ap);
    s
  }

  /** A reading of the clock text: the time it shows and whether the colon is lit. */
  datatype Reading = Reading(hours: Hour, minutes: Minute, showColon: bool)

  /** Reads a `H:MM AM` / `H MM PM` text back into 24-hour time. */
  function ParseTime(s: string): Option<Reading>
  {
    if |s| < 7 || |s| > 8 then None
    else
      var n := |s|;
      var hh, sep, mm, space, meridiem := s[..n - 6], s[n - 6], s[n - 5..n - 3], s[n - 3], s[n - 2..];
      if !AllDigits(hh) || !AllDigits(mm) || space != ' ' || (sep != ':' && sep != ' ')
         || (meridiem != "AM" && meridiem != "PM") then None
      else
        var h12, m := DigitsValue(hh), DigitsValue(mm);
        if h12 < 1 || 12 < h12 || 60 <= m then None
        else Some(Reading((if meridiem == "PM" then 12 else 0) + h12 % 12, m, sep == ':'))
  }

  lemma DigitRoundTrip(d: nat)
    requires d < 10
    ensures DigitValue(DigitChar(d)) == d
  {
  }

  /** The two minute digits read back as the minutes. */
  lemma MinuteDigitsValue(minutes: Minute)
    ensures DigitsValue([DigitChar(minutes / 10), DigitChar(minutes % 10)]) == minutes
  {
    var mm := [DigitChar(minutes / 10), DigitChar(minutes % 10)];
    DigitRoundTrip(minutes / 10);
    DigitRoundTrip(minutes % 10);
    assert mm[..1] == [DigitChar(minutes / 10)];
    assert DigitsValue(mm[..1]) == minutes / 10 by {
      assert mm[..1][..0] == [];
    }
  }

  /** The hour and meridiem read back as the 24-hour hour. */
  lemma HourValue(hours: Hour)
    ensures (if hours >= 12 then 12 else 0) + DisplayHour(hours) % 12 == hours
  {
  }

  /** Reading a text assembled from well-formed parts. */
  lemma ParseParts(hh: string, sep: char, mm: string, ap: string)
    requires 1 <= |hh| <= 2 && AllDigits(hh) && 1 <= DigitsValue(hh) <= 12
    requires |mm| == 2 && AllDigits(mm) && DigitsValue(mm) < 60
    requires sep == ':' || sep == ' '
    requires ap == "AM" || ap == "PM"
    ensures ParseTime(Assemble(hh, sep, mm, ap))
      == Some(Reading((if ap == "PM" then 12 else 0) + DigitsValue(hh) % 12, DigitsValue(mm), sep == ':'))
  {
  }

  /** The clock text loses nothing: reading it back gives the time and the separator state. */
  lemma FormatParseRoundTrip(hours: Hour, minutes: Minute, showColon: bool)
    ensures ParseTime(FormatTime(hours, minutes, showColon)) == Some(Reading(hours, minutes, showColon))
  {
    var hh := DecimalString(DisplayHour(hours));
    DecimalLengthBelow100(DisplayHour(hours));
    DecimalRoundTrip(DisplayHour(hours));
    MinuteDigitsValue(minutes);
    HourValue(hours);
    ParseParts(hh, Separator(showColon), PaddedMinutes(minutes), Meridiem(hours));
  }

  /** Different times, or different separator states, never show the same text. */
  lemma FormatTimeInjective(h1: Hour, m1: Minute, c1: bool, h2: Hour, m2: Minute, c2: bool)
    requires FormatTime(h1, m1, c1) == FormatTime(h2, m2, c2)
    ensures h1 == h2 && m1 == m2 && c1 == c2
  {
    FormatParseRoundTrip(h1, m1, c1);
    FormatParseRoundTrip(h2, m2, c2);
  }

  /** The clock's state: the time last read and whether the colon is shown. */
  class Clock {
    var currentTime: Time
    var showColon: bool

    constructor (now: Time)
      ensures currentTime == now && showColon
    {
      currentTime := now;
      showColon := true;
    }

    /** The text the clock shows. */
    function Text(): string
      reads this
    {
      FormatTime(currentTime.hours, currentTime.minutes, showColon)
    }

    /**
     * The one-second interval callback: the time is read again and the
     * separator blinks.
     */
    method Tick(now: Time)
      modifies this
      ensures currentTime == now
      ensures showColon == !old(showColon)
      ensures Text()[|Text()| - 6] == if old(showColon) then ' ' else ':'
    {
      currentTime := now;
      showColon := !showColon;
    }
  }

  /** Two ticks bring the separator back to what it was. */
  method TickTwice(clock: Clock, first: Time, second: Time)
    modifies clock
    ensures clock.showColon == old(clock.showColon)
    ensures clock.currentTime == second
  {
    clock.Tick(first);
    clock.Tick(second);
  }
}
