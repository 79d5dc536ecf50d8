/** The formatting helpers of src/utils/format.js. */
module Format {
  import opened Text
  import opened Wrappers

  /** A number rendered by `n.toString().padStart(2, '0')`: one-digit numbers get a leading zero. */
  function TwoDigits(n: nat): (s: string)
    ensures |s| >= 2 && AllDigits(s)
    ensures n < 100 ==> |s| == 2
  {
    if n < 10 then "0" + NatToString(n) else NatToString(n)
  }

  /** The rendering is the padding of `padStart(2, '0')`. */
  lemma TwoDigitsPads(n: nat)
    ensures TwoDigits(n) == PadStart(NatToString(n), 2, '0')
  {
    if n < 10 {
      assert seq(1, _ => '0') == "0";
    }
  }

  /** The padding keeps the value. */
  lemma TwoDigitsValue(n: nat)
    ensures DigitsValue(TwoDigits(n)) == n
  {
    NatToStringValue(n);
    if n < 10 {
      LeadingZeroValue(NatToString(n));
    }
  }

  /** Minutes and seconds as `MM:SS`, each padded to two digits. */
  function Clock(minutes: nat, seconds: nat): (r: string)
    requires seconds < 60
    ensures |r| >= 5 && r[|r| - 3] == ':'
  {
    TwoDigits(minutes) + ":" + TwoDigits(seconds)
  }

  /** `formatDuration(milliseconds)`: whole minutes and the remaining whole seconds. */
  function FormatDuration(milliseconds: nat): (r: string)
    ensures |r| >= 5 && r[|r| - 3] == ':'
  {
    var totalSeconds := milliseconds / 1000;
    Clock(totalSeconds / 60, totalSeconds % 60)
  }

  /** Reads an `M…M:SS` text back as whole seconds: at least two digits of minutes, a colon, and exactly two digits
      of seconds below 60; anything else is `None`. */
  function ParseClock(r: string): (v: Option<nat>)
    ensures v.Some? ==> |r| >= 5 && r[|r| - 3] == ':'
  {
    if |r| >= 5 && r[|r| - 3] == ':' then ClockValue(r[..|r| - 3], r[|r| - 2..]) else None
  }

  /** The seconds that a minutes part and a seconds part of a clock text stand for. */
  function ClockValue(minutes: string, seconds: string): (v: Option<nat>)
    ensures v.Some? ==> AllDigits(minutes) && AllDigits(seconds)
  {
    if AllDigits(minutes) && AllDigits(seconds) && DigitsValue(seconds) < 60
    then Some(DigitsValue(minutes) * 60 + DigitsValue(seconds))
    else None
  }

  /** Two digit strings joined by a colon read back as their values. */
  lemma ParseJoined(m: string, s: string)
    requires |m| >= 2 && |s| == 2
    ensures ParseClock(m + ":" + s) == ClockValue(m, s)
  {
    var r := m + ":" + s;
    assert r[..|r| - 3] == m;
    assert r[|r| - 2..] == s;
  }

  /** A clock text reads back as the seconds it was built from. */
  lemma ClockReadsBack(minutes: nat, seconds: nat, total: nat)
    requires seconds < 60 && total == minutes * 60 + seconds
    ensures ParseClock(Clock(minutes, seconds)) == Some(total)
  {
    var m, s := TwoDigits(minutes), TwoDigits(seconds);
    assert ClockValue(m, s) == Some(total) by {
      TwoDigitsValue(minutes);
      TwoDigitsValue(seconds);
    }
    ParseJoined(m, s);
  }

  /** Reading the text back gives the whole seconds: minutes are never capped, and the seconds part is the
      remainder below 60. */
  lemma FormatDurationReadsBack(milliseconds: nat)
    ensures ParseClock(FormatDuration(milliseconds)) == Some(milliseconds / 1000)
  {
    var t := milliseconds / 1000;
    var minutes, seconds := t / 60, t % 60;
    assert FormatDuration(milliseconds) == Clock(minutes, seconds);
    ClockReadsBack(minutes, seconds, t);
  }

  const DefaultMaxLength: nat := 50

  /** `s.slice(0, end)`: a negative end counts from the end of the string. */
  function SliceTo(s: string, end: int): (r: string)
    ensures 0 <= end <= |s| ==> r == s[..end]
  {
    if end < 0 then (if |s| + end < 0 then "" else s[..|s| + end])
    else if end > |s| then s
    else s[..end]
  }

  /** `truncateText(text, maxLength)`. */
  function TruncateText(text: string, maxLength: int): (r: string)
    ensures |text| <= maxLength ==> r == text
    ensures |text| > maxLength ==>
              && |r| >= 3 && r[|r| - 3..] == "..." && r[..|r| - 3] <= text
              && |r| - 3 == if maxLength >= 0 then maxLength else if |text| + maxLength < 0 then 0 else |text| + maxLength
  {
    if |text| <= maxLength then text else SliceTo(text, maxLength) + "..."
  }

  /** `truncateText(text)`, with the default limit of 50. */
  function TruncateDefault(text: string): (r: string)
    ensures |r| <= DefaultMaxLength + 3
    ensures |text| <= DefaultMaxLength ==> r == text
  {
    TruncateText(text, DefaultMaxLength)
  }

  /** For a limit that is not negative: text within the limit is returned unchanged; longer text keeps its first
      `maxLength` characters followed by "...", and truncating that result again changes nothing. */
  lemma TruncateTextShape(text: string, maxLength: nat)
    ensures |text| <= maxLength ==> TruncateText(text, maxLength) == text
    ensures |text| > maxLength ==>
              && TruncateText(text, maxLength) == text[..maxLength] + "..."
              && |TruncateText(text, maxLength)| == maxLength + 3
    ensures TruncateText(TruncateText(text, maxLength), maxLength) == TruncateText(text, maxLength)
  {
    if |text| > maxLength {
      var r := text[..maxLength] + "...";
      assert r[..maxLength] == text[..maxLength];
    }
  }
}
