/**
 * The `Duration: HH:MM:SS.cc` line that ffmpeg writes to standard error, as both duration
 * readers search for it: `Duration: (\d{2}):(\d{2}):(\d{2}\.\d{2})` in
 * `Infrastructure/ExternalServices/FFmpegService.cs` and `Duration: (\d{2}):(\d{2}):(\d{2})\.(\d{2})`
 * in `Repository/FFmpegRepository.cs` accept exactly the same text.
 */
module DurationPattern {
  import opened Wrappers
  import opened Text

  /** "Duration: " followed by "DD:DD:DD.DD": 21 characters in all. */
  const Width: nat := 21

  /** The pattern occurs at index `i` of `s`. */
  predicate MatchesAt(s: string, i: nat) {
    && i + Width <= |s|
    && s[i..i + 10] == "Duration: "
    && IsDigit(s[i + 10]) && IsDigit(s[i + 11]) && s[i + 12] == ':'
    && IsDigit(s[i + 13]) && IsDigit(s[i + 14]) && s[i + 15] == ':'
    && IsDigit(s[i + 16]) && IsDigit(s[i + 17]) && s[i + 18] == '.'
    && IsDigit(s[i + 19]) && IsDigit(s[i + 20])
  }

  /** `Regex.Match`: the leftmost occurrence at or after `from`, if any. */
  function FirstMatch(s: string, from: nat): Option<nat>
    decreases |s| - from
  {
    if from + Width > |s| then None
    else if MatchesAt(s, from) then Some(from)
    else FirstMatch(s, from + 1)
  }

  /** The match found is an occurrence and none comes before it; when none is found there
      is no occurrence at all from `from` on. */
  lemma {:induction false} FirstMatchIsLeftmost(s: string, from: nat)
    ensures var r := FirstMatch(s, from);
      && (r.Some? ==> from <= r.value && MatchesAt(s, r.value))
      && (r.Some? ==> forall j | from <= j < r.value :: !MatchesAt(s, j))
      && (r.None? ==> forall j | from <= j :: !MatchesAt(s, j))
    decreases |s| - from
  {
    if from + Width <= |s| && !MatchesAt(s, from) {
      FirstMatchIsLeftmost(s, from + 1);
    }
  }

  /** The value of the two digits at `i`, as `int.Parse` reads them. */
  function TwoDigits(s: string, i: nat): (n: nat)
    requires i + 1 < |s| && IsDigit(s[i]) && IsDigit(s[i + 1])
    ensures n <= 99
  {
    10 * DigitValue(s[i]) + DigitValue(s[i + 1])
  }

  /** The four captured numbers of the occurrence at `i`: hours, minutes, seconds, centiseconds. */
  datatype Fields = Fields(hours: nat, minutes: nat, seconds: nat, centiseconds: nat)
  {
    predicate Valid() {
      hours <= 99 && minutes <= 99 && seconds <= 99 && centiseconds <= 99
    }

    /** `h * 3600 + m * 60 + SS.cc`, in seconds. */
    function TotalSeconds(): (t: real)
      requires Valid()
      ensures 0.0 <= t <= MaxSeconds
    {
      (hours * 3600 + minutes * 60) as real + seconds as real + centiseconds as real / 100.0
    }
  }

  /** The largest value two-digit fields can give: 99:99:99.99. */
  const MaxSeconds: real := 99.0 * 3600.0 + 99.0 * 60.0 + 99.99

  function FieldsAt(s: string, i: nat): (f: Fields)
    requires MatchesAt(s, i)
    ensures f.Valid()
  {
    Fields(TwoDigits(s, i + 10), TwoDigits(s, i + 13), TwoDigits(s, i + 16), TwoDigits(s, i + 19))
  }

  /** The standard error text ffmpeg writes for a duration, for example "Duration: 00:03:25.50". */
  function DurationText(f: Fields): string
    requires f.Valid()
  {
    "Duration: " + Digits2(f.hours) + ":" + Digits2(f.minutes) + ":" + Digits2(f.seconds)
      + "." + Digits2(f.centiseconds)
  }

  /** A number below 100 written with two digits, zero-padded. */
  function Digits2(n: nat): (d: string)
    requires n <= 99
    ensures |d| == 2 && IsDigit(d[0]) && IsDigit(d[1])
    ensures 10 * DigitValue(d[0]) + DigitValue(d[1]) == n
  {
    [DigitChar(n / 10), DigitChar(n % 10)]
  }

  /** Reading the duration line back gives the fields it was written from. */
  lemma DurationTextRoundTrip(f: Fields, before: string, after: string)
    requires f.Valid()
    ensures MatchesAt(before + DurationText(f) + after, |before|)
    ensures FieldsAt(before + DurationText(f) + after, |before|) == f
  {
    var s := before + DurationText(f) + after;
    var i := |before|;
    var h, m, sec, c := Digits2(f.hours), Digits2(f.minutes), Digits2(f.seconds), Digits2(f.centiseconds);
    assert s[i..i + Width] == DurationText(f);
    assert s[i..i + 10] == "Duration: ";
    assert s[i + 10] == h[0] && s[i + 11] == h[1];
    assert s[i + 13] == m[0] && s[i + 14] == m[1];
    assert s[i + 16] == sec[0] && s[i + 17] == sec[1];
    assert s[i + 19] == c[0] && s[i + 20] == c[1];
  }
}
