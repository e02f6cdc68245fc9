/** Reading a melody's length with ffmpeg (`Infrastructure/ExternalServices/FFmpegService.cs`). */
module FFmpegServices {
  import opened Wrappers
  import opened Environment
  import opened DurationPattern

  /** `GetAudioDurationAsync`: null for a missing file (no process is run), a process that
      did not start or threw, or output without a duration line; otherwise the first duration
      line in seconds. */
  function GetAudioDuration(path: string, fs: FileSystem, run: ProcessRun): (r: Option<real>)
    ensures !fs.Exists(path) ==> r == None
    ensures run.StartFailed? || run.Threw? ==> r == None
    ensures r.Some? ==> 0.0 <= r.value <= MaxSeconds
  {
    if !fs.Exists(path) then None
    else
      match run
      case StartFailed => None
      case Threw => None
      case Exited(output) =>
        match FirstMatch(output, 0)
        case None => None
        case Some(i) =>
          FirstMatchIsLeftmost(output, 0);
          Some(FieldsAt(output, i).TotalSeconds())
  }

  /** A run whose output starts with a duration line reads back the duration that line
      was written from. */
  lemma ReadsDurationLine(path: string, fs: FileSystem, f: Fields, after: string)
    requires fs.Exists(path) && f.Valid()
    ensures GetAudioDuration(path, fs, Exited(DurationText(f) + after)) == Some(f.TotalSeconds())
  {
    var line := DurationText(f) + after;
    assert MatchesAt(line, 0) && FieldsAt(line, 0) == f by {
      assert line == "" + DurationText(f) + after;
      DurationTextRoundTrip(f, "", after);
    }
    assert FirstMatch(line, 0) == Some(0);
  }

  /** "Duration: 00:03:25.50" at the start of the output reads as 205.5 seconds: one worked
      instance of the all-inputs `ReadsDurationLine`, not a case taken from the unit tests. */
  lemma ExampleDuration(path: string, fs: FileSystem)
    requires fs.Exists(path)
    ensures GetAudioDuration(path, fs, Exited("Duration: 00:03:25.50, start: 0")) == Some(205.5)
  {
    var f := Fields(0, 3, 25, 50);
    assert DurationText(f) + ", start: 0" == "Duration: 00:03:25.50, start: 0" by {
      assert Digits2(0) == "00" && Digits2(3) == "03" && Digits2(25) == "25" && Digits2(50) == "50";
    }
    ReadsDurationLine(path, fs, f, ", start: 0");
  }
}
