/** The older duration reader (`Repository/FFmpegRepository.cs`). */
module FFmpegRepositories {
  import opened Wrappers
  import opened Environment
  import opened DurationPattern
  import FFmpegServices

  /** `new TimeSpan(0, h, m, s, cc * 10).TotalSeconds`: whole milliseconds over 1000. */
  function TimeSpanSeconds(f: Fields): real {
    ((f.hours * 3600 + f.minutes * 60 + f.seconds) * 1000 + f.centiseconds * 10) as real / 1000.0
  }

  /** `GetDuration`: a process that fails to start or throws lets the exception out; output
      without a duration line gives 0.0; otherwise the first duration line in seconds. There
      is no file-existence check. */
  function GetDuration(run: ProcessRun): (r: Result<real>)
    ensures run.StartFailed? || run.Threw? ==> r == Err(ProcessError)
    ensures run.Exited? && FirstMatch(run.stderr, 0).None? ==> r == Ok(0.0)
    ensures r.Ok? ==> 0.0 <= r.value <= MaxSeconds
  {
    match run
    case StartFailed => Err(ProcessError)
    case Threw => Err(ProcessError)
    case Exited(output) =>
      match FirstMatch(output, 0)
      case None => Ok(0.0)
      case Some(i) =>
        FirstMatchIsLeftmost(output, 0);
        SameSeconds(FieldsAt(output, i));
        Ok(TimeSpanSeconds(FieldsAt(output, i)))
  }

  /** The TimeSpan computation and `h * 3600 + m * 60 + SS.cc` give the same number. */
  lemma SameSeconds(f: Fields)
    requires f.Valid()
    ensures TimeSpanSeconds(f) == f.TotalSeconds()
  {
    var whole := f.hours * 3600 + f.minutes * 60 + f.seconds;
    calc {
      TimeSpanSeconds(f);
      (whole * 1000 + f.centiseconds * 10) as real / 1000.0;
      (whole * 1000) as real / 1000.0 + (f.centiseconds * 10) as real / 1000.0;
      whole as real + f.centiseconds as real / 100.0;
    }
  }

  /** On an existing file whose ffmpeg run exits, both readers find the same duration; they
      differ only in what they give when there is none (0.0 here, null there). */
  lemma AgreesWithService(path: string, fs: FileSystem, run: ProcessRun)
    requires fs.Exists(path) && run.Exited?
    ensures FFmpegServices.GetAudioDuration(path, fs, run).Some? ==>
      GetDuration(run) == Ok(FFmpegServices.GetAudioDuration(path, fs, run).value)
    ensures FFmpegServices.GetAudioDuration(path, fs, run).None? ==> GetDuration(run) == Ok(0.0)
  {
    match FirstMatch(run.stderr, 0)
    case None =>
    case Some(i) =>
      FirstMatchIsLeftmost(run.stderr, 0);
      SameSeconds(FieldsAt(run.stderr, i));
  }
}
