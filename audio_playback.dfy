/**
 * The two audio channels of the newest generation and the file choices behind them
 * (`Application/Services/AudioPlaybackService.cs`): a looping melody player, a one-shot
 * announcement player, the profile table and a default melody.
 */
module AudioPlayback {
  import opened Wrappers
  import opened Environment
  import opened TrackInfos
  import opened AudioProfiles
  import opened AudioProfileRepositories
  import opened MediaPlayers
  import opened DurationPattern
  import FFmpegServices

  /** The melody `PlayMelodyAsync` hands to the player, or the exception it throws first:
      with no profile the default, unchecked; else the profile's melody when it exists, else
      the default when that exists, else FileNotFoundException for the default. */
  function MelodyChoice(profile: Option<AudioProfile>, fs: FileSystem, defaultPath: string): Result<string> {
    match profile
    case None => Ok(defaultPath)
    case Some(p) =>
      if fs.Exists(p.melodyFilePath) then Ok(p.melodyFilePath)
      else if fs.Exists(defaultPath) then Ok(defaultPath)
      else Err(FileNotFound(defaultPath))
  }

  /** The file actually looped, or the exception: the player itself throws for a missing
      file or a relative path. */
  function MelodyOutcome(profile: Option<AudioProfile>, fs: FileSystem, defaultPath: string): Result<string> {
    match MelodyChoice(profile, fs, defaultPath)
    case Err(e) => Err(e)
    case Ok(path) =>
      match PlayFailure(path, fs)
      case Some(e) => Err(e)
      case None => Ok(path)
  }

  /** The announcement `PlayDoorCloseAnnouncementAsync` plays, if any: skipped without a
      profile, without a path for the direction, with an empty path or a missing file. */
  function AnnouncementChoice(profile: Option<AudioProfile>, isInbound: bool, fs: FileSystem): Option<string> {
    match profile
    case None => None
    case Some(p) =>
      match p.GetDoorCloseAnnouncementPath(isInbound)
      case None => None
      case Some(path) => if path == "" || !fs.Exists(path) then None else Some(path)
  }

  /** The file `GetMelodyDurationAsync` probes: the profile's melody when it exists, else the default. */
  function DurationSource(profile: Option<AudioProfile>, fs: FileSystem, defaultPath: string): string {
    if profile.None? || !fs.Exists(profile.value.melodyFilePath) then defaultPath
    else profile.value.melodyFilePath
  }

  /** The melody fallback: an existing profile melody is looped, unless its path is
      relative; otherwise the default is, when it exists and its path is absolute; the only
      file whose absence can make playback fail is the default. */
  lemma MelodyFallback(profile: Option<AudioProfile>, fs: FileSystem, defaultPath: string)
    ensures profile.Some? && fs.Exists(profile.value.melodyFilePath)
      ==> MelodyOutcome(profile, fs, defaultPath)
          == if IsAbsolutePath(profile.value.melodyFilePath) then Ok(profile.value.melodyFilePath)
             else Err(UriFormat(profile.value.melodyFilePath))
    ensures (profile.None? || !fs.Exists(profile.value.melodyFilePath))
      ==> MelodyOutcome(profile, fs, defaultPath)
          == if !fs.Exists(defaultPath) then Err(FileNotFound(defaultPath))
             else if !IsAbsolutePath(defaultPath) then Err(UriFormat(defaultPath))
             else Ok(defaultPath)
    ensures MelodyOutcome(profile, fs, defaultPath).Ok? ==>
      && fs.Exists(MelodyOutcome(profile, fs, defaultPath).value)
      && IsAbsolutePath(MelodyOutcome(profile, fs, defaultPath).value)
  {
  }

  /** With the default audio directory `.\Audio` and file name `default.mp3`, the default
      melody path is relative, so falling back to it throws even when the file is there. */
  lemma RelativeDefaultThrows(fs: FileSystem)
    requires fs.Exists(".\\Audio\\default.mp3")
    ensures MelodyOutcome(None, fs, ".\\Audio\\default.mp3") == Err(UriFormat(".\\Audio\\default.mp3"))
  {
    assert !IsAbsolutePath(".\\Audio\\default.mp3") by {
      assert ".\\Audio\\default.mp3"[0] == '.';
    }
  }

  /** The duration is probed on exactly the file that playback would loop. */
  lemma DurationProbesPlayedFile(profile: Option<AudioProfile>, fs: FileSystem, defaultPath: string)
    requires MelodyOutcome(profile, fs, defaultPath).Ok?
    ensures DurationSource(profile, fs, defaultPath) == MelodyOutcome(profile, fs, defaultPath).value
  {
  }

  /** An announcement is played only from the profile's path for the train's direction, and
      only when that path is set, non-empty and present. */
  lemma AnnouncementRules(profile: Option<AudioProfile>, isInbound: bool, fs: FileSystem)
    ensures AnnouncementChoice(profile, isInbound, fs).Some? <==>
      && profile.Some?
      && profile.value.GetDoorCloseAnnouncementPath(isInbound).Some?
      && profile.value.GetDoorCloseAnnouncementPath(isInbound).value != ""
      && fs.Exists(profile.value.GetDoorCloseAnnouncementPath(isInbound).value)
    ensures AnnouncementChoice(profile, isInbound, fs).Some? ==>
      AnnouncementChoice(profile, isInbound, fs).value
        == (if isInbound then profile.value.doorCloseAnnouncementUpFilePath.value
            else profile.value.doorCloseAnnouncementDownFilePath.value)
  {
  }

  /** `duration ?? 30.0`: a probe that fails gives 30 seconds; any result is non-negative. */
  function DurationOrDefault(probe: Option<real>): (d: real)
    requires probe.Some? ==> 0.0 <= probe.value
    ensures 0.0 <= d
    ensures probe.None? ==> d == 30.0
    ensures probe.Some? ==> d == probe.value
  {
    Or(probe, 30.0)
  }

  class AudioPlaybackService {
    const melodyPlayer: MediaPlayerService
    const announcementPlayer: MediaPlayerService
    const profiles: AudioProfileRepository
    /** `Path.Combine(AudioBaseDirectory, DefaultMelodyFileName)`. */
    const defaultMelodyPath: string

    /** The two channels are separate players. */
    ghost predicate Valid() {
      melodyPlayer != announcementPlayer
    }

    constructor(profiles: AudioProfileRepository, defaultMelodyPath: string)
      ensures Valid()
      ensures this.profiles == profiles && this.defaultMelodyPath == defaultMelodyPath
      ensures fresh(melodyPlayer) && fresh(announcementPlayer)
      ensures melodyPlayer.State() == PlayerState(false, false, None, None, false, 0.5)
      ensures announcementPlayer.State() == PlayerState(false, false, None, None, false, 0.5)
    {
      this.profiles := profiles;
      this.defaultMelodyPath := defaultMelodyPath;
      melodyPlayer := new MediaPlayerService();
      announcementPlayer := new MediaPlayerService();
    }

    /** The profile lookup of every operation, given the table before the call. */
    function Found(cache: map<string, AudioProfile>, fs: FileSystem, track: TrackInfo): Result<Option<AudioProfile>> {
      FindResult(cache, fs, profiles.csvPath, track.stationName, track.trackNumber)
    }

    /** What `PlayMelodyAsync` loops for `track`, or the exception it throws. */
    function MelodyResult(cache: map<string, AudioProfile>, fs: FileSystem, track: TrackInfo): Result<string> {
      match Found(cache, fs, track)
      case Err(e) => Err(e)
      case Ok(profile) => MelodyOutcome(profile, fs, defaultMelodyPath)
    }

    /** The melody player after `PlayMelodyAsync` for `track`, from player state `p`. */
    function MelodyPlayerAfter(p: PlayerState, cache: map<string, AudioProfile>, fs: FileSystem, track: TrackInfo): PlayerState {
      match Found(cache, fs, track)
      case Err(_) => p
      case Ok(profile) =>
        match MelodyChoice(profile, fs, defaultMelodyPath)
        case Err(_) => p
        case Ok(path) => AfterPlay(p, path, true, fs)
    }

    /** What `PlayDoorCloseAnnouncementAsync` plays once for `track` (nothing when `None`),
        or the exception it throws. */
    function AnnouncementResult(cache: map<string, AudioProfile>, fs: FileSystem, track: TrackInfo,
                                isInbound: bool): Result<Option<string>> {
      match Found(cache, fs, track)
      case Err(e) => Err(e)
      case Ok(profile) =>
        match AnnouncementChoice(profile, isInbound, fs)
        case None => Ok(None)
        case Some(path) => if IsAbsolutePath(path) then Ok(Some(path)) else Err(UriFormat(path))
    }

    /** The announcement player after `PlayDoorCloseAnnouncementAsync`, from player state `p`. */
    function AnnouncementPlayerAfter(p: PlayerState, cache: map<string, AudioProfile>, fs: FileSystem, track: TrackInfo,
                                     isInbound: bool): PlayerState {
      match Found(cache, fs, track)
      case Err(_) => p
      case Ok(profile) =>
        match AnnouncementChoice(profile, isInbound, fs)
        case None => p
        case Some(path) => AfterPlay(p, path, false, fs)
    }

    /** The melody player starts exactly when playback succeeds; it is untouched when the
        lookup or the fallback throws, and keeps only the new flags when the looped path is
        relative. */
    lemma MelodyPlayerCases(p: PlayerState, cache: map<string, AudioProfile>, fs: FileSystem, track: TrackInfo)
      ensures MelodyResult(cache, fs, track).Ok? ==>
        MelodyPlayerAfter(p, cache, fs, track) == Started(p, MelodyResult(cache, fs, track).value, true)
      ensures MelodyResult(cache, fs, track).Err? && !MelodyResult(cache, fs, track).error.UriFormat? ==>
        MelodyPlayerAfter(p, cache, fs, track) == p
      ensures MelodyResult(cache, fs, track).Err? && MelodyResult(cache, fs, track).error.UriFormat? ==>
        MelodyPlayerAfter(p, cache, fs, track) == Opened(p, MelodyResult(cache, fs, track).error.uri, true)
    {
    }

    /** Likewise for the announcement: it plays exactly the path the result names, nothing
        on a skip or a failed lookup, and only the flags on a relative path. */
    lemma AnnouncementPlayerCases(p: PlayerState, cache: map<string, AudioProfile>, fs: FileSystem, track: TrackInfo,
                                  isInbound: bool)
      ensures var r := AnnouncementResult(cache, fs, track, isInbound);
        var q := AnnouncementPlayerAfter(p, cache, fs, track, isInbound);
        && (r.Ok? && r.value.Some? ==> q == Started(p, r.value.value, false))
        && (r.Ok? && r.value.None? ==> q == p)
        && (r.Err? && !r.error.UriFormat? ==> q == p)
        && (r.Err? && r.error.UriFormat? ==> q == Opened(p, r.error.uri, false))
    {
    }

    /** What `GetMelodyDurationAsync` returns for `track` when `run` is the ffmpeg run on
        the probed file, or the exception it throws. */
    function DurationResult(cache: map<string, AudioProfile>, fs: FileSystem, track: TrackInfo, run: ProcessRun): (r: Result<real>)
      ensures r.Ok? ==> 0.0 <= r.value
    {
      match Found(cache, fs, track)
      case Err(e) => Err(e)
      case Ok(profile) =>
        Ok(DurationOrDefault(FFmpegServices.GetAudioDuration(DurationSource(profile, fs, defaultMelodyPath), fs, run)))
    }

    /** The three lookups give the same answers after the lazy load as before it. */
    lemma ResultsAfterLoad(cache: map<string, AudioProfile>, fs: FileSystem, track: TrackInfo, run: ProcessRun, isInbound: bool)
      ensures var loaded := AfterEnsureLoaded(cache, fs, profiles.csvPath);
        && MelodyResult(loaded, fs, track) == MelodyResult(cache, fs, track)
        && AnnouncementResult(loaded, fs, track, isInbound) == AnnouncementResult(cache, fs, track, isInbound)
        && DurationResult(loaded, fs, track, run) == DurationResult(cache, fs, track, run)
    {
      FindResultAfterLoad(cache, fs, profiles.csvPath, track.stationName, track.trackNumber);
    }

    /** `PlayMelodyAsync`: loop the chosen melody on the melody player. */
    method PlayMelody(track: TrackInfo, fs: FileSystem) returns (o: Outcome)
      requires Valid()
      modifies profiles, melodyPlayer
      ensures profiles.profiles == AfterEnsureLoaded(old(profiles.profiles), fs, profiles.csvPath)
      ensures o == match MelodyResult(old(profiles.profiles), fs, track) case Err(e) => Fail(e) case Ok(_) => Pass
      ensures melodyPlayer.State() == MelodyPlayerAfter(old(melodyPlayer.State()), old(profiles.profiles), fs, track)
    {
      var found := profiles.FindProfile(track.stationName, track.trackNumber, fs);
      if found.Err? {
        return Fail(found.error);
      }
      if found.value.None? {
        o := melodyPlayer.PlayLoop(defaultMelodyPath, fs);
        return;
      }
      var melodyPath := found.value.value.melodyFilePath;
      if !fs.Exists(melodyPath) {
        melodyPath := defaultMelodyPath;
        if !fs.Exists(melodyPath) {
          return Fail(FileNotFound(melodyPath));
        }
      }
      o := melodyPlayer.PlayLoop(melodyPath, fs);
    }

    /** `StopMelody`: only the melody player is stopped. */
    method StopMelody()
      modifies melodyPlayer
      ensures melodyPlayer.State() == Stopped(old(melodyPlayer.State()))
    {
      melodyPlayer.Stop();
    }

    /** `PlayDoorCloseAnnouncementAsync`: play the direction's announcement once, or skip. */
    method PlayDoorCloseAnnouncement(track: TrackInfo, isInbound: bool, fs: FileSystem) returns (o: Outcome)
      requires Valid()
      modifies profiles, announcementPlayer
      ensures profiles.profiles == AfterEnsureLoaded(old(profiles.profiles), fs, profiles.csvPath)
      ensures o == match AnnouncementResult(old(profiles.profiles), fs, track, isInbound) case Err(e) => Fail(e) case Ok(_) => Pass
      ensures announcementPlayer.State()
        == AnnouncementPlayerAfter(old(announcementPlayer.State()), old(profiles.profiles), fs, track, isInbound)
    {
      var found := profiles.FindProfile(track.stationName, track.trackNumber, fs);
      if found.Err? {
        return Fail(found.error);
      }
      if found.value.None? {
        return Pass;
      }
      var announcementPath := found.value.value.GetDoorCloseAnnouncementPath(isInbound);
      if announcementPath.None? || announcementPath.value == "" {
        return Pass;
      }
      if !fs.Exists(announcementPath.value) {
        return Pass;
      }
      o := announcementPlayer.PlayOnce(announcementPath.value, fs);
    }

    /** `PauseAll`: both players. */
    method PauseAll()
      requires Valid()
      modifies melodyPlayer, announcementPlayer
      ensures melodyPlayer.State() == Paused(old(melodyPlayer.State()))
      ensures announcementPlayer.State() == Paused(old(announcementPlayer.State()))
    {
      melodyPlayer.Pause();
      announcementPlayer.Pause();
    }

    /** `ResumeAll`: both players. */
    method ResumeAll()
      requires Valid()
      modifies melodyPlayer, announcementPlayer
      ensures melodyPlayer.State() == Resumed(old(melodyPlayer.State()))
      ensures announcementPlayer.State() == Resumed(old(announcementPlayer.State()))
    {
      melodyPlayer.Resume();
      announcementPlayer.Resume();
    }

    /** `GetMelodyDurationAsync`: probe the file playback would use; 30 s when the probe fails.
        `run` is the ffmpeg run for that file. */
    method GetMelodyDuration(track: TrackInfo, fs: FileSystem, run: ProcessRun) returns (r: Result<real>)
      modifies profiles
      ensures profiles.profiles == AfterEnsureLoaded(old(profiles.profiles), fs, profiles.csvPath)
      ensures r == DurationResult(old(profiles.profiles), fs, track, run)
      ensures r.Ok? ==> 0.0 <= r.value
    {
      var found := profiles.FindProfile(track.stationName, track.trackNumber, fs);
      if found.Err? {
        return Err(found.error);
      }
      var melodyPath: string;
      if found.value.None? || !fs.Exists(found.value.value.melodyFilePath) {
        melodyPath := defaultMelodyPath;
      } else {
        melodyPath := found.value.value.melodyFilePath;
      }
      var duration := FFmpegServices.GetAudioDuration(melodyPath, fs, run);
      r := Ok(DurationOrDefault(duration));
    }
  }
}
