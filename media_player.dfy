/**
 * One audio channel (`Infrastructure/AudioServices/MediaPlayerService.cs`): the flags the
 * service keeps next to the WPF `MediaPlayer` it drives.
 */
module MediaPlayers {
  import opened Wrappers
  import opened Environment

  /** The service's observable state: its own flags plus what the underlying player holds
      (`openedPath`: the media last opened; `running`: told to play and not since paused,
      stopped or run to its end; `volume`: the player's volume). */
  datatype PlayerState = PlayerState(
    isPlaying: bool,
    isLooping: bool,
    currentFilePath: Option<string>,
    openedPath: Option<string>,
    running: bool,
    volume: real)
  {
    /** A looping player has a file to loop. */
    predicate Valid() {
      isLooping ==> currentFilePath.Some?
    }

    /** A looping player also reports itself playing. Every transition keeps this except a
        play that throws after setting its flags (`Opened`). */
    predicate Consistent() {
      isLooping ==> isPlaying
    }
  }

  /** `PlayLoopAsync` / `PlayOnceAsync` on an existing file with an absolute path. */
  function Started(s: PlayerState, path: string, loop: bool): PlayerState {
    s.(isPlaying := true, isLooping := loop, currentFilePath := Some(path), openedPath := Some(path), running := true)
  }

  /** `PlayLoopAsync` / `PlayOnceAsync` on an existing file whose path is relative: the path
      and the looping flag are set, then building the absolute `Uri` throws, so nothing is
      opened and `IsPlaying` is left as it was. */
  function Opened(s: PlayerState, path: string, loop: bool): PlayerState {
    s.(isLooping := loop, currentFilePath := Some(path))
  }

  /** The exception `PlayLoopAsync` / `PlayOnceAsync` throw for `path`, if any: a missing
      file first, then a path that is not absolute. */
  function PlayFailure(path: string, fs: FileSystem): Option<Exception> {
    if !fs.Exists(path) then Some(FileNotFound(path))
    else if !IsAbsolutePath(path) then Some(UriFormat(path))
    else None
  }

  /** The player's state after `PlayLoopAsync` (`loop`) or `PlayOnceAsync` on `path`. */
  function AfterPlay(s: PlayerState, path: string, loop: bool, fs: FileSystem): PlayerState {
    if !fs.Exists(path) then s
    else if !IsAbsolutePath(path) then Opened(s, path, loop)
    else Started(s, path, loop)
  }

  /** A play succeeds exactly on an existing file with an absolute path, and then the file
      plays; a missing file changes nothing; a relative one leaves only the flags set. */
  lemma PlayCases(s: PlayerState, path: string, loop: bool, fs: FileSystem)
    ensures PlayFailure(path, fs).None? <==> fs.Exists(path) && IsAbsolutePath(path)
    ensures PlayFailure(path, fs).None? ==> AfterPlay(s, path, loop, fs) == Started(s, path, loop)
    ensures PlayFailure(path, fs) == Some(FileNotFound(path)) <==> !fs.Exists(path)
    ensures !fs.Exists(path) ==> AfterPlay(s, path, loop, fs) == s
    ensures PlayFailure(path, fs) == Some(UriFormat(path)) ==>
      && AfterPlay(s, path, loop, fs).isLooping == loop
      && AfterPlay(s, path, loop, fs).currentFilePath == Some(path)
      && AfterPlay(s, path, loop, fs).isPlaying == s.isPlaying
      && AfterPlay(s, path, loop, fs).openedPath == s.openedPath
  {
  }

  /** A relative path that exists, looped on a stopped player, leaves it looping but not
      playing. */
  lemma RelativeLoopLeavesInconsistent(s: PlayerState, path: string, fs: FileSystem)
    requires !s.isPlaying && fs.Exists(path) && !IsAbsolutePath(path)
    ensures AfterPlay(s, path, true, fs).Valid() && !AfterPlay(s, path, true, fs).Consistent()
  {
  }

  /** `Stop`. */
  function Stopped(s: PlayerState): PlayerState {
    s.(isPlaying := false, isLooping := false, running := false)
  }

  /** `Pause` and `Resume` only drive the underlying player. */
  function Paused(s: PlayerState): PlayerState {
    s.(running := false)
  }

  function Resumed(s: PlayerState): PlayerState {
    s.(running := true)
  }

  /** `OnMediaEnded`: a looping player with a file rewinds and plays on; any other stops. */
  function Ended(s: PlayerState): PlayerState {
    if s.isLooping && s.currentFilePath.Some? then s.(running := true) else s.(isPlaying := false, running := false)
  }

  /** `Math.Clamp(value, 0.0, 1.0)`. */
  function Clamp(v: real): (r: real)
    ensures 0.0 <= r <= 1.0
    ensures 0.0 <= v <= 1.0 ==> r == v
    ensures v < 0.0 ==> r == 0.0
    ensures v > 1.0 ==> r == 1.0
  {
    if v < 0.0 then 0.0 else if v > 1.0 then 1.0 else v
  }

  /** Every transition keeps a looping player holding a file; every transition but the
      failed open keeps it reporting itself playing. */
  lemma TransitionsKeepValid(s: PlayerState, path: string, loop: bool, fs: FileSystem)
    requires s.Valid()
    ensures Started(s, path, loop).Valid() && Opened(s, path, loop).Valid() && AfterPlay(s, path, loop, fs).Valid()
    ensures Stopped(s).Valid() && Paused(s).Valid() && Resumed(s).Valid() && Ended(s).Valid()
    ensures s.Consistent() ==>
      && Started(s, path, loop).Consistent() && Stopped(s).Consistent()
      && Paused(s).Consistent() && Resumed(s).Consistent() && Ended(s).Consistent()
  {
  }

  /** Loop and once differ only in the looping flag; both play the file. */
  lemma StartedFlags(s: PlayerState, path: string)
    ensures Started(s, path, true).isLooping && !Started(s, path, false).isLooping
    ensures Started(s, path, true).isPlaying && Started(s, path, false).isPlaying
    ensures Started(s, path, true).currentFilePath == Some(path) == Started(s, path, false).currentFilePath
  {
  }

  /** Pause and resume change neither IsPlaying nor looping nor the file. */
  lemma PauseResumeKeepFlags(s: PlayerState)
    ensures Paused(s).isPlaying == s.isPlaying == Resumed(s).isPlaying
    ensures Paused(s).isLooping == s.isLooping == Resumed(s).isLooping
    ensures Paused(s).currentFilePath == s.currentFilePath == Resumed(s).currentFilePath
  {
  }

  /** A looping player never stops by reaching the end; a single play does. */
  lemma EndOfMedia(s: PlayerState)
    requires s.Valid()
    ensures s.isLooping ==> Ended(s).isPlaying == s.isPlaying && Ended(s).running
    ensures s.isLooping && s.Consistent() ==> Ended(s).isPlaying
    ensures !s.isLooping ==> !Ended(s).isPlaying
  {
  }

  /** `Resume` drives the underlying player even after `Stop`: the service then reports
      not playing while its player has been told to play. */
  lemma ResumeAfterStop(s: PlayerState)
    ensures !Resumed(Stopped(s)).isPlaying && Resumed(Stopped(s)).running
    ensures Resumed(Stopped(s)).openedPath == s.openedPath
  {
  }

  class MediaPlayerService {
    var isPlaying: bool
    var isLooping: bool
    var currentFilePath: Option<string>
    var openedPath: Option<string>
    var running: bool
    var volume: real

    function State(): PlayerState
      reads this
    {
      PlayerState(isPlaying, isLooping, currentFilePath, openedPath, running, volume)
    }

    /** A new service over a new player, which starts at WPF's default volume 0.5. */
    constructor()
      ensures State() == PlayerState(false, false, None, None, false, 0.5)
      ensures State().Valid() && State().Consistent()
    {
      isPlaying, isLooping, currentFilePath := false, false, None;
      openedPath, running, volume := None, false, 0.5;
    }

    /** `PlayLoopAsync`: a missing file throws and changes nothing; a relative path throws
        once the flags are set. */
    method PlayLoop(path: string, fs: FileSystem) returns (o: Outcome)
      modifies this
      ensures o == (if PlayFailure(path, fs).Some? then Fail(PlayFailure(path, fs).value) else Pass)
      ensures State() == AfterPlay(old(State()), path, true, fs)
    {
      if !fs.Exists(path) {
        return Fail(FileNotFound(path));
      }
      currentFilePath := Some(path);
      isLooping := true;
      if !IsAbsolutePath(path) {
        return Fail(UriFormat(path));
      }
      openedPath := Some(path);
      running := true;
      isPlaying := true;
      return Pass;
    }

    /** `PlayOnceAsync`: a missing file throws and changes nothing; a relative path throws
        once the flags are set. */
    method PlayOnce(path: string, fs: FileSystem) returns (o: Outcome)
      modifies this
      ensures o == (if PlayFailure(path, fs).Some? then Fail(PlayFailure(path, fs).value) else Pass)
      ensures State() == AfterPlay(old(State()), path, false, fs)
    {
      if !fs.Exists(path) {
        return Fail(FileNotFound(path));
      }
      currentFilePath := Some(path);
      isLooping := false;
      if !IsAbsolutePath(path) {
        return Fail(UriFormat(path));
      }
      openedPath := Some(path);
      running := true;
      isPlaying := true;
      return Pass;
    }

    method Stop()
      modifies this
      ensures State() == Stopped(old(State()))
    {
      running := false;
      isPlaying := false;
      isLooping := false;
    }

    method Pause()
      modifies this
      ensures State() == Paused(old(State()))
    {
      running := false;
    }

    method Resume()
      modifies this
      ensures State() == Resumed(old(State()))
    {
      running := true;
    }

    /** The `MediaEnded` event handler. */
    method OnMediaEnded()
      modifies this
      ensures State() == Ended(old(State()))
    {
      if isLooping && currentFilePath.Some? {
        running := true;
      } else {
        running := false;
        isPlaying := false;
      }
    }

    /** The `Volume` setter. */
    method SetVolume(v: real)
      modifies this
      ensures State() == old(State()).(volume := Clamp(v))
    {
      volume := Clamp(v);
    }
  }
}
