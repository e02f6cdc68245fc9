/**
 * The middle generation's per-tick orchestrator (`Service/MainService.cs`): it reacts to
 * screen changes (start, stop, pause, resume of a session) and, in the main game, turns the
 * ON/OFF request of the auto mode or of the window into melody or door-closing playback.
 * The calls it makes on the window and on the audio player are returned as a list.
 */
module MainServices {
  import opened Wrappers
  import opened LegacyTelemetry
  import opened LegacyTrackRepositories
  import opened MelodyPaths
  import opened LegacyAutoModeServices

  /** A call on the window (`SetButtonIsEnabled`) or on the audio player repository. */
  datatype Call =
    | SetButtonIsEnabled(enabled: bool)
    | ResetAudio
    | PauseAudio
    | ResumeAudio
    | PlayOn(path: string)
    | PlayOff(path: string)

  /** One tick's reading of the simulator, taken after `Fetch`. */
  datatype Telemetry = Telemetry(screen: GameScreen, crew: CrewType, train: TrainState,
                                 signals: seq<SignalInfo>, circuits: set<string>)

  /** The service's own fields. */
  datatype Flags = Flags(previousGameScreen: GameScreen, isMelodyPlaying: bool, isAutoMode: bool)

  /** `IsGamePlaying`: in the main game, paused or not. */
  predicate IsGamePlaying(screen: GameScreen) {
    screen == MainGame || screen == MainGame_Pause
  }

  /** The four screen-edge handlers at the head of `Tick`, in order: start of a session
      (`OnStartGame`, which also resets the auto mode), end of one (`OnStopGame`), pause
      (`OnPaused`) and resume (`OnResumed`). */
  function EdgeEffect(f: Flags, am: Memory, t: Telemetry): (seq<Call>, Flags, Memory) {
    var prev := f.previousGameScreen;
    var started := !IsGamePlaying(prev) && IsGamePlaying(t.screen);
    var f1 := if started then f.(isMelodyPlaying := false, isAutoMode := t.crew == Driver) else f;
    var am1 := if started then ResetMemory(am) else am;
    var c1 := if started then [ResetAudio] else [];
    var c2 := if IsGamePlaying(prev) && !IsGamePlaying(t.screen) then [ResetAudio] else [];
    var c3 := if prev != MainGame_Pause && t.screen == MainGame_Pause then [SetButtonIsEnabled(false), PauseAudio] else [];
    var c4 := if prev == MainGame_Pause && t.screen == MainGame then [ResumeAudio] else [];
    (c1 + c2 + c3 + c4, f1, am1)
  }

  /** `GetButtonState`: the auto mode's answer in auto mode, the window's pending request
      otherwise (which leaves the auto mode untouched). */
  function RequestEffect(f: Flags, am: Memory, t: Telemetry, platform: Option<Platform>,
                         windowRequest: ButtonState, host: Host): (Result<ButtonState>, Memory)
  {
    if f.isAutoMode then ButtonEffect(am, t.train, t.signals, platform, host) else (Ok(windowRequest), am)
  }

  /** The request asks for the state the melody is already in (or for nothing). */
  predicate Redundant(request: ButtonState, isMelodyPlaying: bool) {
    request == NotChanged || (request == On && isMelodyPlaying) || (request == Off && !isMelodyPlaying)
  }

  /** `TickOnPlaying`, with `platform` the lookup of the occupied circuits. */
  function PlayingEffect(f: Flags, am: Memory, t: Telemetry, platform: Option<Platform>,
                         windowRequest: ButtonState, host: Host): (seq<Call>, Outcome, Flags, Memory)
  {
    var enable := [SetButtonIsEnabled(platform.Some? && !f.isAutoMode)];
    if platform.None? then (enable, Pass, f, am)
    else
      var (request, am1) := RequestEffect(f, am, t, platform, windowRequest, host);
      if request.Err? then (enable, Fail(request.error), f, am1)
      else if Redundant(request.value, f.isMelodyPlaying) then (enable, Pass, f, am1)
      else
        var playing := request.value == On;
        var path := GetAudioPath(platform.value.stationName, platform.value.trackNumber, playing,
                                 t.train.trainClass, host.cwd, host.fs);
        (enable + [if playing then PlayOn(path) else PlayOff(path)], Pass, f.(isMelodyPlaying := playing), am1)
  }

  /** `Tick`: the edge handlers, the main-game logic when the screen is the main game, and
      finally the screen remembered for the next tick (skipped when the tick threw). */
  function TickEffect(f: Flags, am: Memory, t: Telemetry, platform: Option<Platform>,
                      windowRequest: ButtonState, host: Host): (seq<Call>, Outcome, Flags, Memory)
  {
    var (c1, f1, am1) := EdgeEffect(f, am, t);
    if t.screen == MainGame then
      var (c2, o, f2, am2) := PlayingEffect(f1, am1, t, platform, windowRequest, host);
      (c1 + c2, o, if o.Pass? then f2.(previousGameScreen := t.screen) else f2, am2)
    else (c1, Pass, f1.(previousGameScreen := t.screen), am1)
  }

  /** Entering a session (from a screen outside the game into the game or its pause
      screen) first resets the audio, clears the melody flag and resets the auto mode; auto
      mode is on exactly for a driver. */
  lemma StartResets(f: Flags, am: Memory, t: Telemetry, platform: Option<Platform>,
                    windowRequest: ButtonState, host: Host)
    requires !IsGamePlaying(f.previousGameScreen) && IsGamePlaying(t.screen)
    ensures var (calls, o, f', am') := TickEffect(f, am, t, platform, windowRequest, host);
      && |calls| > 0 && calls[0] == ResetAudio
      && f'.isAutoMode == (t.crew == Driver)
      && (t.screen == MainGame_Pause ==> !f'.isMelodyPlaying && am' == ResetMemory(am))
  {
  }

  /** Leaving a session resets the audio and does nothing else. */
  lemma StopResets(f: Flags, am: Memory, t: Telemetry, platform: Option<Platform>,
                   windowRequest: ButtonState, host: Host)
    requires IsGamePlaying(f.previousGameScreen) && !IsGamePlaying(t.screen)
    ensures TickEffect(f, am, t, platform, windowRequest, host)
         == ([ResetAudio], Pass, f.(previousGameScreen := t.screen), am)
  {
    var (c1, f1, am1) := EdgeEffect(f, am, t);
    assert c1 == [ResetAudio];
    assert f1 == f;
    assert am1 == am;
  }

  /** The main-game logic never pauses or resumes the audio. */
  lemma PlayingNeverPausesOrResumes(f: Flags, am: Memory, t: Telemetry, platform: Option<Platform>,
                                    windowRequest: ButtonState, host: Host)
    ensures var calls := PlayingEffect(f, am, t, platform, windowRequest, host).0;
      PauseAudio !in calls && ResumeAudio !in calls && ResetAudio !in calls
  {
  }

  /** The audio is paused only on the tick the pause screen appears and resumed only on the
      tick the pause screen gives way to the main game. */
  lemma PauseResumeOnEdges(f: Flags, am: Memory, t: Telemetry, platform: Option<Platform>,
                           windowRequest: ButtonState, host: Host)
    ensures var calls := TickEffect(f, am, t, platform, windowRequest, host).0;
      && (PauseAudio in calls <==> f.previousGameScreen != MainGame_Pause && t.screen == MainGame_Pause)
      && (ResumeAudio in calls <==> f.previousGameScreen == MainGame_Pause && t.screen == MainGame)
  {
    var (c1, f1, am1) := EdgeEffect(f, am, t);
    if t.screen == MainGame {
      PlayingNeverPausesOrResumes(f1, am1, t, platform, windowRequest, host);
    }
  }

  /** Outside the main game (including its pause screen) nothing is played and the melody
      flag changes only by the session-start reset. */
  lemma NoPlaybackOutsideMainGame(f: Flags, am: Memory, t: Telemetry, platform: Option<Platform>,
                                  windowRequest: ButtonState, host: Host)
    requires t.screen != MainGame
    ensures var (calls, o, f', am') := TickEffect(f, am, t, platform, windowRequest, host);
      && (forall i | 0 <= i < |calls| :: !calls[i].PlayOn? && !calls[i].PlayOff?)
      && o == Pass
      && f'.isMelodyPlaying == (f.isMelodyPlaying && !(!IsGamePlaying(f.previousGameScreen) && IsGamePlaying(t.screen)))
  {
  }

  /** In the main game the buttons are enabled exactly on a platform with auto mode off;
      off a platform that is the only call and nothing else changes. */
  lemma ButtonsEnabledOnPlatform(f: Flags, am: Memory, t: Telemetry, platform: Option<Platform>,
                                 windowRequest: ButtonState, host: Host)
    ensures var (calls, o, f', am') := PlayingEffect(f, am, t, platform, windowRequest, host);
      && |calls| > 0 && calls[0] == SetButtonIsEnabled(platform.Some? && !f.isAutoMode)
      && (platform.None? ==> calls == [SetButtonIsEnabled(false)] && o == Pass && f' == f && am' == am)
  {
  }

  /** The melody flag flips only on an ON request while stopped or an OFF request while
      playing; then exactly one sound is started: the melody (`PlayOn`) when turning on, the
      door-closing clip (`PlayOff`) when turning off, on the path for the new flag. A
      redundant request changes and plays nothing. */
  lemma FlipsOnlyOnChange(f: Flags, am: Memory, t: Telemetry, platform: Option<Platform>,
                          windowRequest: ButtonState, host: Host)
    ensures var (calls, o, f', am') := PlayingEffect(f, am, t, platform, windowRequest, host);
      var request := RequestEffect(f, am, t, platform, windowRequest, host).0;
      && (f'.isMelodyPlaying != f.isMelodyPlaying <==>
            platform.Some? && request.Ok? && !Redundant(request.value, f.isMelodyPlaying))
      && (f'.isMelodyPlaying != f.isMelodyPlaying ==>
            var path := GetAudioPath(platform.value.stationName, platform.value.trackNumber, f'.isMelodyPlaying,
                                     t.train.trainClass, host.cwd, host.fs);
            |calls| == 2 && calls[1] == (if f'.isMelodyPlaying then PlayOn(path) else PlayOff(path)))
      && (f'.isMelodyPlaying == f.isMelodyPlaying ==> |calls| == 1)
  {
  }

  /** The request comes from the auto mode in auto mode and from the window otherwise; only
      the auto mode's answer moves the auto mode's fields. */
  lemma RequestSource(f: Flags, am: Memory, t: Telemetry, platform: Option<Platform>,
                      windowRequest: ButtonState, host: Host)
    ensures f.isAutoMode ==>
      RequestEffect(f, am, t, platform, windowRequest, host) == ButtonEffect(am, t.train, t.signals, platform, host)
    ensures !f.isAutoMode ==> RequestEffect(f, am, t, platform, windowRequest, host) == (Ok(windowRequest), am)
  {
  }

  /** A tick that completes remembers the screen it saw. */
  lemma RemembersScreen(f: Flags, am: Memory, t: Telemetry, platform: Option<Platform>,
                        windowRequest: ButtonState, host: Host)
    ensures var (calls, o, f', am') := TickEffect(f, am, t, platform, windowRequest, host);
      o.Pass? ==> f'.previousGameScreen == t.screen
  {
  }

  class MainService {
    const autoMode: AutoModeService
    const tracks: TrackRepository
    var previousGameScreen: GameScreen
    var isMelodyPlaying: bool
    var isAutoMode: bool

    /** The application registers one track repository and hands it to both services. */
    predicate Valid() {
      autoMode.tracks == tracks
    }

    function Snapshot(): Flags
      reads this
    {
      Flags(previousGameScreen, isMelodyPlaying, isAutoMode)
    }

    constructor (autoMode: AutoModeService)
      ensures this.autoMode == autoMode && Valid()
      ensures Snapshot() == Flags(NotRunningGame, false, false)
    {
      this.autoMode := autoMode;
      this.tracks := autoMode.tracks;
      previousGameScreen := NotRunningGame;
      isMelodyPlaying := false;
      isAutoMode := false;
    }

    /** `Tick` on this tick's telemetry and the window's pending request. */
    method Tick(t: Telemetry, windowRequest: ButtonState, host: Host) returns (calls: seq<Call>, o: Outcome)
      requires Valid()
      modifies this, autoMode
      ensures (calls, o, Snapshot(), autoMode.Snapshot())
           == TickEffect(old(Snapshot()), old(autoMode.Snapshot()), t, tracks.GetTrackByTrackCircuits(t.circuits),
                         windowRequest, host)
    {
      o := Pass;
      var started: seq<Call> := [];
      if !IsGamePlaying(previousGameScreen) && IsGamePlaying(t.screen) {
        started := OnStartGame(t.crew);
      }
      var stopped := if IsGamePlaying(previousGameScreen) && !IsGamePlaying(t.screen) then [ResetAudio] else [];
      var paused := if previousGameScreen != MainGame_Pause && t.screen == MainGame_Pause
                    then [SetButtonIsEnabled(false), PauseAudio] else [];
      var resumed := if previousGameScreen == MainGame_Pause && t.screen == MainGame then [ResumeAudio] else [];
      calls := started + stopped + paused + resumed;
      if t.screen == MainGame {
        var c;
        c, o := TickOnPlaying(t, windowRequest, host);
        calls := calls + c;
        if o.Fail? {
          return;
        }
      }
      previousGameScreen := t.screen;
    }

    /** `OnStartGame`. */
    method OnStartGame(crew: CrewType) returns (calls: seq<Call>)
      modifies this, autoMode
      ensures Snapshot() == old(Snapshot()).(isMelodyPlaying := false, isAutoMode := crew == Driver)
      ensures autoMode.Snapshot() == ResetMemory(old(autoMode.Snapshot()))
      ensures calls == [ResetAudio]
    {
      isMelodyPlaying := false;
      autoMode.Reset();
      calls := [ResetAudio];
      isAutoMode := crew == Driver;
    }

    /** `TickOnPlaying`. */
    method TickOnPlaying(t: Telemetry, windowRequest: ButtonState, host: Host) returns (calls: seq<Call>, o: Outcome)
      requires Valid()
      modifies this, autoMode
      ensures (calls, o, Snapshot(), autoMode.Snapshot())
           == PlayingEffect(old(Snapshot()), old(autoMode.Snapshot()), t, tracks.GetTrackByTrackCircuits(t.circuits),
                            windowRequest, host)
    {
      var platform := tracks.GetTrackByTrackCircuits(t.circuits);
      calls := [SetButtonIsEnabled(platform.Some? && !isAutoMode)];
      o := Pass;
      if platform.None? {
        return;
      }
      var request := GetButtonState(t, windowRequest, host);
      if request.Err? {
        return calls, Fail(request.error);
      }
      if Redundant(request.value, isMelodyPlaying) {
        return;
      }
      isMelodyPlaying := request.value == On;
      var path := GetAudioPath(platform.value.stationName, platform.value.trackNumber, isMelodyPlaying,
                               t.train.trainClass, host.cwd, host.fs);
      if isMelodyPlaying {
        calls := calls + [PlayOn(path)];
      } else {
        calls := calls + [PlayOff(path)];
      }
    }

    /** `GetButtonState`. */
    method GetButtonState(t: Telemetry, windowRequest: ButtonState, host: Host) returns (r: Result<ButtonState>)
      requires Valid()
      modifies autoMode
      ensures (r, autoMode.Snapshot())
           == RequestEffect(Snapshot(), old(autoMode.Snapshot()), t, tracks.GetTrackByTrackCircuits(t.circuits),
                            windowRequest, host)
    {
      if isAutoMode {
        r := autoMode.GetButtonState(t.train, t.signals, t.circuits, host);
      } else {
        r := Ok(windowRequest);
      }
    }
  }
}
