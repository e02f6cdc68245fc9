/**
 * The melody controller of the newest generation
 * (`Application/Services/MelodyControlService.cs`): it starts the melody for the track the
 * train stands at, stops it, waits one second of game time and plays the door-closing
 * announcement, and follows pause, resume and departure from the station.
 *
 * The game's telemetry cache is not an object here: every read of it is a `GameState`
 * argument. The one-second wait reads the cache again and again; those reads are the
 * sequence `samples`, in order.
 */
module MelodyControl {
  import opened Wrappers
  import opened Environment
  import opened TrackInfos
  import opened TrainStates
  import opened GameStates
  import opened MelodyStates
  import opened TrackRepositories
  import opened MediaPlayers
  import opened AudioPlayback
  import AudioProfileRepositories
  import opened AudioProfiles

  /** `IsAnyCircuitAtStationAsync(ids)` given the track table before the call: the lazy load
      throws when the table is empty and the file is missing. */
  function StationCheck(cache: seq<TrackInfo>, fs: FileSystem, csvPath: string, ids: seq<string>): Result<bool> {
    if |cache| == 0 && !fs.Exists(csvPath) then Err(FileNotFound(csvPath))
    else Ok(AnyCircuitAtStation(AfterEnsureLoaded(cache, fs, csvPath), ids))
  }

  /** The track `StartMelodyAsync` plays for circuits `ids` (`None`: it returns without
      playing), or the exception it throws. */
  function StartTrack(cache: seq<TrackInfo>, fs: FileSystem, csvPath: string, ids: seq<string>): Result<Option<TrackInfo>> {
    if |ids| == 0 then Ok(None)
    else
      match StationCheck(cache, fs, csvPath, ids)
      case Err(e) => Err(e)
      case Ok(atStation) =>
        if !atStation then Ok(None)
        else Ok(FirstWithCircuit(AfterEnsureLoaded(cache, fs, csvPath), ids[0]))
  }

  /** The checks answer the same after the lazy load as the call that did the load. */
  lemma StartTrackAfterLoad(cache: seq<TrackInfo>, fs: FileSystem, csvPath: string, ids: seq<string>)
    ensures StationCheck(AfterEnsureLoaded(cache, fs, csvPath), fs, csvPath, ids) == StationCheck(cache, fs, csvPath, ids)
    ensures StartTrack(AfterEnsureLoaded(cache, fs, csvPath), fs, csvPath, ids) == StartTrack(cache, fs, csvPath, ids)
  {
    EnsureLoadedIdempotent(cache, fs, csvPath);
  }

  /** A started melody belongs to a loaded track holding the train's first circuit. */
  lemma StartTrackSound(cache: seq<TrackInfo>, fs: FileSystem, csvPath: string, ids: seq<string>)
    requires StartTrack(cache, fs, csvPath, ids).Ok? && StartTrack(cache, fs, csvPath, ids).value.Some?
    ensures |ids| > 0
    ensures var t := StartTrack(cache, fs, csvPath, ids).value.value;
      && t.ContainsCircuit(ids[0])
      && t in AfterEnsureLoaded(cache, fs, csvPath)
  {
    var loaded := AfterEnsureLoaded(cache, fs, csvPath);
    var t := FirstWithCircuit(loaded, ids[0]).value;
    FirstWithCircuitSpec(loaded, ids[0]);
    var k :| 0 <= k < |loaded| && loaded[k] == t && forall j | 0 <= j < k :: !loaded[j].ContainsCircuit(ids[0]);
  }

  /** Only the first circuit decides: the melody starts exactly when the table loads and
      the first circuit belongs to a track. */
  lemma {:induction false} StartTrackFirstCircuit(cache: seq<TrackInfo>, fs: FileSystem, csvPath: string, ids: seq<string>)
    requires |ids| > 0 && StartTrack(cache, fs, csvPath, ids).Ok?
    ensures StartTrack(cache, fs, csvPath, ids).value.Some? <==> AtStation(AfterEnsureLoaded(cache, fs, csvPath), ids[0])
  {
    var loaded := AfterEnsureLoaded(cache, fs, csvPath);
    FoundIffAtStation(loaded, ids[0]);
    if AtStation(loaded, ids[0]) {
      assert AnyCircuitAtStation(loaded, ids);
    }
  }

  /** A train whose second circuit lies at a platform but whose first does not gets no
      melody, although the station check passes. */
  lemma SecondCircuitIgnored()
    ensures var t := TrackInfo("S", "1", ["B"]);
      && StationCheck([t], FileSystem(map[]), "tracks.csv", ["A", "B"]) == Ok(true)
      && StartTrack([t], FileSystem(map[]), "tracks.csv", ["A", "B"]) == Ok(None)
  {
    var t := TrackInfo("S", "1", ["B"]);
    assert [t][0].ContainsCircuit("B");
    assert AtStation([t], "B");
    assert !t.ContainsCircuit("A");
  }

  /** The first `k >= from` whose game time has reached `target`. */
  function SettleIndex(samples: seq<GameState>, target: real, from: nat): (k: Option<nat>)
    requires from <= |samples|
    decreases |samples| - from
    ensures k.Some? ==> from <= k.value < |samples| && samples[k.value].currentGameTime >= target
    ensures k.Some? ==> forall j | from <= j < k.value :: samples[j].currentGameTime < target
    ensures k.None? <==> forall j | from <= j < |samples| :: samples[j].currentGameTime < target
  {
    if from == |samples| then None
    else if samples[from].currentGameTime >= target then Some(from)
    else SettleIndex(samples, target, from + 1)
  }

  /** The read that ends the one-second wait: the first with game time at least one second
      past the first read; `None` while the wait is still going on. */
  function Settled(samples: seq<GameState>): (k: Option<nat>)
    ensures k.Some? ==> 1 <= k.value < |samples|
    ensures k.Some? ==> samples[k.value].currentGameTime >= samples[0].currentGameTime + 1.0
  {
    if |samples| == 0 then None else SettleIndex(samples, samples[0].currentGameTime + 1.0, 0)
  }

  /** `gameState.TrainState?.IsInbound() ?? false`. */
  predicate InboundOf(g: GameState) {
    g.trainState.Some? && g.trainState.value.IsInbound()
  }

  /** The state after a melody started for `track` at game time `time`. */
  function MelodyStarted(s: MelodyState, track: TrackInfo, time: real): MelodyState {
    s.With(Some(true), None, Some(track), Some(time), Some(false))
  }

  /** The state after the melody was stopped. */
  function MelodyHalted(s: MelodyState): MelodyState {
    s.With(Some(false), None, None, None, None)
  }

  /** The state after the door-closing announcement was handed to the player. */
  function AnnouncementDone(s: MelodyState): MelodyState {
    s.With(None, None, None, None, Some(true))
  }

  /** What each transition does to the record, field by field. */
  lemma TransitionFields(s: MelodyState, track: TrackInfo, time: real)
    ensures MelodyStarted(s, track, time) == MelodyState(true, s.currentMelodyPath, Some(track), Some(time), false)
    ensures MelodyHalted(s) == s.(isPlaying := false)
    ensures AnnouncementDone(s) == s.(doorCloseAnnouncementPlayed := true)
  {
    WithOverridesOrKeeps(s, Some(true), None, Some(track), Some(time), Some(false));
    WithPlayingOnly(s, false);
  }

  /** From the initial state, a start and a completed stop leave the track and start time
      recorded, nothing playing and the announcement marked as played. */
  lemma StartStopCycle(track: TrackInfo, time: real)
    ensures AnnouncementDone(MelodyHalted(MelodyStarted(Initial, track, time)))
         == MelodyState(false, None, Some(track), Some(time), true)
    ensures MelodyStarted(AnnouncementDone(MelodyHalted(MelodyStarted(Initial, track, time))), track, time)
         == MelodyStarted(Initial, track, time)
  {
  }

  /** How `StopMelodyAsync` ended. */
  datatype StopOutcome =
    | Idle                         // nothing was playing
    | NoTrack                      // playing without a recorded track
    | Waiting                      // stopped; the one-second wait has not ended yet
    | Announced(isInbound: bool)   // the announcement for that direction was handled
    | Failed(error: Exception)     // the profile lookup threw before the announcement

  /** The wait in `StopMelodyAsync`: the index of the first read at or past `target`. */
  method WaitForGameTime(samples: seq<GameState>, target: real) returns (k: Option<nat>)
    ensures k == SettleIndex(samples, target, 0)
  {
    var i := 0;
    while i < |samples| && samples[i].currentGameTime < target
      invariant i <= |samples|
      invariant SettleIndex(samples, target, i) == SettleIndex(samples, target, 0)
    {
      i := i + 1;
    }
    k := if i == |samples| then None else Some(i);
  }

  /** The screen change as the players see it: pausing pauses, anything else resumes. */
  function FollowScreen(screen: GameScreen, p: PlayerState): PlayerState {
    if screen == Pausing then Paused(p) else Resumed(p)
  }

  /** Every non-pausing event resumes the players, not only the one that ends a pause: an
      event arriving while driving after the melody stopped sets the stopped melody
      player running again while the service reports it not playing. */
  lemma EventAfterStopRestartsPlayer(p: PlayerState, screen: GameScreen)
    requires screen != Pausing
    ensures FollowScreen(screen, Stopped(p)).running
    ensures !FollowScreen(screen, Stopped(p)).isPlaying
    ensures FollowScreen(screen, Stopped(p)).openedPath == p.openedPath
  {
    ResumeAfterStop(p);
  }

  class MelodyControlService {
    const tracks: TrackRepository
    const audio: AudioPlaybackService
    var state: MelodyState

    ghost predicate Valid() {
      audio.Valid()
    }

    constructor(tracks: TrackRepository, audio: AudioPlaybackService)
      requires audio.Valid()
      ensures Valid()
      ensures this.tracks == tracks && this.audio == audio
      ensures state == Initial
    {
      this.tracks := tracks;
      this.audio := audio;
      state := Initial;
    }

    /** The outcome of `StartMelodyAsync` and the melody state it leaves, from state `s`
        and the two tables `trackCache` and `profileCache`. */
    function StartEffect(s: MelodyState, trackCache: seq<TrackInfo>, profileCache: map<string, AudioProfile>,
                         fs: FileSystem, cached: GameState, current: GameState): (Outcome, MelodyState)
    {
      if s.isPlaying then (Pass, s)
      else
        match StartTrack(trackCache, fs, tracks.csvPath, cached.currentCircuitIds)
        case Err(e) => (Fail(e), s)
        case Ok(None) => (Pass, s)
        case Ok(Some(track)) =>
          match audio.MelodyResult(profileCache, fs, track)
          case Err(e) => (Fail(e), s)
          case Ok(_) => (Pass, MelodyStarted(s, track, current.currentGameTime))
    }

    /** The outcome of `StopMelodyAsync` and the melody state it leaves. */
    function StopEffect(s: MelodyState, profileCache: map<string, AudioProfile>, fs: FileSystem,
                        samples: seq<GameState>): (StopOutcome, MelodyState)
    {
      if !s.isPlaying then (Idle, s)
      else if s.currentTrack.None? then (NoTrack, s)
      else
        match Settled(samples)
        case None => (Waiting, MelodyHalted(s))
        case Some(k) =>
          match audio.AnnouncementResult(profileCache, fs, s.currentTrack.value, InboundOf(samples[k]))
          case Err(e) => (Failed(e), MelodyHalted(s))
          case Ok(_) => (Announced(InboundOf(samples[k])), AnnouncementDone(MelodyHalted(s)))
    }

    /** A start does not depend on whether the lazy loads already happened. */
    lemma StartEffectAfterLoad(s: MelodyState, trackCache: seq<TrackInfo>, profileCache: map<string, AudioProfile>,
                               fs: FileSystem, cached: GameState, current: GameState)
      ensures var tc := AfterEnsureLoaded(trackCache, fs, tracks.csvPath);
        var pc := AudioProfileRepositories.AfterEnsureLoaded(profileCache, fs, audio.profiles.csvPath);
        && StartEffect(s, tc, profileCache, fs, cached, current) == StartEffect(s, trackCache, profileCache, fs, cached, current)
        && StartEffect(s, trackCache, pc, fs, cached, current) == StartEffect(s, trackCache, profileCache, fs, cached, current)
        && StartEffect(s, tc, pc, fs, cached, current) == StartEffect(s, trackCache, profileCache, fs, cached, current)
    {
      StartTrackAfterLoad(trackCache, fs, tracks.csvPath, cached.currentCircuitIds);
      var st := StartTrack(trackCache, fs, tracks.csvPath, cached.currentCircuitIds);
      if st.Ok? && st.value.Some? {
        audio.ResultsAfterLoad(profileCache, fs, st.value.value, Threw, false);
      }
    }

    /** A stop does not depend on whether the profile table was already loaded. */
    lemma StopEffectAfterLoad(s: MelodyState, profileCache: map<string, AudioProfile>, fs: FileSystem, samples: seq<GameState>)
      ensures var pc := AudioProfileRepositories.AfterEnsureLoaded(profileCache, fs, audio.profiles.csvPath);
        StopEffect(s, pc, fs, samples) == StopEffect(s, profileCache, fs, samples)
    {
      if s.currentTrack.Some? {
        var k := Settled(samples);
        if k.Some? {
          audio.ResultsAfterLoad(profileCache, fs, s.currentTrack.value, Threw, InboundOf(samples[k.value]));
        }
      }
    }

    /** A start leaves the melody playing exactly when it played a track, and then with the
        announcement not yet played; a stop always leaves it not playing, and marks the
        announcement played exactly when it handled it. */
    lemma EffectsOnPlaying(s: MelodyState, trackCache: seq<TrackInfo>, profileCache: map<string, AudioProfile>,
                           fs: FileSystem, cached: GameState, current: GameState, samples: seq<GameState>)
      ensures var (o, t) := StartEffect(s, trackCache, profileCache, fs, cached, current);
        && (t.isPlaying <==> s.isPlaying || (o.Pass? && t != s))
        && (!s.isPlaying && t.isPlaying ==> !t.doorCloseAnnouncementPlayed && t.startedAt == Some(current.currentGameTime))
      ensures var (r, t) := StopEffect(s, profileCache, fs, samples);
        && (s.isPlaying && s.currentTrack.Some? ==> !t.isPlaying)
        && (t.doorCloseAnnouncementPlayed <==> s.doorCloseAnnouncementPlayed || r.Announced?)
        && t.currentTrack == s.currentTrack && t.startedAt == s.startedAt
    {
      if !s.isPlaying {
        match StartTrack(trackCache, fs, tracks.csvPath, cached.currentCircuitIds)
        case Err(_) =>
        case Ok(None) =>
        case Ok(Some(track)) =>
          TransitionFields(s, track, current.currentGameTime);
      }
      TransitionFields(s, TrackInfo("", "", []), 0.0);
      TransitionFields(MelodyHalted(s), TrackInfo("", "", []), 0.0);
    }

    /** `StartMelodyAsync`. `cached` is the read before the station check, `current` the
        read after playback started, whose game time becomes the start time. */
    method StartMelody(cached: GameState, current: GameState, fs: FileSystem) returns (o: Outcome)
      requires Valid()
      modifies this, tracks, audio.profiles, audio.melodyPlayer
      ensures (o, state) == StartEffect(old(state), old(tracks.tracks), old(audio.profiles.profiles), fs, cached, current)
      ensures old(state).isPlaying ==>
        o == Pass && state == old(state)
        && unchanged(tracks, audio.profiles, audio.melodyPlayer)
      ensures !old(state).isPlaying ==>
        && tracks.tracks == (if |cached.currentCircuitIds| == 0 then old(tracks.tracks)
                             else AfterEnsureLoaded(old(tracks.tracks), fs, tracks.csvPath))
        && match StartTrack(old(tracks.tracks), fs, tracks.csvPath, cached.currentCircuitIds)
           case Err(e) => o == Fail(e) && state == old(state) && unchanged(audio.profiles, audio.melodyPlayer)
           case Ok(None) => o == Pass && state == old(state) && unchanged(audio.profiles, audio.melodyPlayer)
           case Ok(Some(track)) =>
             && audio.profiles.profiles
                == AudioProfileRepositories.AfterEnsureLoaded(old(audio.profiles.profiles), fs, audio.profiles.csvPath)
             && match audio.MelodyResult(old(audio.profiles.profiles), fs, track)
                case Err(e) =>
                  o == Fail(e) && state == old(state)
                  && audio.melodyPlayer.State()
                     == audio.MelodyPlayerAfter(old(audio.melodyPlayer.State()), old(audio.profiles.profiles), fs, track)
                case Ok(path) =>
                  o == Pass && state == MelodyStarted(old(state), track, current.currentGameTime)
                  && audio.melodyPlayer.State() == Started(old(audio.melodyPlayer.State()), path, true)
    {
      if state.isPlaying {
        return Pass;
      }
      var ids := cached.currentCircuitIds;
      if |ids| == 0 {
        return Pass;
      }
      var atStation := tracks.IsAnyCircuitAtStation(ids, fs);
      if atStation.Err? {
        return Fail(atStation.error);
      }
      if !atStation.value {
        return Pass;
      }
      var track := tracks.FindTrackByCircuitId(ids[0], fs);
      // The station check has already loaded the table, so the lookup cannot throw.
      assert track.Ok?;
      if track.value.None? {
        return Pass;
      }
      o := audio.PlayMelody(track.value.value, fs);
      if o.Fail? {
        return;
      }
      state := MelodyStarted(state, track.value.value, current.currentGameTime);
    }

    /** `StopMelodyAsync`: stop the melody, wait until the game clock has advanced one second
        past the first read of `samples`, then play the door-closing announcement for the
        direction of the read that ended the wait. */
    method StopMelody(samples: seq<GameState>, fs: FileSystem) returns (r: StopOutcome)
      requires Valid()
      modifies this, audio.profiles, audio.melodyPlayer, audio.announcementPlayer
      ensures (r, state) == StopEffect(old(state), old(audio.profiles.profiles), fs, samples)
      ensures !old(state).isPlaying ==>
        r == Idle && state == old(state)
        && unchanged(audio.profiles, audio.melodyPlayer, audio.announcementPlayer)
      ensures old(state).isPlaying && old(state).currentTrack.None? ==>
        r == NoTrack && state == old(state)
        && unchanged(audio.profiles, audio.melodyPlayer, audio.announcementPlayer)
      ensures old(state).isPlaying && old(state).currentTrack.Some? ==>
        && audio.melodyPlayer.State() == Stopped(old(audio.melodyPlayer.State()))
        && match Settled(samples)
           case None =>
             r == Waiting && state == MelodyHalted(old(state))
             && unchanged(audio.profiles, audio.announcementPlayer)
           case Some(k) =>
             && audio.profiles.profiles
                == AudioProfileRepositories.AfterEnsureLoaded(old(audio.profiles.profiles), fs, audio.profiles.csvPath)
             && match audio.AnnouncementResult(old(audio.profiles.profiles), fs, old(state).currentTrack.value, InboundOf(samples[k]))
                case Err(e) =>
                  r == Failed(e) && state == MelodyHalted(old(state))
                  && audio.announcementPlayer.State()
                     == audio.AnnouncementPlayerAfter(old(audio.announcementPlayer.State()), old(audio.profiles.profiles), fs,
                                                      old(state).currentTrack.value, InboundOf(samples[k]))
                case Ok(choice) =>
                  r == Announced(InboundOf(samples[k])) && state == AnnouncementDone(MelodyHalted(old(state)))
                  && audio.announcementPlayer.State()
                     == (if choice.None? then old(audio.announcementPlayer.State())
                         else Started(old(audio.announcementPlayer.State()), choice.value, false))
    {
      if !state.isPlaying {
        return Idle;
      }
      var track := state.currentTrack;
      if track.None? {
        return NoTrack;
      }
      audio.StopMelody();
      state := MelodyHalted(state);
      if |samples| == 0 {
        return Waiting;
      }
      var k := WaitForGameTime(samples, samples[0].currentGameTime + 1.0);
      if k.None? {
        return Waiting;
      }
      var isInbound := InboundOf(samples[k.value]);
      var o := audio.PlayDoorCloseAnnouncement(track.value, isInbound, fs);
      if o.Fail? {
        return Failed(o.error);
      }
      state := AnnouncementDone(state);
      r := Announced(isInbound);
    }

    /** `GetCurrentState`: the record as it is, nothing changes. */
    method GetCurrentState() returns (s: MelodyState)
      ensures s == state
    {
      s := state;
    }

    /** `IsUiEnabledAsync`: the buttons work while driving at a platform. */
    method IsUiEnabled(cached: GameState, fs: FileSystem) returns (r: Result<bool>)
      modifies tracks
      ensures tracks.tracks == AfterEnsureLoaded(old(tracks.tracks), fs, tracks.csvPath)
      ensures match StationCheck(old(tracks.tracks), fs, tracks.csvPath, cached.currentCircuitIds)
        case Err(e) => r == Err(e)
        case Ok(atStation) => r == Ok(atStation && cached.screen == Playing)
    {
      var atStation := tracks.IsAnyCircuitAtStation(cached.currentCircuitIds, fs);
      if atStation.Err? {
        return Err(atStation.error);
      }
      r := Ok(atStation.value && cached.screen == Playing);
    }

    /** `OnGameStateChanged`: pause or resume both players with the screen, then stop the
        melody when the train has left the platform. */
    method OnGameStateChanged(g: GameState, fs: FileSystem) returns (o: Outcome)
      requires Valid()
      modifies this, tracks, audio.melodyPlayer, audio.announcementPlayer
      ensures audio.announcementPlayer.State() == FollowScreen(g.screen, old(audio.announcementPlayer.State()))
      ensures tracks.tracks == AfterEnsureLoaded(old(tracks.tracks), fs, tracks.csvPath)
      ensures match StationCheck(old(tracks.tracks), fs, tracks.csvPath, g.currentCircuitIds)
        case Err(e) =>
          o == Fail(e) && state == old(state)
          && audio.melodyPlayer.State() == FollowScreen(g.screen, old(audio.melodyPlayer.State()))
        case Ok(atStation) =>
          o == Pass
          && if !atStation && old(state).isPlaying then
               state == MelodyHalted(old(state))
               && audio.melodyPlayer.State() == Stopped(FollowScreen(g.screen, old(audio.melodyPlayer.State())))
             else
               state == old(state)
               && audio.melodyPlayer.State() == FollowScreen(g.screen, old(audio.melodyPlayer.State()))
    {
      if g.screen == Pausing {
        audio.PauseAll();
      } else {
        audio.ResumeAll();
      }
      var atStation := tracks.IsAnyCircuitAtStation(g.currentCircuitIds, fs);
      if atStation.Err? {
        return Fail(atStation.error);
      }
      if !atStation.value && state.isPlaying {
        audio.StopMelody();
        state := MelodyHalted(state);
      }
      o := Pass;
    }
  }
}
