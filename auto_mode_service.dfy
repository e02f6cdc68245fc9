/**
 * The auto mode of the newest generation (`Application/Services/AutoModeService.cs`).
 * Every 16 ms a tick reads the telemetry, records the moments of the current stop at a
 * platform (arrival, signal clearing, doors opening), starts the melody once per stop and
 * stops it in time for the door-closing announcement before departure.
 *
 * The record of one stop (`Dwell`) and the threshold arithmetic are values and functions;
 * the service is a class whose tick is proved against them.
 */
module AutoModeServices {
  import opened Wrappers
  import opened Environment
  import opened TrackInfos
  import opened TrainStates
  import opened SignalInfos
  import opened GameStates
  import opened MelodyStates
  import opened AutoModeConfigs
  import opened TrackRepositories
  import opened AudioProfiles
  import opened AudioPlayback
  import opened MelodyControl
  import AudioProfileRepositories

  /** What the service remembers about the current stop; times are game times in seconds. */
  datatype Dwell = Dwell(
    arrivalTime: Option<real>,
    signalOpenTime: Option<real>,
    doorOpenTime: Option<real>,
    melodyStartTime: Option<real>,
    melodyTriggered: bool,
    previousDoorsOpen: bool)

  /** `ResetState`: nothing recorded, nothing triggered, doors taken as closed. */
  const Cleared: Dwell := Dwell(None, None, None, None, false, false)

  /** The recording step of a tick at game time `now`: arrival on the closed-to-open door
      edge, signal clearing and door opening on the first tick they are seen; each time is
      kept once set, and the door state is remembered for the next tick. */
  function Captured(d: Dwell, train: TrainState, signal: Option<SignalInfo>, now: real): Dwell {
    Dwell(
      if !d.previousDoorsOpen && train.isDoorsOpen && d.arrivalTime.None? then Some(now) else d.arrivalTime,
      if signal.Some? && signal.value.IsOpen() && d.signalOpenTime.None? then Some(now) else d.signalOpenTime,
      if train.isDoorsOpen && d.doorOpenTime.None? then Some(now) else d.doorOpenTime,
      d.melodyStartTime,
      d.melodyTriggered,
      train.isDoorsOpen)
  }

  /** The melody was started at `now`. */
  function Fired(d: Dwell, now: real): Dwell {
    d.(melodyStartTime := Some(now), melodyTriggered := true)
  }

  /** Latest game time to start the melody so that melody, announcement and margin fit
      before `departure`. */
  function StartTarget(config: AutoModeConfig, train: TrainState, departure: real, melodyDuration: real): real {
    departure - (melodyDuration + config.doorCloseAnnouncementDuration + config.GetMarginForVehicle(train))
  }

  /** Game time to stop the melody so that announcement and margin fit before `departure`. */
  function StopTarget(config: AutoModeConfig, train: TrainState, departure: real): real {
    departure - (config.doorCloseAnnouncementDuration + config.GetMarginForVehicle(train))
  }

  /** The three start conditions; `target` is the timetable-based start time, when known. */
  predicate StartDue(config: AutoModeConfig, d: Dwell, now: real, target: Option<real>) {
    || (d.arrivalTime.Some? && now - d.arrivalTime.value >= config.delayAfterArrival)
    || (d.signalOpenTime.Some? && now - d.signalOpenTime.value >= config.delayAfterSignalOpen)
    || (target.Some? && now >= target.value)
  }

  /** The two vetoes against stopping: the melody or the open doors are too young. */
  predicate StopVetoed(config: AutoModeConfig, d: Dwell, now: real) {
    || (d.melodyStartTime.Some? && now - d.melodyStartTime.value < config.minimumMelodyDuration)
    || (d.doorOpenTime.Some? && now - d.doorOpenTime.value < config.minimumDoorOpenDuration)
  }

  /** Stopping is due: not vetoed, and the departure is close enough. */
  predicate StopDue(config: AutoModeConfig, d: Dwell, now: real, train: TrainState) {
    && !StopVetoed(config, d, now)
    && train.departureTime.Some?
    && now >= StopTarget(config, train, train.departureTime.value)
  }

  /** For a melody of non-negative length the timetable never asks to stop before it asks
      to start. */
  lemma StartTargetNotAfterStopTarget(config: AutoModeConfig, train: TrainState, departure: real, melodyDuration: real)
    requires 0.0 <= melodyDuration
    ensures StartTarget(config, train, departure, melodyDuration) <= StopTarget(config, train, departure)
    ensures StopTarget(config, train, departure) - StartTarget(config, train, departure, melodyDuration) == melodyDuration
  {
  }

  /** With the default thresholds a 50000-series train stops its melody 19.5 s before
      departure and any other train 11.5 s before. */
  lemma DefaultStopLeads(train: TrainState, departure: real)
    ensures train.IsLimitedExpressType() ==> StopTarget(Default, train, departure) == departure - 19.5
    ensures !train.IsLimitedExpressType() ==> StopTarget(Default, train, departure) == departure - 11.5
  {
  }

  /** One telemetry reading of a tick that has a train. */
  datatype Reading = Reading(train: TrainState, signal: Option<SignalInfo>, now: real)

  /** The recording steps of a run of ticks, oldest first. */
  function CaptureRun(d: Dwell, rs: seq<Reading>): Dwell {
    if |rs| == 0 then d
    else
      var last := rs[|rs| - 1];
      Captured(CaptureRun(d, rs[..|rs| - 1]), last.train, last.signal, last.now)
  }

  /** Once recorded, arrival, signal and door times are never overwritten during a stop. */
  lemma {:induction false} TimesKeptOnceSet(d: Dwell, rs: seq<Reading>)
    ensures d.arrivalTime.Some? ==> CaptureRun(d, rs).arrivalTime == d.arrivalTime
    ensures d.signalOpenTime.Some? ==> CaptureRun(d, rs).signalOpenTime == d.signalOpenTime
    ensures d.doorOpenTime.Some? ==> CaptureRun(d, rs).doorOpenTime == d.doorOpenTime
  {
    if |rs| > 0 {
      TimesKeptOnceSet(d, rs[..|rs| - 1]);
    }
  }

  /** After a reset, the recorded arrival is the time of a reading whose doors are open
      while the previous reading's were closed, or of the first reading. */
  lemma {:induction false} ArrivalIsDoorEdge(rs: seq<Reading>)
    requires CaptureRun(Cleared, rs).arrivalTime.Some?
    ensures exists i | 0 <= i < |rs| ::
      && rs[i].now == CaptureRun(Cleared, rs).arrivalTime.value
      && rs[i].train.isDoorsOpen
      && (i == 0 || !rs[i - 1].train.isDoorsOpen)
  {
    var n := |rs|;
    var init := rs[..n - 1];
    var prev := CaptureRun(Cleared, init);
    if prev.arrivalTime.Some? {
      ArrivalIsDoorEdge(init);
      var i :| 0 <= i < |init| && init[i].now == prev.arrivalTime.value && init[i].train.isDoorsOpen
        && (i == 0 || !init[i - 1].train.isDoorsOpen);
      assert rs[i] == init[i];
      assert i > 0 ==> rs[i - 1] == init[i - 1];
    } else {
      assert n - 1 > 0 ==> prev.previousDoorsOpen == init[n - 2].train.isDoorsOpen;
      assert n - 1 > 0 ==> init[n - 2] == rs[n - 2];
    }
  }

  /** What one tick observes: whether a circuit is at a platform, the train reading when
      there is a train, and the timetable-based start time when it could be computed. */
  datatype Observation = Observation(atStation: bool, reading: Option<Reading>, target: Option<real>)

  /** The tick starts the melody. */
  predicate FiresAt(config: AutoModeConfig, d: Dwell, o: Observation) {
    && o.atStation
    && o.reading.Some?
    && var d1 := Captured(d, o.reading.value.train, o.reading.value.signal, o.reading.value.now);
       !d1.melodyTriggered && StartDue(config, d1, o.reading.value.now, o.target)
  }

  /** The record after one tick whose requests all complete. */
  function Step(config: AutoModeConfig, d: Dwell, o: Observation): Dwell {
    if !o.atStation then Cleared
    else if o.reading.None? then d
    else
      var r := o.reading.value;
      var d1 := Captured(d, r.train, r.signal, r.now);
      if FiresAt(config, d, o) then Fired(d1, r.now) else d1
  }

  /** The record after a run of ticks, oldest first. */
  function Run(config: AutoModeConfig, d: Dwell, os: seq<Observation>): Dwell {
    if |os| == 0 then d else Step(config, Run(config, d, os[..|os| - 1]), os[|os| - 1])
  }

  /** How many ticks of the run start the melody. */
  function StartCount(config: AutoModeConfig, d: Dwell, os: seq<Observation>): nat {
    if |os| == 0 then 0
    else
      var init := os[..|os| - 1];
      StartCount(config, d, init) + if FiresAt(config, Run(config, d, init), os[|os| - 1]) then 1 else 0
  }

  /** While the train stays at the platform the melody is started at most once, and the
      record is triggered exactly when it was triggered before or a start happened. */
  lemma {:induction false} AtMostOneStartPerDwell(config: AutoModeConfig, d: Dwell, os: seq<Observation>)
    requires forall i | 0 <= i < |os| :: os[i].atStation
    ensures StartCount(config, d, os) <= if d.melodyTriggered then 0 else 1
    ensures Run(config, d, os).melodyTriggered <==> d.melodyTriggered || StartCount(config, d, os) > 0
  {
    if |os| > 0 {
      var init := os[..|os| - 1];
      assert forall i | 0 <= i < |init| :: init[i].atStation by {
        forall i | 0 <= i < |init| ensures init[i].atStation {
          assert init[i] == os[i];
        }
      }
      AtMostOneStartPerDwell(config, d, init);
    }
  }

  /** Over the ticks themselves: while the train stays at the platform, an arrival,
      signal-open or door-open time once recorded is kept; only leaving clears it. */
  lemma {:induction false} TimesKeptAtPlatform(config: AutoModeConfig, d: Dwell, os: seq<Observation>)
    requires forall i | 0 <= i < |os| :: os[i].atStation
    ensures d.arrivalTime.Some? ==> Run(config, d, os).arrivalTime == d.arrivalTime
    ensures d.signalOpenTime.Some? ==> Run(config, d, os).signalOpenTime == d.signalOpenTime
    ensures d.doorOpenTime.Some? ==> Run(config, d, os).doorOpenTime == d.doorOpenTime
  {
    if |os| > 0 {
      var init := os[..|os| - 1];
      assert forall i | 0 <= i < |init| :: init[i].atStation by {
        forall i | 0 <= i < |init| ensures init[i].atStation {
          assert init[i] == os[i];
        }
      }
      TimesKeptAtPlatform(config, d, init);
      assert os[|os| - 1].atStation;
    }
  }

  /** Leaving the platform forgets the stop, so the next stop can start the melody again. */
  lemma LeavingRearms(config: AutoModeConfig, d: Dwell, o: Observation)
    requires !o.atStation
    ensures Step(config, d, o) == Cleared && !Step(config, d, o).melodyTriggered
  {
  }

  /** What happened to one request of a tick. */
  datatype Request = NotMade | Made | Raised(error: Exception)

  /** How a tick ended. */
  datatype TickEffect =
    | Skipped                           // disabled, not the driver, or not driving
    | StationThrew(error: Exception)    // the station check threw; the tick was abandoned
    | LeftStation                       // no circuit at a platform: the record was cleared
    | NoTrain                           // no train state in the telemetry
    | Checked(start: Request, stop: Request)

  class AutoModeService {
    const melodyControl: MelodyControlService
    const audio: AudioPlaybackService
    const tracks: TrackRepository
    var config: AutoModeConfig
    /** `_checkTimer != null`, and how many earlier timers were replaced without disposal. */
    var hasTimer: bool
    var orphanTimers: nat
    var arrivalTime: Option<real>
    var signalOpenTime: Option<real>
    var doorOpenTime: Option<real>
    var melodyStartTime: Option<real>
    var melodyTriggered: bool
    var previousDoorsOpen: bool

    function DwellState(): Dwell
      reads this
    {
      Dwell(arrivalTime, signalOpenTime, doorOpenTime, melodyStartTime, melodyTriggered, previousDoorsOpen)
    }

    /** The auto mode drives the same table and players as the controller it commands. */
    ghost predicate Valid() {
      melodyControl.Valid() && melodyControl.audio == audio && melodyControl.tracks == tracks
    }

    constructor(melodyControl: MelodyControlService, audio: AudioPlaybackService, tracks: TrackRepository)
      requires melodyControl.Valid() && melodyControl.audio == audio && melodyControl.tracks == tracks
      ensures Valid()
      ensures this.melodyControl == melodyControl && this.audio == audio && this.tracks == tracks
      ensures config == Default && !hasTimer && orphanTimers == 0
      ensures DwellState() == Cleared
    {
      this.melodyControl := melodyControl;
      this.audio := audio;
      this.tracks := tracks;
      config := Default;
      hasTimer, orphanTimers := false, 0;
      arrivalTime, signalOpenTime, doorOpenTime, melodyStartTime := None, None, None, None;
      melodyTriggered, previousDoorsOpen := false, false;
    }

    /** `IsEnabled`. */
    method IsEnabled() returns (b: bool)
      ensures b == config.isEnabled
    {
      b := config.isEnabled;
    }

    /** `StartAsync`: enable and start a new timer; a timer already there is replaced
        without being disposed and keeps ticking. */
    method Start()
      modifies this
      ensures config == old(config).WithEnabled(true) && config.isEnabled
      ensures hasTimer && orphanTimers == old(orphanTimers) + (if old(hasTimer) then 1 else 0)
      ensures DwellState() == old(DwellState())
    {
      config := config.WithEnabled(true);
      if hasTimer {
        orphanTimers := orphanTimers + 1;
      }
      hasTimer := true;
    }

    /** `StopAsync`: disable and dispose of the current timer; the record is kept. */
    method Stop()
      modifies this
      ensures config == old(config).WithEnabled(false) && !config.isEnabled
      ensures !hasTimer && orphanTimers == old(orphanTimers)
      ensures DwellState() == old(DwellState())
    {
      config := config.WithEnabled(false);
      hasTimer := false;
    }

    /** `GetConfig`. */
    method GetConfig() returns (c: AutoModeConfig)
      ensures c == config
    {
      c := config;
    }

    /** `UpdateConfig`: the whole record is replaced, the enabled flag included. */
    method UpdateConfig(c: AutoModeConfig)
      modifies this
      ensures config == c
      ensures hasTimer == old(hasTimer) && orphanTimers == old(orphanTimers)
      ensures DwellState() == old(DwellState())
    {
      config := c;
    }

    /** `ResetState`. */
    method ResetState()
      modifies this
      ensures DwellState() == Cleared
      ensures config == old(config) && hasTimer == old(hasTimer) && orphanTimers == old(orphanTimers)
    {
      arrivalTime, signalOpenTime, melodyStartTime, doorOpenTime := None, None, None, None;
      melodyTriggered, previousDoorsOpen := false, false;
    }

    /** The timetable-based start time of condition 3 (`None` when there is no departure
        time, no circuit or no track), or the exception computing it throws. */
    function Schedule(config: AutoModeConfig, trackCache: seq<TrackInfo>, profileCache: map<string, AudioProfile>,
                      fs: FileSystem, run: ProcessRun, g: GameState, train: TrainState): Result<Option<real>>
    {
      if train.departureTime.None? || |g.currentCircuitIds| == 0 then Ok(None)
      else if |trackCache| == 0 && !fs.Exists(tracks.csvPath) then Err(FileNotFound(tracks.csvPath))
      else
        match FirstWithCircuit(AfterEnsureLoaded(trackCache, fs, tracks.csvPath), g.currentCircuitIds[0])
        case None => Ok(None)
        case Some(track) => TargetOf(config, profileCache, fs, run, train, track)
    }

    /** The start time for a train with a departure time on platform track `track`, or the
        exception reading the melody's duration throws. */
    function TargetOf(config: AutoModeConfig, profileCache: map<string, AudioProfile>, fs: FileSystem, run: ProcessRun,
                      train: TrainState, track: TrackInfo): Result<Option<real>>
      requires train.departureTime.Some?
    {
      match audio.DurationResult(profileCache, fs, track, run)
      case Err(e) => Err(e)
      case Ok(duration) => Ok(Some(StartTarget(config, train, train.departureTime.value, duration)))
    }

    /** `CheckMelodyOnConditionsAsync` on record `d` and melody state `ms`. */
    function OnEffect(config: AutoModeConfig, d: Dwell, ms: MelodyState, trackCache: seq<TrackInfo>,
                      profileCache: map<string, AudioProfile>, fs: FileSystem, run: ProcessRun,
                      g: GameState, train: TrainState, cached: GameState, current: GameState): (Request, Dwell, MelodyState)
    {
      if d.melodyTriggered then (NotMade, d, ms)
      else
        match Schedule(config, trackCache, profileCache, fs, run, g, train)
        case Err(e) => (Raised(e), d, ms)
        case Ok(target) =>
          if !StartDue(config, d, g.currentGameTime, target) then (NotMade, d, ms)
          else
            var (o, ms') := melodyControl.StartEffect(ms, trackCache, profileCache, fs, cached, current);
            if o.Fail? then (Raised(o.error), d, ms') else (Made, Fired(d, g.currentGameTime), ms')
    }

    /** `CheckMelodyOffConditionsAsync` on record `d` and melody state `ms`. */
    function OffEffect(config: AutoModeConfig, d: Dwell, ms: MelodyState, profileCache: map<string, AudioProfile>,
                       fs: FileSystem, g: GameState, train: TrainState, samples: seq<GameState>): (Request, MelodyState)
    {
      if !(d.melodyTriggered && ms.isPlaying && StopDue(config, d, g.currentGameTime, train)) then (NotMade, ms)
      else
        var (r, ms') := melodyControl.StopEffect(ms, profileCache, fs, samples);
        (if r.Failed? then Raised(r.error) else Made, ms')
    }

    /** The on check and then, unless it threw, the off check, on the captured record `d`. */
    function ChecksEffect(config: AutoModeConfig, d: Dwell, ms: MelodyState, trackCache: seq<TrackInfo>,
                          profileCache: map<string, AudioProfile>, fs: FileSystem, run: ProcessRun, g: GameState,
                          train: TrainState, cached: GameState, current: GameState, samples: seq<GameState>)
      : (TickEffect, Dwell, MelodyState)
    {
      var (on, d2, ms2) := OnEffect(config, d, ms, trackCache, profileCache, fs, run, g, train, cached, current);
      if on.Raised? then (Checked(on, NotMade), d2, ms2)
      else
        var (off, ms3) := OffEffect(config, d2, ms2, profileCache, fs, g, train, samples);
        (Checked(on, off), d2, ms3)
    }

    /** `CheckAndExecuteAsync`: the tick's outcome, the record and the melody state after it. */
    function TickResult(config: AutoModeConfig, d: Dwell, ms: MelodyState, trackCache: seq<TrackInfo>,
                        profileCache: map<string, AudioProfile>, fs: FileSystem, run: ProcessRun, g: GameState,
                        cached: GameState, current: GameState, samples: seq<GameState>): (TickEffect, Dwell, MelodyState)
    {
      if !config.isEnabled || g.crewType != Driver || g.screen != Playing then (Skipped, d, ms)
      else
        match StationCheck(trackCache, fs, tracks.csvPath, g.currentCircuitIds)
        case Err(e) => (StationThrew(e), d, ms)
        case Ok(atStation) =>
          if !atStation then (LeftStation, Cleared, ms)
          else if g.trainState.None? then (NoTrain, d, ms)
          else
            var train := g.trainState.value;
            ChecksEffect(config, Captured(d, train, g.signalInfo, g.currentGameTime), ms, trackCache, profileCache,
                         fs, run, g, train, cached, current, samples)
    }

    /** What the tick observes, in the terms of `Step`. */
    function ObservationOf(config: AutoModeConfig, trackCache: seq<TrackInfo>, profileCache: map<string, AudioProfile>,
                           fs: FileSystem, run: ProcessRun, g: GameState): Observation
    {
      var atStation := StationCheck(trackCache, fs, tracks.csvPath, g.currentCircuitIds) == Ok(true);
      if g.trainState.None? then Observation(atStation, None, None)
      else
        var schedule := Schedule(config, trackCache, profileCache, fs, run, g, g.trainState.value);
        Observation(atStation, Some(Reading(g.trainState.value, g.signalInfo, g.currentGameTime)),
                    if schedule.Ok? then schedule.value else None)
    }

    /** A tick whose requests complete moves the record exactly as `Step` does, and requests
        a start exactly when `Step` fires; so the run lemmas above hold of the service. */
    lemma TickFollowsStep(config: AutoModeConfig, d: Dwell, ms: MelodyState, trackCache: seq<TrackInfo>,
                          profileCache: map<string, AudioProfile>, fs: FileSystem, run: ProcessRun, g: GameState,
                          cached: GameState, current: GameState, samples: seq<GameState>)
      requires var (e, _, _) := TickResult(config, d, ms, trackCache, profileCache, fs, run, g, cached, current, samples);
        e.LeftStation? || e.NoTrain? || (e.Checked? && !e.start.Raised?)
      ensures var (e, d', _) := TickResult(config, d, ms, trackCache, profileCache, fs, run, g, cached, current, samples);
        var o := ObservationOf(config, trackCache, profileCache, fs, run, g);
        && d' == Step(config, d, o)
        && (e.Checked? ==> (e.start == Made <==> FiresAt(config, d, o)))
    {
    }

    /** A tick that starts the melody never stops it too, while the minimum melody
        duration is positive. */
    lemma StartedTickDoesNotStop(config: AutoModeConfig, d: Dwell, ms: MelodyState, trackCache: seq<TrackInfo>,
                                 profileCache: map<string, AudioProfile>, fs: FileSystem, run: ProcessRun, g: GameState,
                                 cached: GameState, current: GameState, samples: seq<GameState>)
      requires config.minimumMelodyDuration > 0.0
      ensures var (e, _, _) := TickResult(config, d, ms, trackCache, profileCache, fs, run, g, cached, current, samples);
        e.Checked? && e.start == Made ==> e.stop == NotMade
    {
      if config.isEnabled && g.crewType == Driver && g.screen == Playing
         && StationCheck(trackCache, fs, tracks.csvPath, g.currentCircuitIds) == Ok(true) && g.trainState.Some? {
        var train := g.trainState.value;
        var d1 := Captured(d, train, g.signalInfo, g.currentGameTime);
        OnEffectMade(config, d1, ms, trackCache, profileCache, fs, run, g, train, cached, current);
        var (on, d2, ms2) := OnEffect(config, d1, ms, trackCache, profileCache, fs, run, g, train, cached, current);
        if on == Made {
          assert StopVetoed(config, d2, g.currentGameTime);
        }
      }
    }

    /** A start that was made records its game time and arms the trigger; a check that
        makes no start leaves the record as it was. */
    lemma OnEffectMade(config: AutoModeConfig, d: Dwell, ms: MelodyState, trackCache: seq<TrackInfo>,
                       profileCache: map<string, AudioProfile>, fs: FileSystem, run: ProcessRun,
                       g: GameState, train: TrainState, cached: GameState, current: GameState)
      ensures var (on, d2, _) := OnEffect(config, d, ms, trackCache, profileCache, fs, run, g, train, cached, current);
        && (on == Made ==> d2 == Fired(d, g.currentGameTime))
        && (on != Made ==> d2 == d)
    {
    }

    /** Without a departure time the melody is never stopped by the auto mode. */
    lemma NoDepartureNoStop(config: AutoModeConfig, d: Dwell, ms: MelodyState, trackCache: seq<TrackInfo>,
                            profileCache: map<string, AudioProfile>, fs: FileSystem, run: ProcessRun, g: GameState,
                            cached: GameState, current: GameState, samples: seq<GameState>)
      requires g.trainState.Some? && g.trainState.value.departureTime.None?
      ensures var (e, _, _) := TickResult(config, d, ms, trackCache, profileCache, fs, run, g, cached, current, samples);
        e.Checked? ==> e.stop == NotMade
    {
    }

    /** The timetable-based start time does not depend on whether the lazy loads already
        happened. */
    lemma ScheduleAfterLoad(config: AutoModeConfig, trackCache: seq<TrackInfo>, profileCache: map<string, AudioProfile>,
                            fs: FileSystem, run: ProcessRun, g: GameState, train: TrainState)
      ensures Schedule(config, AfterEnsureLoaded(trackCache, fs, tracks.csvPath), profileCache, fs, run, g, train)
           == Schedule(config, trackCache, profileCache, fs, run, g, train)
      ensures Schedule(config, trackCache, AudioProfileRepositories.AfterEnsureLoaded(profileCache, fs, audio.profiles.csvPath), fs, run, g, train)
           == Schedule(config, trackCache, profileCache, fs, run, g, train)
    {
      EnsureLoadedIdempotent(trackCache, fs, tracks.csvPath);
      var tc := AfterEnsureLoaded(trackCache, fs, tracks.csvPath);
      if |g.currentCircuitIds| > 0 {
        var track := FirstWithCircuit(tc, g.currentCircuitIds[0]);
        if track.Some? {
          audio.ResultsAfterLoad(profileCache, fs, track.value, run, false);
        }
      }
    }

    /** The on check does not depend on whether the track table was already loaded. */
    lemma OnEffectAfterLoad(config: AutoModeConfig, d: Dwell, ms: MelodyState, trackCache: seq<TrackInfo>,
                            profileCache: map<string, AudioProfile>, fs: FileSystem, run: ProcessRun,
                            g: GameState, train: TrainState, cached: GameState, current: GameState)
      requires Valid()
      ensures var tc := AfterEnsureLoaded(trackCache, fs, tracks.csvPath);
        OnEffect(config, d, ms, tc, profileCache, fs, run, g, train, cached, current)
          == OnEffect(config, d, ms, trackCache, profileCache, fs, run, g, train, cached, current)
    {
      var tc := AfterEnsureLoaded(trackCache, fs, tracks.csvPath);
      ScheduleAfterLoad(config, trackCache, profileCache, fs, run, g, train);
      melodyControl.StartEffectAfterLoad(ms, trackCache, profileCache, fs, cached, current);
      OnCongruent(config, d, ms, tc, profileCache, trackCache, profileCache, fs, run, g, train, cached, current);
    }

    /** The off check does not depend on whether the profile table was already loaded. */
    lemma OffEffectAfterLoad(config: AutoModeConfig, d: Dwell, ms: MelodyState, profileCache: map<string, AudioProfile>,
                             fs: FileSystem, g: GameState, train: TrainState, samples: seq<GameState>)
      requires Valid()
      ensures var pc := AudioProfileRepositories.AfterEnsureLoaded(profileCache, fs, audio.profiles.csvPath);
        OffEffect(config, d, ms, pc, fs, g, train, samples) == OffEffect(config, d, ms, profileCache, fs, g, train, samples)
    {
      var pc := AudioProfileRepositories.AfterEnsureLoaded(profileCache, fs, audio.profiles.csvPath);
      melodyControl.StopEffectAfterLoad(ms, profileCache, fs, samples);
      OffCongruent(config, d, ms, pc, profileCache, fs, g, train, samples);
    }

    /** The off check sees the profile table only through the stop it requests. */
    lemma OffCongruent(config: AutoModeConfig, d: Dwell, ms: MelodyState, pc1: map<string, AudioProfile>,
                       pc2: map<string, AudioProfile>, fs: FileSystem, g: GameState, train: TrainState, samples: seq<GameState>)
      requires melodyControl.StopEffect(ms, pc1, fs, samples) == melodyControl.StopEffect(ms, pc2, fs, samples)
      ensures OffEffect(config, d, ms, pc1, fs, g, train, samples) == OffEffect(config, d, ms, pc2, fs, g, train, samples)
    {
    }

    /** The on check sees the caches only through the schedule and the start it requests. */
    lemma OnCongruent(config: AutoModeConfig, d: Dwell, ms: MelodyState, tc1: seq<TrackInfo>, pc1: map<string, AudioProfile>,
                      tc2: seq<TrackInfo>, pc2: map<string, AudioProfile>, fs: FileSystem, run: ProcessRun,
                      g: GameState, train: TrainState, cached: GameState, current: GameState)
      requires Schedule(config, tc1, pc1, fs, run, g, train) == Schedule(config, tc2, pc2, fs, run, g, train)
      requires melodyControl.StartEffect(ms, tc1, pc1, fs, cached, current) == melodyControl.StartEffect(ms, tc2, pc2, fs, cached, current)
      ensures OnEffect(config, d, ms, tc1, pc1, fs, run, g, train, cached, current)
           == OnEffect(config, d, ms, tc2, pc2, fs, run, g, train, cached, current)
    {
    }

    /** The timetable-based start time of `CheckMelodyOnConditionsAsync`: the departure
        time less the melody's duration, the announcement and the vehicle's margin. */
    method TimetableStart(g: GameState, train: TrainState, fs: FileSystem, run: ProcessRun) returns (r: Result<Option<real>>)
      modifies tracks, audio.profiles
      ensures r == Schedule(config, old(tracks.tracks), old(audio.profiles.profiles), fs, run, g, train)
      ensures tracks.tracks == old(tracks.tracks) || tracks.tracks == AfterEnsureLoaded(old(tracks.tracks), fs, tracks.csvPath)
      ensures audio.profiles.profiles == old(audio.profiles.profiles)
        || audio.profiles.profiles == AudioProfileRepositories.AfterEnsureLoaded(old(audio.profiles.profiles), fs, audio.profiles.csvPath)
    {
      if train.departureTime.None? || |g.currentCircuitIds| == 0 {
        return Ok(None);
      }
      var track := tracks.FindTrackByCircuitId(g.currentCircuitIds[0], fs);
      if track.Err? {
        return Err(track.error);
      }
      if track.value.None? {
        return Ok(None);
      }
      r := TargetFor(train, track.value.value, fs, run);
    }

    /** The start time once the platform track is known: the departure time less the
        melody's duration, the announcement and the vehicle's margin. */
    method TargetFor(train: TrainState, track: TrackInfo, fs: FileSystem, run: ProcessRun) returns (r: Result<Option<real>>)
      requires train.departureTime.Some?
      modifies audio.profiles
      ensures r == TargetOf(config, old(audio.profiles.profiles), fs, run, train, track)
      ensures audio.profiles.profiles == AudioProfileRepositories.AfterEnsureLoaded(old(audio.profiles.profiles), fs, audio.profiles.csvPath)
    {
      var duration := audio.GetMelodyDuration(track, fs, run);
      if duration.Err? {
        return Err(duration.error);
      }
      var margin := config.GetMarginForVehicle(train);
      var totalOffset := duration.value + config.doorCloseAnnouncementDuration + margin;
      r := Ok(Some(train.departureTime.value - totalOffset));
    }

    /** `CheckMelodyOnConditionsAsync`. */
    method CheckMelodyOn(g: GameState, train: TrainState, fs: FileSystem, run: ProcessRun,
                         cached: GameState, current: GameState) returns (r: Request)
      requires Valid()
      modifies this, tracks, audio.profiles, audio.melodyPlayer, melodyControl
      ensures config == old(config) && hasTimer == old(hasTimer) && orphanTimers == old(orphanTimers)
      ensures (r, DwellState(), melodyControl.state)
        == OnEffect(config, old(DwellState()), old(melodyControl.state), old(tracks.tracks),
                    old(audio.profiles.profiles), fs, run, g, train, cached, current)
      ensures tracks.tracks == old(tracks.tracks) || tracks.tracks == AfterEnsureLoaded(old(tracks.tracks), fs, tracks.csvPath)
      ensures audio.profiles.profiles == old(audio.profiles.profiles)
        || audio.profiles.profiles == AudioProfileRepositories.AfterEnsureLoaded(old(audio.profiles.profiles), fs, audio.profiles.csvPath)
    {
      if melodyTriggered {
        return NotMade;
      }
      ghost var d, ms, tc, pc := DwellState(), melodyControl.state, tracks.tracks, audio.profiles.profiles;
      var now := g.currentGameTime;
      var shouldStart := false;
      if arrivalTime.Some? && now - arrivalTime.value >= config.delayAfterArrival {
        shouldStart := true;
      }
      if signalOpenTime.Some? && now - signalOpenTime.value >= config.delayAfterSignalOpen {
        shouldStart := true;
      }
      var target := TimetableStart(g, train, fs, run);
      assert DwellState() == d && melodyControl.state == ms;
      if target.Err? {
        return Raised(target.error);
      }
      if target.value.Some? && now >= target.value.value {
        shouldStart := true;
      }
      assert shouldStart == StartDue(config, d, now, target.value);
      if !shouldStart {
        return NotMade;
      }
      ghost var tc1, pc1 := tracks.tracks, audio.profiles.profiles;
      melodyControl.StartEffectAfterLoad(ms, tc, pc, fs, cached, current);
      assert melodyControl.StartEffect(ms, tc1, pc1, fs, cached, current)
          == melodyControl.StartEffect(ms, tc, pc, fs, cached, current);
      r := Fire(now, fs, cached, current);
      OnFired(config, d, ms, tc, pc, fs, run, g, train, cached, current, target.value);
      if tracks.tracks != tc1 {
        TrackRepositories.EnsureLoadedIdempotent(tc, fs, tracks.csvPath);
      }
      if audio.profiles.profiles != pc1 {
        AudioProfileRepositories.EnsureLoadedIdempotent(pc, fs, audio.profiles.csvPath);
      }
    }

    /** The on check once a start is due: the result is the start's, with the record marked
        started at `now` when the start completes. */
    lemma OnFired(config: AutoModeConfig, d: Dwell, ms: MelodyState, trackCache: seq<TrackInfo>,
                  profileCache: map<string, AudioProfile>, fs: FileSystem, run: ProcessRun,
                  g: GameState, train: TrainState, cached: GameState, current: GameState, target: Option<real>)
      requires !d.melodyTriggered
      requires Schedule(config, trackCache, profileCache, fs, run, g, train) == Ok(target)
      requires StartDue(config, d, g.currentGameTime, target)
      ensures var (o, ms') := melodyControl.StartEffect(ms, trackCache, profileCache, fs, cached, current);
        OnEffect(config, d, ms, trackCache, profileCache, fs, run, g, train, cached, current)
          == (if o.Fail? then (Raised(o.error), d, ms') else (Made, Fired(d, g.currentGameTime), ms'))
    {
    }

    /** The start request of `CheckMelodyOnConditionsAsync` and, when it completes, the
        record of it. */
    method Fire(now: real, fs: FileSystem, cached: GameState, current: GameState) returns (r: Request)
      requires Valid()
      modifies this, tracks, audio.profiles, audio.melodyPlayer, melodyControl
      ensures config == old(config) && hasTimer == old(hasTimer) && orphanTimers == old(orphanTimers)
      ensures var (o, ms') := melodyControl.StartEffect(old(melodyControl.state), old(tracks.tracks),
                                                         old(audio.profiles.profiles), fs, cached, current);
        && melodyControl.state == ms'
        && (if o.Fail? then r == Raised(o.error) && DwellState() == old(DwellState())
            else r == Made && DwellState() == Fired(old(DwellState()), now))
      ensures tracks.tracks == old(tracks.tracks) || tracks.tracks == AfterEnsureLoaded(old(tracks.tracks), fs, tracks.csvPath)
      ensures audio.profiles.profiles == old(audio.profiles.profiles)
        || audio.profiles.profiles == AudioProfileRepositories.AfterEnsureLoaded(old(audio.profiles.profiles), fs, audio.profiles.csvPath)
    {
      var o := melodyControl.StartMelody(cached, current, fs);
      if o.Fail? {
        return Raised(o.error);
      }
      melodyStartTime := Some(now);
      melodyTriggered := true;
      r := Made;
    }

    /** `CheckMelodyOffConditionsAsync`. */
    method CheckMelodyOff(g: GameState, train: TrainState, fs: FileSystem, samples: seq<GameState>) returns (r: Request)
      requires Valid()
      modifies melodyControl, audio.profiles, audio.melodyPlayer, audio.announcementPlayer
      ensures (r, melodyControl.state)
        == OffEffect(config, DwellState(), old(melodyControl.state), old(audio.profiles.profiles), fs, g, train, samples)
      ensures audio.profiles.profiles == old(audio.profiles.profiles)
        || audio.profiles.profiles == AudioProfileRepositories.AfterEnsureLoaded(old(audio.profiles.profiles), fs, audio.profiles.csvPath)
    {
      if !melodyTriggered {
        return NotMade;
      }
      var melodyState := melodyControl.GetCurrentState();
      if !melodyState.isPlaying {
        return NotMade;
      }
      var now := g.currentGameTime;
      if melodyStartTime.Some? && now - melodyStartTime.value < config.minimumMelodyDuration {
        return NotMade;
      }
      if doorOpenTime.Some? && now - doorOpenTime.value < config.minimumDoorOpenDuration {
        return NotMade;
      }
      var shouldStop := false;
      if train.departureTime.Some? {
        var margin := config.GetMarginForVehicle(train);
        var totalOffset := config.doorCloseAnnouncementDuration + margin;
        var targetTime := train.departureTime.value - totalOffset;
        if now >= targetTime {
          shouldStop := true;
        }
      }
      if !shouldStop {
        return NotMade;
      }
      var outcome := melodyControl.StopMelody(samples, fs);
      r := if outcome.Failed? then Raised(outcome.error) else Made;
    }

    /** `CheckAndExecuteAsync`: one tick on telemetry `g`. `cached`/`current` are the cache
        reads of a start and `samples` those of a stop's wait; `run` is the duration probe.
        Exceptions end the tick and are swallowed. */
    method CheckAndExecute(g: GameState, fs: FileSystem, run: ProcessRun,
                           cached: GameState, current: GameState, samples: seq<GameState>) returns (e: TickEffect)
      requires Valid()
      modifies this, tracks, audio.profiles, audio.melodyPlayer, audio.announcementPlayer, melodyControl
      ensures config == old(config) && hasTimer == old(hasTimer) && orphanTimers == old(orphanTimers)
      ensures (e, DwellState(), melodyControl.state)
        == TickResult(config, old(DwellState()), old(melodyControl.state), old(tracks.tracks),
                      old(audio.profiles.profiles), fs, run, g, cached, current, samples)
      ensures e.Skipped? ==> unchanged(tracks, audio.profiles, audio.melodyPlayer, audio.announcementPlayer)
      ensures e.StationThrew? || e.LeftStation? || e.NoTrain? ==>
        unchanged(audio.profiles, audio.melodyPlayer, audio.announcementPlayer)
    {
      var enabled := IsEnabled();
      if !enabled || g.crewType != Driver || g.screen != Playing {
        return Skipped;
      }
      ghost var d, tc := DwellState(), tracks.tracks;
      var atStation := tracks.IsAnyCircuitAtStation(g.currentCircuitIds, fs);
      if atStation.Err? {
        return StationThrew(atStation.error);
      }
      if !atStation.value {
        ResetState();
        return LeftStation;
      }
      if g.trainState.None? {
        return NoTrain;
      }
      var train := g.trainState.value;
      CaptureTimes(train, g.signalInfo, g.currentGameTime);
      ChecksEffectAfterLoad(config, DwellState(), melodyControl.state, tc, audio.profiles.profiles, fs, run, g, train,
                            cached, current, samples);
      e := RunChecks(g, train, fs, run, cached, current, samples);
    }

    /** The time capture at the start of a tick at a station. */
    method CaptureTimes(train: TrainState, signal: Option<SignalInfo>, now: real)
      modifies this
      ensures DwellState() == Captured(old(DwellState()), train, signal, now)
      ensures config == old(config) && hasTimer == old(hasTimer) && orphanTimers == old(orphanTimers)
    {
      if !previousDoorsOpen && train.isDoorsOpen && arrivalTime.None? {
        arrivalTime := Some(now);
      }
      if signal.Some? && signal.value.IsOpen() && signalOpenTime.None? {
        signalOpenTime := Some(now);
      }
      if train.isDoorsOpen && doorOpenTime.None? {
        doorOpenTime := Some(now);
      }
      previousDoorsOpen := train.isDoorsOpen;
    }

    /** The on check and then, unless it threw, the off check. */
    method RunChecks(g: GameState, train: TrainState, fs: FileSystem, run: ProcessRun,
                     cached: GameState, current: GameState, samples: seq<GameState>) returns (e: TickEffect)
      requires Valid()
      modifies this, tracks, audio.profiles, audio.melodyPlayer, audio.announcementPlayer, melodyControl
      ensures config == old(config) && hasTimer == old(hasTimer) && orphanTimers == old(orphanTimers)
      ensures (e, DwellState(), melodyControl.state)
        == ChecksEffect(config, old(DwellState()), old(melodyControl.state), old(tracks.tracks),
                        old(audio.profiles.profiles), fs, run, g, train, cached, current, samples)
    {
      ghost var d, ms, tc, pc := DwellState(), melodyControl.state, tracks.tracks, audio.profiles.profiles;
      var on := CheckMelodyOn(g, train, fs, run, cached, current);
      if on.Raised? {
        return Checked(on, NotMade);
      }
      ghost var d2, ms2 := DwellState(), melodyControl.state;
      OffEffectAfterLoad(config, d2, ms2, pc, fs, g, train, samples);
      var off := CheckMelodyOff(g, train, fs, samples);
      e := Checked(on, off);
    }

    /** The checks do not depend on whether the track table was already loaded. */
    lemma ChecksEffectAfterLoad(config: AutoModeConfig, d: Dwell, ms: MelodyState, trackCache: seq<TrackInfo>,
                                profileCache: map<string, AudioProfile>, fs: FileSystem, run: ProcessRun, g: GameState,
                                train: TrainState, cached: GameState, current: GameState, samples: seq<GameState>)
      requires Valid()
      ensures var tc := AfterEnsureLoaded(trackCache, fs, tracks.csvPath);
        ChecksEffect(config, d, ms, tc, profileCache, fs, run, g, train, cached, current, samples)
          == ChecksEffect(config, d, ms, trackCache, profileCache, fs, run, g, train, cached, current, samples)
    {
      OnEffectAfterLoad(config, d, ms, trackCache, profileCache, fs, run, g, train, cached, current);
    }
  }
}
