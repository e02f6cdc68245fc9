/**
 * The middle generation's auto mode (`Service/AutoModeService.cs`): once per tick it stamps
 * the door-open and signal-open instants, probes the melody and door-closing clip lengths
 * on arrival at a platform, and answers ON inside a time window before departure and OFF
 * everywhere else.
 */
module LegacyAutoModeServices {
  import opened Wrappers
  import opened Text
  import opened LegacyTelemetry
  import opened LegacyTrackRepositories
  import opened MelodyPaths
  import opened FFmpegRepositories

  /** The doors stay open at least this long, door-closing clip included. */
  const MinimumDoorOpenTime: real := 12.0
  const StandardMargin: real := 8.5
  const Series50000Margin: real := 16.5
  /** Shunting signals, whose names start with this, never count. */
  const ShuntPrefix := "入換"

  /** The margin for the train: the longer one when the first car is a 50000-series car. */
  function MarginFor(train: TrainState): (m: real)
    ensures m == Series50000Margin <==> |train.carModels| > 0 && train.carModels[0] == "50000"
    ensures m == StandardMargin <==> !(|train.carModels| > 0 && train.carModels[0] == "50000")
  {
    if |train.carModels| > 0 && train.carModels[0] == "50000" then Series50000Margin else StandardMargin
  }

  /** `IsSignalOpened`: some signal other than a shunting signal shows a phase other than "R". */
  predicate IsSignalOpened(signals: seq<SignalInfo>) {
    exists i | 0 <= i < |signals| :: !StartsWith(signals[i].name, ShuntPrefix) && signals[i].phase != "R"
  }

  /** `new[] { a, b, c }.Max()`. */
  function Max3(a: real, b: real, c: real): (r: real)
    ensures r >= a && r >= b && r >= c
    ensures r == a || r == b || r == c
  {
    if a >= b && a >= c then a else if b >= c then b else c
  }

  /** The earliest ON instant: two seconds after arrival, one second after the signal
      opened, and early enough for melody, door-closing clip and margin before departure. */
  function PushOnTime(arriving: real, signalOpened: real, departure: real,
                      melody: real, closing: real, margin: real): real
  {
    Max3(arriving + 2.0, signalOpened + 1.0, departure - melody - closing - margin)
  }

  /** The OFF instant: at least a second after ON, the minimum door-open time after
      arrival, and door-closing clip plus margin before departure. */
  function PushOffTime(pushOn: real, arriving: real, departure: real, closing: real, margin: real): real {
    Max3(pushOn + 1.0, arriving + MinimumDoorOpenTime - closing, departure - closing - margin)
  }

  /** The ON window always lasts at least a second, so it is never empty. */
  lemma WindowNonEmpty(arriving: real, signalOpened: real, departure: real,
                       melody: real, closing: real, margin: real)
    ensures var on := PushOnTime(arriving, signalOpened, departure, melody, closing, margin);
      && PushOffTime(on, arriving, departure, closing, margin) >= on + 1.0
      && on >= arriving + 2.0 && on >= signalOpened + 1.0
  {
  }

  /** The service's fields. */
  datatype Memory = Memory(
    margin: real,
    isPlaying: bool,
    arriving: real,
    signalOpened: real,
    melodyDuration: real,
    doorClosingDuration: real,
    previousTrackNumber: int,
    previousAllClose: bool,
    previousSignalOpened: bool)

  /** `Reset`: every field but the margin back to its start value. */
  function ResetMemory(m: Memory): Memory {
    Memory(m.margin, false, 0.0, 0.0, 0.0, 0.0, 0, true, false)
  }

  /** The two edge stamps at the head of `_elapse`: arrival when the doors go from all
      closed to open, signal-open when a signal opens while the doors are open. */
  function Stamped(m: Memory, train: TrainState, signals: seq<SignalInfo>): Memory {
    var m1 := if m.previousAllClose && !train.allClose then m.(arriving := train.nowTime) else m;
    if !train.allClose && !m1.previousSignalOpened && IsSignalOpened(signals) then m1.(signalOpened := train.nowTime)
    else m1
  }

  /** `SetMelodyDuration`: the melody's length, then the door-closing clip's, each probed
      with ffmpeg on the path the path service gives; a probe that throws stops it there. */
  function ProbeEffect(m: Memory, platform: Platform, trainClass: string, host: Host): (Outcome, Memory) {
    var melodyPath := GetAudioPath(platform.stationName, platform.trackNumber, true, trainClass, host.cwd, host.fs);
    match GetDuration(host.runs(melodyPath))
    case Err(e) => (Fail(e), m)
    case Ok(melody) =>
      var closingPath := GetAudioPath(platform.stationName, platform.trackNumber, false, trainClass, host.cwd, host.fs);
      match GetDuration(host.runs(closingPath))
      case Err(e) => (Fail(e), m.(melodyDuration := melody))
      case Ok(closing) => (Pass, m.(melodyDuration := melody, doorClosingDuration := closing))
  }

  /** The current instant lies in the ON window built from the fields and the current
      station's departure time. */
  predicate InWindow(m: Memory, train: TrainState) {
    && train.CurrentStation().Ok?
    && var departure := train.CurrentStation().value.depTime;
       var on := PushOnTime(m.arriving, m.signalOpened, departure, m.melodyDuration, m.doorClosingDuration, m.margin);
       on <= train.nowTime < PushOffTime(on, m.arriving, departure, m.doorClosingDuration, m.margin)
  }

  /** The tail of `_elapse`, on a platform once the lengths are known. */
  function Decide(m: Memory, train: TrainState, signals: seq<SignalInfo>): Result<ButtonState> {
    if train.allClose || !IsSignalOpened(signals) then Ok(Off)
    else if train.CurrentStation().Err? then Err(train.CurrentStation().error)
    else if InWindow(m, train) then Ok(On)
    else Ok(Off)
  }

  /** `_elapse` on the fields `m`, with `platform` the lookup of the current circuits. */
  function ElapseEffect(m: Memory, train: TrainState, signals: seq<SignalInfo>,
                        platform: Option<Platform>, host: Host): (Result<ButtonState>, Memory)
  {
    var m1 := Stamped(m, train, signals);
    if platform.None? then (Ok(Off), m1)
    else
      var (p, m2) := if m1.previousTrackNumber <= 0 then ProbeEffect(m1, platform.value, train.trainClass, host)
                     else (Pass, m1);
      if p.Fail? then (Err(p.error), m2) else (Decide(m2, train, signals), m2)
  }

  /** `GetButtonState`: choose the margin, run `_elapse`, then mirror the answer into
      `_isPlaying` and remember this tick's track number, doors and signal. */
  function ButtonEffect(m: Memory, train: TrainState, signals: seq<SignalInfo>,
                        platform: Option<Platform>, host: Host): (Result<ButtonState>, Memory)
  {
    var (r, m1) := ElapseEffect(m.(margin := MarginFor(train)), train, signals, platform, host);
    if r.Err? then (r, m1)
    else
      var playing := match r.value case On => true case Off => false case NotChanged => m1.isPlaying;
      (r, m1.(isPlaying := playing,
              previousTrackNumber := if platform.Some? then platform.value.trackNumber else -1,
              previousAllClose := train.allClose,
              previousSignalOpened := IsSignalOpened(signals)))
  }

  /** The arrival instant changes only on the tick the doors open after being all closed,
      on a platform or not; the signal instant only on the tick a signal opens while the
      doors are open. */
  lemma StampsOnlyOnEdges(m: Memory, train: TrainState, signals: seq<SignalInfo>,
                          platform: Option<Platform>, host: Host)
    ensures var m' := ButtonEffect(m, train, signals, platform, host).1;
      && m'.arriving == (if m.previousAllClose && !train.allClose then train.nowTime else m.arriving)
      && m'.signalOpened == (if !train.allClose && !m.previousSignalOpened && IsSignalOpened(signals)
                             then train.nowTime else m.signalOpened)
  {
    ElapseFrame(m.(margin := MarginFor(train)), train, signals, platform, host);
  }

  /** `_elapse` changes the two stamps and, by probing, the two lengths, and nothing else. */
  lemma ElapseFrame(m: Memory, train: TrainState, signals: seq<SignalInfo>,
                    platform: Option<Platform>, host: Host)
    ensures var me := ElapseEffect(m, train, signals, platform, host).1;
      me == Stamped(m, train, signals).(melodyDuration := me.melodyDuration, doorClosingDuration := me.doorClosingDuration)
  {
    var m1 := Stamped(m, train, signals);
    if platform.Some? && m1.previousTrackNumber <= 0 {
      ProbeKeepsStamps(m1, platform.value, train.trainClass, host);
    }
  }

  /** Probing the lengths touches nothing but the two lengths. */
  lemma ProbeKeepsStamps(m: Memory, platform: Platform, trainClass: string, host: Host)
    ensures var m' := ProbeEffect(m, platform, trainClass, host).1;
      m' == m.(melodyDuration := m'.melodyDuration, doorClosingDuration := m'.doorClosingDuration)
  {
  }

  /** Off a platform the answer is OFF; on one, with the doors all closed or no signal
      open, it is OFF unless probing the lengths threw. */
  lemma OffWhenNotReady(m: Memory, train: TrainState, signals: seq<SignalInfo>,
                        platform: Option<Platform>, host: Host)
    ensures platform.None? ==> ButtonEffect(m, train, signals, platform, host).0 == Ok(Off)
    ensures var r := ButtonEffect(m, train, signals, platform, host).0;
      r.Ok? && (train.allClose || !IsSignalOpened(signals)) ==> r.value == Off
  {
  }

  /** A completed tick answers ON exactly inside the window, never "not changed", and
      `_isPlaying` mirrors the answer. */
  lemma OnIffInWindow(m: Memory, train: TrainState, signals: seq<SignalInfo>,
                      platform: Option<Platform>, host: Host)
    ensures var (r, m') := ButtonEffect(m, train, signals, platform, host);
      r.Ok? ==>
        && (r.value == On <==> platform.Some? && !train.allClose && IsSignalOpened(signals) && InWindow(m', train))
        && r.value != NotChanged
        && m'.isPlaying == (r.value == On)
  {
  }

  /** The lengths are probed only on the first tick on a platform (previous track number
      at most 0): the melody through the path service with the flag set, the door-closing
      clip with it clear. On later ticks they are kept. */
  lemma ProbedOnArrival(m: Memory, train: TrainState, signals: seq<SignalInfo>,
                        platform: Option<Platform>, host: Host)
    ensures var (r, m') := ButtonEffect(m, train, signals, platform, host);
      && (platform.None? || m.previousTrackNumber > 0 ==>
            m'.melodyDuration == m.melodyDuration && m'.doorClosingDuration == m.doorClosingDuration)
      && (platform.Some? && m.previousTrackNumber <= 0 && r.Ok? ==>
            var p := platform.value;
            && Ok(m'.melodyDuration) == GetDuration(host.runs(
                 GetAudioPath(p.stationName, p.trackNumber, true, train.trainClass, host.cwd, host.fs)))
            && Ok(m'.doorClosingDuration) == GetDuration(host.runs(
                 GetAudioPath(p.stationName, p.trackNumber, false, train.trainClass, host.cwd, host.fs))))
  {
  }

  /** The margin follows the first car on every tick, and a completed tick remembers its
      track number (-1 off a platform), doors and signal for the next. */
  lemma RemembersTick(m: Memory, train: TrainState, signals: seq<SignalInfo>,
                      platform: Option<Platform>, host: Host)
    ensures var (r, m') := ButtonEffect(m, train, signals, platform, host);
      && m'.margin == MarginFor(train)
      && (r.Ok? ==>
            && m'.previousTrackNumber == (if platform.Some? then platform.value.trackNumber else -1)
            && m'.previousAllClose == train.allClose
            && m'.previousSignalOpened == IsSignalOpened(signals))
  {
    ElapseFrame(m.(margin := MarginFor(train)), train, signals, platform, host);
  }

  class AutoModeService {
    const tracks: TrackRepository
    var melodyDurationMargin: real
    var isPlaying: bool
    var arrivingTimeSeconds: real
    var signalOpenedTimeSeconds: real
    var melodyDuration: real
    var doorClosingDuration: real
    var previousTrackNumber: int
    var previousAllClose: bool
    var previousIsSignalOpened: bool

    function Snapshot(): Memory
      reads this
    {
      Memory(melodyDurationMargin, isPlaying, arrivingTimeSeconds, signalOpenedTimeSeconds,
             melodyDuration, doorClosingDuration, previousTrackNumber, previousAllClose, previousIsSignalOpened)
    }

    /** The margin starts at the standard one; everything else as `Reset` leaves it. */
    constructor (tracks: TrackRepository)
      ensures this.tracks == tracks
      ensures Snapshot() == ResetMemory(Snapshot()) && melodyDurationMargin == StandardMargin
    {
      this.tracks := tracks;
      melodyDurationMargin := StandardMargin;
      new;
      Reset();
    }

    /** `Reset`. */
    method Reset()
      modifies this
      ensures Snapshot() == ResetMemory(old(Snapshot()))
    {
      isPlaying := false;
      previousTrackNumber := 0;
      previousAllClose := true;
      previousIsSignalOpened := false;
      melodyDuration := 0.0;
      doorClosingDuration := 0.0;
      arrivingTimeSeconds := 0.0;
      signalOpenedTimeSeconds := 0.0;
    }

    /** `GetButtonState` on this tick's train, signals and occupied circuits. */
    method GetButtonState(train: TrainState, signals: seq<SignalInfo>, circuits: set<string>, host: Host)
      returns (r: Result<ButtonState>)
      modifies this
      ensures (r, Snapshot()) == ButtonEffect(old(Snapshot()), train, signals, tracks.GetTrackByTrackCircuits(circuits), host)
    {
      melodyDurationMargin := MarginFor(train);
      var platform := tracks.GetTrackByTrackCircuits(circuits);
      var trackNumber := if platform.Some? then platform.value.trackNumber else -1;
      ghost var m0 := Snapshot();
      assert m0 == old(Snapshot()).(margin := MarginFor(train));
      r := Elapse(train, signals, platform, host);
      ghost var m1 := Snapshot();
      assert (r, m1) == ElapseEffect(m0, train, signals, platform, host);
      if r.Err? {
        return;
      }
      isPlaying := match r.value case On => true case Off => false case NotChanged => isPlaying;
      previousTrackNumber := trackNumber;
      previousAllClose := train.allClose;
      previousIsSignalOpened := IsSignalOpened(signals);
    }

    /** `_elapse`. */
    method Elapse(train: TrainState, signals: seq<SignalInfo>, platform: Option<Platform>, host: Host)
      returns (r: Result<ButtonState>)
      modifies this
      ensures (r, Snapshot()) == ElapseEffect(old(Snapshot()), train, signals, platform, host)
    {
      var now := train.nowTime;
      if previousAllClose && !train.allClose {
        arrivingTimeSeconds := now;
      }
      if !train.allClose && !previousIsSignalOpened && IsSignalOpened(signals) {
        signalOpenedTimeSeconds := now;
      }
      ghost var m1 := Snapshot();
      assert m1 == Stamped(old(Snapshot()), train, signals);
      if platform.None? {
        return Ok(Off);
      }
      if previousTrackNumber <= 0 {
        var p := SetMelodyDuration(platform.value, train.trainClass, host);
        if p.Fail? {
          return Err(p.error);
        }
        assert (Pass, Snapshot()) == ProbeEffect(m1, platform.value, train.trainClass, host);
      }
      r := Decision(train, signals);
    }

    /** The tail of `_elapse`: OFF unless the doors are open and a signal is clear, then ON
        exactly inside the window built from the fields and the departure time. */
    method Decision(train: TrainState, signals: seq<SignalInfo>) returns (r: Result<ButtonState>)
      ensures r == Decide(Snapshot(), train, signals)
    {
      if train.allClose || !IsSignalOpened(signals) {
        return Ok(Off);
      }
      var station := train.CurrentStation();
      if station.Err? {
        return Err(station.error);
      }
      var departure := station.value.depTime;
      var pushOn := Max3(arrivingTimeSeconds + 2.0, signalOpenedTimeSeconds + 1.0,
                         departure - melodyDuration - doorClosingDuration - melodyDurationMargin);
      var pushOff := Max3(pushOn + 1.0, arrivingTimeSeconds + MinimumDoorOpenTime - doorClosingDuration,
                          departure - doorClosingDuration - melodyDurationMargin);
      var now := train.nowTime;
      if pushOn <= now && now < pushOff {
        return Ok(On);
      }
      return Ok(Off);
    }

    /** `SetMelodyDuration`. */
    method SetMelodyDuration(platform: Platform, trainClass: string, host: Host) returns (o: Outcome)
      modifies this
      ensures (o, Snapshot()) == ProbeEffect(old(Snapshot()), platform, trainClass, host)
    {
      var melodyPath := GetAudioPath(platform.stationName, platform.trackNumber, true, trainClass, host.cwd, host.fs);
      var melody := GetDuration(host.runs(melodyPath));
      if melody.Err? {
        return Fail(melody.error);
      }
      melodyDuration := melody.value;
      var closingPath := GetAudioPath(platform.stationName, platform.trackNumber, false, trainClass, host.cwd, host.fs);
      var closing := GetDuration(host.runs(closingPath));
      if closing.Err? {
        return Fail(closing.error);
      }
      doorClosingDuration := closing.value;
      o := Pass;
    }
  }
}
