/**
 * The oldest generation's auto mode (`AutoMode.cs`): on arrival at a platform it schedules
 * the instant to press ON; once that instant has come and a signal is open it presses ON
 * and schedules OFF; at the OFF instant, or when the melody file ends, it presses OFF.
 * Presses go to a handler; here they are returned (`Some(true)` for ON, `Some(false)` for
 * OFF, `None` for no press).
 */
module AutoModes {
  import opened Wrappers
  import opened LegacyTelemetry
  import LegacyAutoModeServices

  const MelodyDurationMargin: real := 8.5

  /** A scheduled instant in seconds, or `TimeSpan.MaxValue` (nothing scheduled). */
  datatype Instant = At(seconds: real) | Never

  /** `now < t` for a scheduled instant; every instant is before "never". */
  predicate Before(now: real, t: Instant) {
    t.Never? || now < t.seconds
  }

  /** The fields of `AutoMode`. */
  datatype Schedule = Schedule(
    isEnabled: bool,
    isPlaying: bool,
    pushOnTime: Instant,
    pushOffTime: Instant,
    melodyDuration: real,
    doorClosingDuration: real,
    previousTrackNumber: int)

  /** `Reset(isEnabled)`. */
  function ResetSchedule(isEnabled: bool): Schedule {
    Schedule(isEnabled, false, Never, Never, 0.0, 0.0, 0)
  }

  /** `isOpened`: some signal shows a phase other than "R" (shunting signals included). */
  predicate IsOpened(signals: seq<SignalInfo>) {
    exists i | 0 <= i < |signals| :: signals[i].phase != "R"
  }

  /** `double.Max`. */
  function Max2(a: real, b: real): (r: real)
    ensures r >= a && r >= b && (r == a || r == b)
  {
    if a >= b then a else b
  }

  /** The ON instant set on arrival: a second from now, and early enough for melody,
      door-closing clip and margin before departure. */
  function PushOnAt(now: real, departure: real, melody: real, closing: real): real {
    Max2(now + 1.0, departure - melody - closing - MelodyDurationMargin)
  }

  /** The OFF instant set when ON is pressed. */
  function PushOffAt(now: real, departure: real, closing: real): real {
    LegacyAutoModeServices.Max3(now + 1.0, now + MelodyDurationMargin - closing,
                                departure - closing - MelodyDurationMargin + 0.5)
  }

  /** `onStoppedStation`, with the lengths the media player reports for the melody and the
      door-closing clip (`None`: it never reports, and the method never resumes). A station
      index outside the list throws inside the un-awaited task, which drops it. */
  function ArrivalEffect(s: Schedule, train: TrainState, melodyLength: Option<real>,
                         closingLength: Option<real>): Schedule
  {
    if !s.isEnabled || train.CurrentStation().Err? || melodyLength.None? then s
    else if closingLength.None? then s.(melodyDuration := melodyLength.value)
    else s.(melodyDuration := melodyLength.value, doorClosingDuration := closingLength.value,
            pushOnTime := At(PushOnAt(train.nowTime, train.CurrentStation().value.depTime,
                                      melodyLength.value, closingLength.value)))
  }

  /** `PushOffButton`: nothing is scheduled any more and the melody is off. */
  function PushedOff(s: Schedule): Schedule {
    s.(pushOnTime := Never, pushOffTime := Never, isPlaying := false)
  }

  /** `_elapse`: the press it makes, whether it threw, and the new fields. */
  function StepEffect(s: Schedule, train: TrainState, signals: seq<SignalInfo>, trackNumber: int,
                      melodyLength: Option<real>, closingLength: Option<real>): (Option<bool>, Outcome, Schedule)
  {
    var now := train.nowTime;
    if !s.isEnabled || trackNumber <= 0 then (None, Pass, s)
    else if s.previousTrackNumber <= 0 then (None, Pass, ArrivalEffect(s, train, melodyLength, closingLength))
    else if Before(now, s.pushOnTime) then (None, Pass, s)
    else if !Before(now, s.pushOffTime) && s.isPlaying then (Some(false), Pass, PushedOff(s))
    else if s.isPlaying || !IsOpened(signals) then (None, Pass, s)
    else if train.CurrentStation().Err? then (Some(true), Fail(train.CurrentStation().error), s.(isPlaying := true))
    else (Some(true), Pass, s.(isPlaying := true,
                               pushOffTime := At(PushOffAt(now, train.CurrentStation().value.depTime, s.doorClosingDuration))))
  }

  /** `Elapse`: `_elapse`, then this tick's track number is remembered (unless it threw). */
  function ElapseEffect(s: Schedule, train: TrainState, signals: seq<SignalInfo>, trackNumber: int,
                        melodyLength: Option<real>, closingLength: Option<real>): (Option<bool>, Outcome, Schedule)
  {
    var (pushed, o, s1) := StepEffect(s, train, signals, trackNumber, melodyLength, closingLength);
    (pushed, o, if o.Pass? then s1.(previousTrackNumber := trackNumber) else s1)
  }

  /** `MediaEnded`: with auto mode on, the end of the melody file presses OFF. */
  function MediaEndedEffect(s: Schedule): (Option<bool>, Schedule) {
    if s.isEnabled && s.isPlaying then (Some(false), PushedOff(s)) else (None, s)
  }

  /** Disabled, or off a platform, a tick only records the track number. */
  lemma IdleOffPlatform(s: Schedule, train: TrainState, signals: seq<SignalInfo>, trackNumber: int,
                        melodyLength: Option<real>, closingLength: Option<real>)
    requires !s.isEnabled || trackNumber <= 0
    ensures ElapseEffect(s, train, signals, trackNumber, melodyLength, closingLength)
         == (None, Pass, s.(previousTrackNumber := trackNumber))
  {
  }

  /** The first tick on a platform presses nothing; once both lengths are known it schedules
      ON for `max(now + 1, departure - melody - closing - 8.5)`, which is in the future. */
  lemma ArrivalSchedulesOn(s: Schedule, train: TrainState, signals: seq<SignalInfo>, trackNumber: int,
                           melody: real, closing: real)
    requires s.isEnabled && trackNumber > 0 && s.previousTrackNumber <= 0
    requires train.CurrentStation().Ok?
    ensures var (pushed, o, s') := ElapseEffect(s, train, signals, trackNumber, Some(melody), Some(closing));
      var departure := train.CurrentStation().value.depTime;
      && pushed.None? && o.Pass?
      && s' == s.(melodyDuration := melody, doorClosingDuration := closing,
                  pushOnTime := At(Max2(train.nowTime + 1.0, departure - melody - closing - MelodyDurationMargin)),
                  previousTrackNumber := trackNumber)
      && Before(train.nowTime, s'.pushOnTime)
  {
  }

  /** Before the ON instant nothing happens. */
  lemma WaitsForPushOn(s: Schedule, train: TrainState, signals: seq<SignalInfo>, trackNumber: int,
                       melodyLength: Option<real>, closingLength: Option<real>)
    requires s.isEnabled && trackNumber > 0 && s.previousTrackNumber > 0
    requires Before(train.nowTime, s.pushOnTime)
    ensures ElapseEffect(s, train, signals, trackNumber, melodyLength, closingLength)
         == (None, Pass, s.(previousTrackNumber := trackNumber))
  {
  }

  /** OFF is pressed exactly when, past the ON instant, the OFF instant has come while the
      melody plays; it clears both instants. */
  lemma OffAtPushOff(s: Schedule, train: TrainState, signals: seq<SignalInfo>, trackNumber: int,
                     melodyLength: Option<real>, closingLength: Option<real>)
    ensures var (pushed, o, s') := ElapseEffect(s, train, signals, trackNumber, melodyLength, closingLength);
      && (pushed == Some(false) <==>
            s.isEnabled && trackNumber > 0 && s.previousTrackNumber > 0 && !Before(train.nowTime, s.pushOnTime)
            && !Before(train.nowTime, s.pushOffTime) && s.isPlaying)
      && (pushed == Some(false) ==>
            o.Pass? && s' == PushedOff(s).(previousTrackNumber := trackNumber))
  {
  }

  /** ON is pressed only when the ON instant has come, the melody is off and a signal is
      open; the OFF instant it schedules is at least a second away, so
      `pushOn <= now < now + 1 <= pushOff`. */
  lemma OnSchedulesOff(s: Schedule, train: TrainState, signals: seq<SignalInfo>, trackNumber: int,
                       melodyLength: Option<real>, closingLength: Option<real>)
    ensures var (pushed, o, s') := ElapseEffect(s, train, signals, trackNumber, melodyLength, closingLength);
      && (pushed == Some(true) ==>
            && s.isEnabled && trackNumber > 0 && s.previousTrackNumber > 0
            && s.pushOnTime.At? && s.pushOnTime.seconds <= train.nowTime
            && !s.isPlaying && IsOpened(signals) && s'.isPlaying)
      && (pushed == Some(true) && o.Pass? ==>
            s'.pushOffTime.At? && s'.pushOffTime.seconds >= train.nowTime + 1.0)
  {
  }

  /** After OFF no instant is scheduled, so while the train stays on the platform no tick
      presses anything again; the next ON needs a new arrival. */
  lemma NoPressAfterOff(s: Schedule, train: TrainState, signals: seq<SignalInfo>, trackNumber: int,
                        melodyLength: Option<real>, closingLength: Option<real>)
    requires s.pushOnTime == Never && s.previousTrackNumber > 0 && trackNumber > 0
    ensures ElapseEffect(s, train, signals, trackNumber, melodyLength, closingLength)
         == (None, Pass, s.(previousTrackNumber := trackNumber))
  {
  }

  /** One tick's inputs. */
  datatype Tick = Tick(train: TrainState, signals: seq<SignalInfo>, trackNumber: int,
                       melodyLength: Option<real>, closingLength: Option<real>)

  /** Running `Elapse` over a sequence of ticks: the presses made, in order. */
  function Presses(s: Schedule, ticks: seq<Tick>): seq<bool>
    decreases |ticks|
  {
    if |ticks| == 0 then []
    else
      var t := ticks[0];
      var (pushed, o, s') := ElapseEffect(s, t.train, t.signals, t.trackNumber, t.melodyLength, t.closingLength);
      (if pushed.Some? then [pushed.value] else []) + Presses(s', ticks[1..])
  }

  /** From an OFF press on, any run of ticks that stays on a platform presses nothing. */
  lemma {:induction false} SilentUntilDeparture(s: Schedule, ticks: seq<Tick>)
    requires s.pushOnTime == Never && s.previousTrackNumber > 0
    requires forall i | 0 <= i < |ticks| :: ticks[i].trackNumber > 0
    ensures Presses(s, ticks) == []
    decreases |ticks|
  {
    if |ticks| > 0 {
      var t := ticks[0];
      NoPressAfterOff(s, t.train, t.signals, t.trackNumber, t.melodyLength, t.closingLength);
      SilentUntilDeparture(s.(previousTrackNumber := t.trackNumber), ticks[1..]);
    }
  }

  /** The end of the melody presses OFF exactly when auto mode is on and the melody plays. */
  lemma MediaEndedPressesOff(s: Schedule)
    ensures MediaEndedEffect(s).0 == Some(false) <==> s.isEnabled && s.isPlaying
    ensures MediaEndedEffect(s).0 == Some(false) ==> MediaEndedEffect(s).1 == PushedOff(s)
    ensures MediaEndedEffect(s).0.None? ==> MediaEndedEffect(s).1 == s
  {
  }

  class AutoMode {
    var isEnabled: bool
    var isPlaying: bool
    var pushOnTime: Instant
    var pushOffTime: Instant
    var melodyDuration: real
    var doorClosingDuration: real
    var previousTrackNumber: int

    function Snapshot(): Schedule
      reads this
    {
      Schedule(isEnabled, isPlaying, pushOnTime, pushOffTime, melodyDuration, doorClosingDuration, previousTrackNumber)
    }

    /** The constructor resets with auto mode off. */
    constructor ()
      ensures Snapshot() == ResetSchedule(false)
    {
      new;
      Reset(false);
    }

    /** `Reset`. */
    method Reset(enabled: bool)
      modifies this
      ensures Snapshot() == ResetSchedule(enabled)
    {
      isEnabled := enabled;
      isPlaying := false;
      previousTrackNumber := 0;
      pushOnTime := Never;
      pushOffTime := Never;
      melodyDuration := 0.0;
      doorClosingDuration := 0.0;
    }

    /** `Elapse`. */
    method Elapse(train: TrainState, signals: seq<SignalInfo>, trackNumber: int,
                  melodyLength: Option<real>, closingLength: Option<real>) returns (pushed: Option<bool>, o: Outcome)
      modifies this
      ensures (pushed, o, Snapshot())
           == ElapseEffect(old(Snapshot()), train, signals, trackNumber, melodyLength, closingLength)
    {
      pushed, o := Step(train, signals, trackNumber, melodyLength, closingLength);
      if o.Pass? {
        previousTrackNumber := trackNumber;
      }
    }

    /** `_elapse`. */
    method Step(train: TrainState, signals: seq<SignalInfo>, trackNumber: int,
                melodyLength: Option<real>, closingLength: Option<real>) returns (pushed: Option<bool>, o: Outcome)
      modifies this
      ensures (pushed, o, Snapshot())
           == StepEffect(old(Snapshot()), train, signals, trackNumber, melodyLength, closingLength)
    {
      pushed, o := None, Pass;
      if !isEnabled || trackNumber <= 0 {
        return;
      }
      if previousTrackNumber <= 0 {
        OnStoppedStation(train, melodyLength, closingLength);
        return;
      }
      var now := train.nowTime;
      if Before(now, pushOnTime) {
        return;
      }
      if !Before(now, pushOffTime) && isPlaying {
        pushed := PushOffButton();
        return;
      }
      if isPlaying || !IsOpened(signals) {
        return;
      }
      pushed := Push(true);
      var station := train.CurrentStation();
      if station.Err? {
        return pushed, Fail(station.error);
      }
      pushOffTime := At(LegacyAutoModeServices.Max3(now + 1.0, now + MelodyDurationMargin - doorClosingDuration,
                          station.value.depTime - doorClosingDuration - MelodyDurationMargin + 0.5));
    }

    /** `onStoppedStation`. */
    method OnStoppedStation(train: TrainState, melodyLength: Option<real>, closingLength: Option<real>)
      modifies this
      ensures Snapshot() == ArrivalEffect(old(Snapshot()), train, melodyLength, closingLength)
    {
      if !isEnabled {
        return;
      }
      var now := train.nowTime;
      var station := train.CurrentStation();
      if station.Err? || melodyLength.None? {
        return;
      }
      melodyDuration := melodyLength.value;
      if closingLength.None? {
        return;
      }
      doorClosingDuration := closingLength.value;
      pushOnTime := At(Max2(now + 1.0, station.value.depTime - melodyDuration - doorClosingDuration - MelodyDurationMargin));
    }

    /** `Push`: the handler is told the new state. */
    method Push(willPlaying: bool) returns (pushed: Option<bool>)
      modifies this
      ensures Snapshot() == old(Snapshot()).(isPlaying := willPlaying)
      ensures pushed == Some(willPlaying)
    {
      isPlaying := willPlaying;
      pushed := Some(willPlaying);
    }

    /** `PushOffButton`. */
    method PushOffButton() returns (pushed: Option<bool>)
      modifies this
      ensures Snapshot() == PushedOff(old(Snapshot()))
      ensures pushed == Some(false)
    {
      pushOnTime := Never;
      pushOffTime := Never;
      pushed := Push(false);
    }

    /** `MediaEnded`. */
    method MediaEnded() returns (pushed: Option<bool>)
      modifies this
      ensures (pushed, Snapshot()) == MediaEndedEffect(old(Snapshot()))
    {
      pushed := None;
      if !isEnabled {
        return;
      }
      if isPlaying {
        pushed := PushOffButton();
      }
    }
  }
}
