/** The train telemetry record of the newest generation (`Domain/Models/TrainState.cs`). */
module TrainStates {
  import opened Wrappers
  import opened Text

  /** Speed in km/h, door state, the timetable number ("1206A"), the vehicle series of each
      car and the scheduled departure time in game seconds. */
  datatype TrainState = TrainState(
    speed: real,
    isDoorsOpen: bool,
    trainNumber: Option<string>,
    vehicleTypes: seq<string>,
    departureTime: Option<real>)
  {
    /** Standing still: slower than 0.1 km/h. */
    predicate IsStopped() {
      speed < 0.1
    }

    /** Up (inbound) train: the train number ends in an even digit. */
    predicate IsInbound() {
      match trainNumber
      case None => false
      case Some(n) =>
        |n| > 0 && IsDigit(n[|n| - 1]) && DigitValue(n[|n| - 1]) % 2 == 0
    }

    /** Limited-express rolling stock: some car is of a 50000-series type. */
    predicate IsLimitedExpressType() {
      exists i | 0 <= i < |vehicleTypes| :: StartsWith(vehicleTypes[i], "50000")
    }
  }

  /** `IsStopped` is exactly "speed below 0.1". */
  lemma StoppedIffSlow(t: TrainState)
    ensures t.IsStopped() <==> t.speed < 0.1
  {
  }

  /** A missing or empty train number is never inbound. */
  lemma NoNumberNotInbound(t: TrainState)
    requires t.trainNumber == None || t.trainNumber == Some("")
    ensures !t.IsInbound()
  {
  }

  /** A number ending in a digit is inbound exactly when that digit is even. */
  lemma InboundByLastDigit(t: TrainState, prefix: string, d: char)
    requires t.trainNumber == Some(prefix + [d])
    requires IsDigit(d)
    ensures t.IsInbound() <==> DigitValue(d) % 2 == 0
  {
  }

  /** A number ending in something other than a digit ("1206A") counts as outbound. */
  lemma NonDigitSuffixOutbound(t: TrainState, prefix: string, c: char)
    requires t.trainNumber == Some(prefix + [c])
    requires !IsDigit(c)
    ensures !t.IsInbound()
  {
  }

  /** "1234" is inbound, while "1235", "123A" and no number at all are outbound: the sample
      numbers of the `IsInbound` cases in `TrainStateTests.cs`, as instances of the
      all-inputs `NoNumberNotInbound`, `InboundByLastDigit` and `NonDigitSuffixOutbound`. */
  lemma InboundExamples(t: TrainState)
    ensures t.(trainNumber := Some("1234")).IsInbound()
    ensures !t.(trainNumber := Some("1235")).IsInbound()
    ensures !t.(trainNumber := Some("123A")).IsInbound()
    ensures !t.(trainNumber := None).IsInbound()
  {
    assert DigitValue('4') == 4;
    assert DigitValue('5') == 5;
  }

  /** Limited-express type holds exactly when some listed type starts with "50000";
      with no vehicles it is false. */
  lemma LimitedExpressWitness(t: TrainState, i: nat)
    requires i < |t.vehicleTypes| && StartsWith(t.vehicleTypes[i], "50000")
    ensures t.IsLimitedExpressType()
  {
  }

  lemma NoVehiclesNotLimitedExpress(t: TrainState)
    requires t.vehicleTypes == []
    ensures !t.IsLimitedExpressType()
  {
  }
}
