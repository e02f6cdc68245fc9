/** Thresholds of the newest auto mode (`Domain/Models/AutoModeConfig.cs`). */
module AutoModeConfigs {
  import opened TrainStates

  /** All durations are in seconds. */
  datatype AutoModeConfig = AutoModeConfig(
    isEnabled: bool,
    delayAfterArrival: real,
    delayAfterSignalOpen: real,
    minimumMelodyDuration: real,
    minimumDoorOpenDuration: real,
    doorCloseAnnouncementDuration: real,
    standardMargin: real,
    series50000Margin: real)
  {
    /** The margin kept before departure: larger for 50000-series stock. */
    function GetMarginForVehicle(train: TrainState): real {
      if train.IsLimitedExpressType() then series50000Margin else standardMargin
    }

    /** `config with { IsEnabled = enabled }`. */
    function WithEnabled(enabled: bool): (c: AutoModeConfig)
      ensures c.isEnabled == enabled
      ensures c == this.(isEnabled := enabled)
    {
      AutoModeConfig(enabled, delayAfterArrival, delayAfterSignalOpen, minimumMelodyDuration,
        minimumDoorOpenDuration, doorCloseAnnouncementDuration, standardMargin, series50000Margin)
    }
  }

  /** `new AutoModeConfig()`: disabled, with the record's initialiser values. */
  const Default: AutoModeConfig :=
    AutoModeConfig(false, 1.0, 0.5, 1.0, 12.0, 3.0, 8.5, 16.5)

  /** The defaults, field by field. */
  lemma DefaultValues()
    ensures !Default.isEnabled
    ensures Default.delayAfterArrival == 1.0 && Default.delayAfterSignalOpen == 0.5
    ensures Default.minimumMelodyDuration == 1.0 && Default.minimumDoorOpenDuration == 12.0
    ensures Default.doorCloseAnnouncementDuration == 3.0
    ensures Default.standardMargin == 8.5 && Default.series50000Margin == 16.5
  {
  }

  /** A train with some 50000-series car gets the 50000 margin, any other the standard one. */
  lemma MarginByVehicle(c: AutoModeConfig, train: TrainState)
    ensures train.IsLimitedExpressType() ==> c.GetMarginForVehicle(train) == c.series50000Margin
    ensures !train.IsLimitedExpressType() ==> c.GetMarginForVehicle(train) == c.standardMargin
  {
  }

  /** With the default values a ["50000", "50100"] train gets 16.5 s and an ["E233", "E235"]
      train 8.5 s: the two cases of `AutoModeConfigTests.cs`, as instances of the all-inputs
      `MarginByVehicle`. */
  lemma DefaultMarginExamples(train: TrainState)
    ensures Default.GetMarginForVehicle(train.(vehicleTypes := ["50000", "50100"])) == 16.5
    ensures Default.GetMarginForVehicle(train.(vehicleTypes := ["E233", "E235"])) == 8.5
  {
    var express := train.(vehicleTypes := ["50000", "50100"]);
    assert Text.StartsWith(express.vehicleTypes[0], "50000");
    var other := train.(vehicleTypes := ["E233", "E235"]);
    forall i | 0 <= i < 2 ensures !Text.StartsWith(other.vehicleTypes[i], "50000") {
      assert other.vehicleTypes[i][0] == 'E';
    }
  }

  /** The margin depends on the train only through its vehicle types. */
  lemma MarginOnlyByVehicleTypes(c: AutoModeConfig, t1: TrainState, t2: TrainState)
    requires t1.vehicleTypes == t2.vehicleTypes
    ensures c.GetMarginForVehicle(t1) == c.GetMarginForVehicle(t2)
  {
  }

  /** Switching auto mode on or off keeps every threshold. */
  lemma WithEnabledKeepsThresholds(c: AutoModeConfig, enabled: bool, train: TrainState)
    ensures var d := c.WithEnabled(enabled);
      && d.delayAfterArrival == c.delayAfterArrival
      && d.delayAfterSignalOpen == c.delayAfterSignalOpen
      && d.minimumMelodyDuration == c.minimumMelodyDuration
      && d.minimumDoorOpenDuration == c.minimumDoorOpenDuration
      && d.doorCloseAnnouncementDuration == c.doorCloseAnnouncementDuration
      && d.GetMarginForVehicle(train) == c.GetMarginForVehicle(train)
  {
  }
}
