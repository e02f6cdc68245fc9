/** The per-tick telemetry record of the newest generation (`Domain/Models/GameState.cs`). */
module GameStates {
  import opened Wrappers
  import opened TrainStates
  import opened SignalInfos

  /** Menu and other screens, driving or conducting, paused. */
  datatype GameScreen = NotPlaying | Playing | Pausing

  /** `CrewType.None` (not on duty) is named `NoCrew` here. */
  datatype CrewType = NoCrew | Driver | DriverOnly | Conductor

  /** The circuits the train occupies are a list, as the services use them; the game time
      is in seconds and follows pauses. */
  datatype GameState = GameState(
    screen: GameScreen,
    crewType: CrewType,
    trainState: Option<TrainState>,
    signalInfo: Option<SignalInfo>,
    currentCircuitIds: seq<string>,
    currentGameTime: real,
    isAtStation: bool)
}
