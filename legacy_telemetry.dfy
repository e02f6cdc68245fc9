/**
 * What the two older generations read from the simulator each tick (the `TrainCrew`
 * library's `TrainState`, `SignalInfo`, `GameScreen` and `CrewType`, and the
 * `Models/AppTrainState.cs` copy of the train state), plus the shared button request.
 */
module LegacyTelemetry {
  import opened Wrappers
  import opened Environment

  /** One entry of the train's station list. `totalLength` is the stop position along the
      line in metres; `depTime` the timetabled departure in seconds of the day. */
  datatype Station = Station(name: string, stopPosName: string, totalLength: real, depTime: real)

  /** The train as the older code reads it: service class ("特急", "普通"), whether every
      door is closed, the simulated clock in seconds, the car models from the front, the
      station list and the index of the current station in it, the train number
      (`diaName`), the next station's name, the distance run and the speed. */
  datatype TrainState = TrainState(
    trainClass: string,
    allClose: bool,
    nowTime: real,
    carModels: seq<string>,
    stationList: seq<Station>,
    nowStaIndex: int,
    diaName: string,
    nextStaName: string,
    totalLength: real,
    speed: real)
  {
    /** `stationList[nowStaIndex]`: a list index outside the list throws. */
    function CurrentStation(): (r: Result<Station>)
      ensures r.Ok? <==> 0 <= nowStaIndex < |stationList|
      ensures r.Ok? ==> r.value == stationList[nowStaIndex]
      ensures r.Err? ==> r.error == IndexOutOfRange
    {
      if 0 <= nowStaIndex < |stationList| then Ok(stationList[nowStaIndex]) else Err(IndexOutOfRange)
    }
  }

  /** A signal ahead of the train: its name and the phase it shows ("R" is stop). */
  datatype SignalInfo = SignalInfo(name: string, phase: string)

  /** The simulator's screens that the code distinguishes; every other screen (title,
      menus, results) is `OtherScreen`. */
  datatype GameScreen = NotRunningGame | MainGame | MainGame_Pause | MainGame_Loading | OtherScreen

  /** The crew role the player took. */
  datatype CrewType = Driver | Conductor

  /** A request to the melody switch: leave it, press ON, or press OFF. */
  datatype ButtonState = NotChanged | On | Off

  /** What the host provides: the working directory, the disk, and the ffmpeg run that
      probing a given path produces. */
  datatype Host = Host(cwd: string, fs: FileSystem, runs: string -> ProcessRun)
}
