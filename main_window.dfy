/**
 * The oldest generation's window (`MainWindow.xaml.cs`): it works out the platform number
 * from the train state on every rendered frame, enables the ON/OFF buttons on a platform,
 * plays the melody or the door-closing clip when a button is clicked, and follows the
 * game screen's pause, resume and stop edges. Player, button and simulator calls are
 * returned as a sequence of `Call`s.
 */
module MainWindows {
  import opened Wrappers
  import opened Environment
  import opened Text
  import opened LegacyTelemetry
  import MelodyPaths

  /** The station-name fragments that mark a signal box or a siding. */
  const SignalBox := "信号場"
  const Siding := "引上線"

  /** `GetFirstNumber`: the value of the first digit in `name`, or -1 if it has none. */
  function GetFirstNumber(name: string): int
    decreases |name|
  {
    if |name| == 0 then -1
    else if IsDigit(name[0]) then DigitValue(name[0]) as int
    else GetFirstNumber(name[1..])
  }

  /** The result is -1 exactly when no character is a digit; otherwise it is the value of
      the digit at the first index holding one. */
  lemma {:induction false} FirstNumberSpec(name: string)
    ensures var r := GetFirstNumber(name);
      && -1 <= r <= 9
      && (r == -1 <==> forall i | 0 <= i < |name| :: !IsDigit(name[i]))
      && (r != -1 ==> exists k | 0 <= k < |name| ::
            && IsDigit(name[k]) && r == DigitValue(name[k]) as int
            && forall j | 0 <= j < k :: !IsDigit(name[j]))
    decreases |name|
  {
    if |name| > 0 && !IsDigit(name[0]) {
      var t := name[1..];
      FirstNumberSpec(t);
      assert forall i | 1 <= i < |name| :: name[i] == t[i - 1];
      if GetFirstNumber(t) != -1 {
        var k :| 0 <= k < |t| && IsDigit(t[k]) && GetFirstNumber(t) == DigitValue(t[k]) as int
                 && forall j | 0 <= j < k :: !IsDigit(t[j]);
        assert IsDigit(name[k + 1]);
      }
    }
  }

  /** `Last(char.IsDigit) - '0'`: the value of the last digit, or the exception `Last`
      throws when there is none. */
  function LastDigit(s: string): Result<nat>
    decreases |s|
  {
    if |s| == 0 then Err(NoMatchingElement)
    else if IsDigit(s[|s| - 1]) then Ok(DigitValue(s[|s| - 1]))
    else LastDigit(s[..|s| - 1])
  }

  /** `LastDigit` fails exactly when there is no digit, and otherwise reads the digit at the
      last index holding one. */
  lemma {:induction false} LastDigitSpec(s: string)
    ensures var r := LastDigit(s);
      && (r.Err? <==> forall i | 0 <= i < |s| :: !IsDigit(s[i]))
      && (r.Err? ==> r.error == NoMatchingElement)
      && (r.Ok? ==> exists k | 0 <= k < |s| ::
            && IsDigit(s[k]) && r.value == DigitValue(s[k])
            && forall j | k < j < |s| :: !IsDigit(s[j]))
    decreases |s|
  {
    if |s| > 0 && !IsDigit(s[|s| - 1]) {
      var t := s[..|s| - 1];
      LastDigitSpec(t);
      assert forall i | 0 <= i < |t| :: s[i] == t[i];
    }
  }

  function Abs(x: real): real {
    if x < 0.0 then -x else x
  }

  /** The train is stopped within 3 m of the stop position of a station that is neither a
      signal box nor a siding. */
  predicate StoppedAtStation(state: TrainState, station: Station) {
    && Abs(station.totalLength - state.totalLength) <= 3.0
    && state.speed == 0.0
    && !Contains(station.name, SignalBox)
    && !Contains(station.name, Siding)
  }

  /** `GetTrackNumber`: the platform the train stands at, or -1 (0 at 館浜 for a train that is
      not a limited express) when it is not at one. A negative station index makes the list
      indexer throw, and so does a dia name without a digit when the parity is needed. */
  function GetTrackNumber(state: TrainState): Result<int> {
    if |state.stationList| <= state.nowStaIndex then Ok(-1)
    else if state.nowStaIndex < 0 then Err(IndexOutOfRange)
    else
      var station := state.stationList[state.nowStaIndex];
      if !StoppedAtStation(state, station) then Ok(-1)
      else
        var number := GetFirstNumber(station.stopPosName);
        if station.name == MelodyPaths.Tatehama then
          (if state.trainClass == MelodyPaths.LimitedExpress then Ok(number) else Ok(number + 1))
        else if number > 0 then Ok(number)
        else match LastDigit(state.diaName)
          case Err(e) => Err(e)
          case Ok(x) => Ok(if x % 2 == 0 then 1 else 2)
  }

  /** Off a station (past the end of the list, moving, more than 3 m off the mark, at a
      signal box or a siding) the result is -1; a negative index throws. */
  lemma NotAtPlatform(state: TrainState)
    ensures |state.stationList| <= state.nowStaIndex ==> GetTrackNumber(state) == Ok(-1)
    ensures state.nowStaIndex < 0 ==> GetTrackNumber(state) == Err(IndexOutOfRange)
    ensures 0 <= state.nowStaIndex < |state.stationList|
         && !StoppedAtStation(state, state.stationList[state.nowStaIndex])
         ==> GetTrackNumber(state) == Ok(-1)
  {
  }

  /** At a station the number comes from the first digit of the stop position; at 館浜 it is
      the platform the middle generation's path lookup uses for the train's class. */
  lemma NumberFromStopPosition(state: TrainState)
    requires 0 <= state.nowStaIndex < |state.stationList|
    requires StoppedAtStation(state, state.stationList[state.nowStaIndex])
    requires var station := state.stationList[state.nowStaIndex];
      station.name == MelodyPaths.Tatehama || GetFirstNumber(station.stopPosName) > 0
    ensures var station := state.stationList[state.nowStaIndex];
      GetTrackNumber(state)
        == Ok(MelodyPaths.EffectivePlatform(station.name, GetFirstNumber(station.stopPosName), state.trainClass))
  {
  }

  /** Elsewhere, with no positive digit in the stop position, the last digit of the dia
      name decides: even gives platform 1, odd gives platform 2, none throws. */
  lemma NumberFromDiaParity(state: TrainState)
    requires 0 <= state.nowStaIndex < |state.stationList|
    requires StoppedAtStation(state, state.stationList[state.nowStaIndex])
    requires var station := state.stationList[state.nowStaIndex];
      station.name != MelodyPaths.Tatehama && GetFirstNumber(station.stopPosName) <= 0
    ensures LastDigit(state.diaName).Err? ==> GetTrackNumber(state) == Err(NoMatchingElement)
    ensures LastDigit(state.diaName).Ok? ==>
      GetTrackNumber(state) == Ok(if LastDigit(state.diaName).value % 2 == 0 then 1 else 2)
  {
    LastDigitSpec(state.diaName);
  }

  /** The number is between -1 and 10; away from 館浜 a train stopped at a station always
      gets a platform from 1 to 9 (or an exception). */
  lemma TrackNumberRange(state: TrainState)
    ensures GetTrackNumber(state).Ok? ==> -1 <= GetTrackNumber(state).value <= 10
    ensures GetTrackNumber(state).Err? ==>
      state.nowStaIndex < 0 || GetTrackNumber(state).error == NoMatchingElement
    ensures 0 <= state.nowStaIndex < |state.stationList|
         && StoppedAtStation(state, state.stationList[state.nowStaIndex])
         && state.stationList[state.nowStaIndex].name != MelodyPaths.Tatehama
         && GetTrackNumber(state).Ok?
         ==> 1 <= GetTrackNumber(state).value <= 9
  {
    if 0 <= state.nowStaIndex < |state.stationList| {
      var station := state.stationList[state.nowStaIndex];
      FirstNumberSpec(station.stopPosName);
      LastDigitSpec(state.diaName);
    }
  }

  /** What the window asks of the player, its buttons and the simulator. */
  datatype Call =
    | SetButtonsEnabled(enabled: bool)   // ChangeButtonIsEnabled: ON and OFF together
    | PlayerStop
    | PlayerPause
    | PlayerPlay
    | PlayerRewind                       // player.Position = TimeSpan.Zero
    | PlayerOpen(path: string)
    | SetJoukouSokusin(pressed: bool)    // TrainCrewInput.SetButton(JoukouSokusin, ..)
    | RequestStaData

  /** The fields of `MainWindow`. */
  datatype Window = Window(isPlaying: bool, trackNumber: int, previousState: TrainState,
                           previousGameScreen: GameScreen)

  /** The melody for a platform: `sound\{next station}_{platform}.wav` if it exists,
      otherwise `sound\default.wav`. */
  function MelodyFor(w: Window, cwd: string, fs: FileSystem): string {
    var own := MelodyPaths.StationMelodyFile(cwd, w.previousState.nextStaName, w.trackNumber);
    if fs.Exists(own) then own else MelodyPaths.DefaultMelodyFile(cwd)
  }

  /** `Button_Click` from the button named `sender` (`None`: the sender is not a button).
      The ON button asks for the melody, any other button for it to stop. */
  function ClickEffect(w: Window, sender: Option<string>, cwd: string, fs: FileSystem): (seq<Call>, Window) {
    if sender.None? then ([], w)
    else
      var willPlaying := sender.value == "ON";
      if w.isPlaying == willPlaying then ([], w)
      else
        var w' := w.(isPlaying := willPlaying);
        var pressed := [PlayerStop, SetJoukouSokusin(willPlaying)];
        if w.trackNumber <= 0 then (pressed, w')
        else if willPlaying then (pressed + [PlayerOpen(MelodyFor(w, cwd, fs)), PlayerPlay], w')
        else (pressed + [PlayerOpen(MelodyPaths.DoorClosingFile(cwd, w.trackNumber)), PlayerPlay], w')
  }

  /** The player call `Update2` makes on a change of game screen, if any. */
  function ScreenEdge(previous: GameScreen, current: GameScreen): seq<Call> {
    if previous == current then []
    else if current == MainGame_Pause then [PlayerPause]
    else if previous == MainGame_Pause && current == MainGame then [PlayerPlay]
    else if previous == MainGame && current != MainGame then [PlayerStop]
    else if previous == MainGame_Loading && current == MainGame then [RequestStaData]
    else []
  }

  /** `Update2`: on the main game screen the platform number is recomputed, the buttons are
      enabled exactly on a platform and a melody left playing off a platform is stopped;
      elsewhere the buttons are disabled. Then the screen edge is handled. */
  function Update2Effect(w: Window, state: TrainState, screen: GameScreen): (seq<Call>, Outcome, Window) {
    if screen == MainGame then
      match GetTrackNumber(state)
      case Err(e) => ([], Fail(e), w)
      case Ok(n) =>
        ([SetButtonsEnabled(n > 0)] + (if n <= 0 && w.isPlaying then [PlayerStop] else [])
           + ScreenEdge(w.previousGameScreen, screen),
         Pass, w.(trackNumber := n))
    else ([SetButtonsEnabled(false)] + ScreenEdge(w.previousGameScreen, screen), Pass, w)
  }

  /** `Update`: `Update2`, then the state and screen of this frame are remembered. */
  function UpdateEffect(w: Window, state: TrainState, screen: GameScreen): (seq<Call>, Outcome, Window) {
    var (calls, o, w1) := Update2Effect(w, state, screen);
    (calls, o, if o.Pass? then w1.(previousState := state, previousGameScreen := screen) else w1)
  }

  /** A click that asks for the current state does nothing. Any other click flips the
      switch, stops the player and tells the simulator; on a platform it then plays the
      melody (ON) or the platform's door-closing clip (OFF). */
  lemma ClickFlipsSwitch(w: Window, name: string, cwd: string, fs: FileSystem)
    ensures var (calls, w') := ClickEffect(w, Some(name), cwd, fs);
      var willPlaying := name == "ON";
      && (w.isPlaying == willPlaying ==> calls == [] && w' == w)
      && (w.isPlaying != willPlaying ==>
            && w' == w.(isPlaying := willPlaying)
            && calls[..2] == [PlayerStop, SetJoukouSokusin(willPlaying)]
            && (w.trackNumber <= 0 <==> |calls| == 2)
            && (w.trackNumber > 0 && willPlaying ==>
                  calls[2..] == [PlayerOpen(MelodyFor(w, cwd, fs)), PlayerPlay])
            && (w.trackNumber > 0 && !willPlaying ==>
                  calls[2..] == [PlayerOpen(MelodyPaths.DoorClosingFile(cwd, w.trackNumber)), PlayerPlay]))
  {
  }

  /** The melody opened is the middle generation's `GetMelodyPath` for the next station and
      the current platform number. */
  lemma MelodyMatchesLaterPath(w: Window, cwd: string, fs: FileSystem)
    ensures MelodyFor(w, cwd, fs)
         == MelodyPaths.GetMelodyPath(w.previousState.nextStaName, w.trackNumber, false, cwd, fs)
  {
  }

  /** The first call of every frame sets the buttons: enabled exactly when the main game is
      showing and the train is at a platform. */
  lemma ButtonsEnabledOnPlatform(w: Window, state: TrainState, screen: GameScreen)
    ensures var (calls, o, w') := UpdateEffect(w, state, screen);
      o.Pass? ==> |calls| >= 1 && calls[0] == SetButtonsEnabled(screen == MainGame && w'.trackNumber > 0)
  {
  }

  /** In the main game, a melody still on when the train is off a platform is stopped, but
      the switch stays on: no frame changes `isPlaying`. */
  lemma StopsOffPlatform(w: Window, state: TrainState, screen: GameScreen)
    ensures var (calls, o, w') := UpdateEffect(w, state, screen);
      && w'.isPlaying == w.isPlaying
      && (screen == MainGame && o.Pass? && w'.trackNumber <= 0 && w.isPlaying ==> calls[1] == PlayerStop)
  {
  }

  /** A frame fails only on the main game screen, when `GetTrackNumber` throws, and then
      changes nothing; otherwise the frame's state and screen are remembered. */
  lemma UpdateRemembersFrame(w: Window, state: TrainState, screen: GameScreen)
    ensures var (calls, o, w') := UpdateEffect(w, state, screen);
      && (o.Fail? <==> screen == MainGame && GetTrackNumber(state).Err?)
      && (o.Fail? ==> calls == [] && w' == w)
      && (o.Pass? ==> w'.previousState == state && w'.previousGameScreen == screen)
      && (screen != MainGame ==> w'.trackNumber == w.trackNumber)
  {
  }

  /** Screen edges: pausing pauses the player, returning from the pause resumes it, leaving
      the main game otherwise stops it, and arriving from the loading screen requests the
      station data; on an unchanged screen nothing is called. */
  lemma ScreenEdges(previous: GameScreen, current: GameScreen)
    ensures previous == current ==> ScreenEdge(previous, current) == []
    ensures previous != current && current == MainGame_Pause ==> ScreenEdge(previous, current) == [PlayerPause]
    ensures previous == MainGame_Pause && current == MainGame ==> ScreenEdge(previous, current) == [PlayerPlay]
    ensures previous == MainGame && current !in {MainGame, MainGame_Pause} ==> ScreenEdge(previous, current) == [PlayerStop]
    ensures previous == MainGame_Loading && current == MainGame ==> ScreenEdge(previous, current) == [RequestStaData]
    ensures |ScreenEdge(previous, current)| <= 1
  {
  }

  class MainWindow {
    var isPlaying: bool
    var trackNumber: int
    var previousState: TrainState
    var previousGameScreen: GameScreen

    function Snapshot(): Window
      reads this
    {
      Window(isPlaying, trackNumber, previousState, previousGameScreen)
    }

    /** The window starts with the switch off, no platform, the train state read once from
        the simulator (`initial`) and the game not running. */
    constructor (initial: TrainState)
      ensures Snapshot() == Window(false, 0, initial, NotRunningGame)
    {
      isPlaying := false;
      trackNumber := 0;
      previousState := initial;
      previousGameScreen := NotRunningGame;
    }

    /** `Button_Click`. */
    method ButtonClick(sender: Option<string>, cwd: string, fs: FileSystem) returns (calls: seq<Call>)
      modifies this
      ensures (calls, Snapshot()) == ClickEffect(old(Snapshot()), sender, cwd, fs)
    {
      calls := [];
      if sender.None? {
        return;
      }
      var willPlaying := sender.value == "ON";
      if isPlaying == willPlaying {
        return;
      }
      var melody := MelodyFor(Snapshot(), cwd, fs);
      isPlaying := willPlaying;
      calls := [PlayerStop, SetJoukouSokusin(willPlaying)];
      if trackNumber <= 0 {
        return;
      }
      if willPlaying {
        calls := calls + [PlayerOpen(melody), PlayerPlay];
      } else {
        calls := calls + [PlayerOpen(MelodyPaths.DoorClosingFile(cwd, trackNumber)), PlayerPlay];
      }
    }

    /** `AudioLoop`, the handler the constructor attaches to the player's `MediaEnded`
        event; it is how the melody loops. While the switch is on, the file ending starts it
        again from the top; with the switch off (the door-closing clip, or nothing) it is
        left to end. */
    method AudioLoop() returns (calls: seq<Call>)
      ensures calls != [] <==> isPlaying
      ensures isPlaying ==> calls == [PlayerRewind, PlayerPlay]
    {
      calls := [];
      if !isPlaying {
        return;
      }
      calls := [PlayerRewind, PlayerPlay];
    }

    /** `Update`. */
    method Update(state: TrainState, screen: GameScreen) returns (calls: seq<Call>, o: Outcome)
      modifies this
      ensures (calls, o, Snapshot()) == UpdateEffect(old(Snapshot()), state, screen)
    {
      calls, o := Update2(state, screen);
      if o.Fail? {
        return;
      }
      previousState := state;
      previousGameScreen := screen;
    }

    /** `Update2`. */
    method Update2(state: TrainState, screen: GameScreen) returns (calls: seq<Call>, o: Outcome)
      modifies this
      ensures (calls, o, Snapshot()) == Update2Effect(old(Snapshot()), state, screen)
    {
      o := Pass;
      if screen == MainGame {
        var n := GetTrackNumber(state);
        if n.Err? {
          return [], Fail(n.error);
        }
        trackNumber := n.value;
        var stop := if trackNumber <= 0 && isPlaying then [PlayerStop] else [];
        calls := [SetButtonsEnabled(trackNumber > 0)] + stop;
      } else {
        calls := [SetButtonsEnabled(false)];
      }
      calls := calls + ScreenEdge(previousGameScreen, screen);
    }
  }
}
