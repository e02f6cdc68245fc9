# Traincrew departure-melody controller — a Dafny model

Traincrew_depMelody plays a station's departure melody in the train simulator Traincrew. When a
train stands at a platform with its doors open, the melody starts, either on the crew's request
or on its own in auto mode. When departure nears, the melody stops and the door-closing
announcement plays. The repository holds three generations of this controller, and this project
models the decision logic of all three.

* **Newest** (`Domain`, `Application`, `Infrastructure`):
  * value records: `AutoModeConfig`, `TrainState`, `MelodyState`, `SignalInfo`, `TrackInfo`, `AudioProfile`;
  * the tick-driven `AutoModeService`, which decides when to start and stop;
  * `MelodyControlService`, which starts the melody, stops it and waits for game time to settle
    before the announcement;
  * `AudioPlaybackService`, with its melody fallback and announcement skip rules, and the
    `MediaPlayerService` flag state machine;
  * the two CSV repositories, and the ffmpeg duration probe.
* **Middle** (`Service`, `Repository`):
  * `AutoModeService`, with its push-on/push-off window;
  * `MainService`, with screen edges and request filtering;
  * `MelodyPathService`, which chooses the file;
  * the circuit-set `TrackRepository`, and `FFmpegRepository`.
* **Oldest**: `AutoMode` schedules its pushes, and `MainWindow` provides the track-number
  heuristic, the button guard and the per-tick enable and stop logic.

Time is a `real` number of seconds, and `TimeSpan.MaxValue` is a separate `Never` value. The file
system is a map from path to lines, so a path exists when it is in the map. An ffmpeg run is a
value: it failed to start, it threw, or it exited with some standard-error text. Each exception
the source throws is an error value of a `Result` or `Outcome`, so no operation needs a
precondition to rule one out.

Where the source changes an object's fields, the model does too. Each such class has a method
whose contract names the new state, given as a pure "effect" function of the old state. Lemmas
about those functions state the behaviour the code promises. Collaborators are `const` fields, so
one service's frame never reaches into another's.

## Model

| member | source | states |
|---|---|---|
| AudioProfiles.NewAudioProfile | Traincrew_depMelody/Domain/Models/AudioProfile.cs:36-48 | a null station name, track number or melody path throws ArgumentNullException naming that parameter, checked in that order; otherwise the profile holds exactly the arguments, with both announcements optional |
| AudioProfiles.KeyAgreesWithTrack | Traincrew_depMelody/Domain/Models/AudioProfile.cs:53-56 | a profile and a track of the same station and track number have the same `station_track` key |
| AudioProfiles.AnnouncementByDirection | Traincrew_depMelody/Domain/Models/AudioProfile.cs:61-64 | an inbound train gets the up announcement and an outbound train the down one |
| AutoModeConfigs.DefaultValues | Traincrew_depMelody/Domain/Models/AutoModeConfig.cs:11-46 | a new configuration is disabled, waits 1.0 s after arrival and 0.5 s after the signal, keeps the melody at least 1.0 s and the doors 12.0 s, allows 3.0 s for the announcement, and uses margins of 8.5 s and 16.5 s |
| AutoModeConfigs.MarginByVehicle | Traincrew_depMelody/Domain/Models/AutoModeConfig.cs:51-54 | the margin is the 50000-series one exactly for limited-express stock, and the standard one otherwise |
| AutoModeConfigs.DefaultMarginExamples | Traincrew_depMelody.Tests/Domain/Models/AutoModeConfigTests.cs:8-48 | a ["50000", "50100"] train gets 16.5 s and an ["E233", "E235"] train gets 8.5 s |
| AutoModeConfigs.MarginOnlyByVehicleTypes | Traincrew_depMelody/Domain/Models/AutoModeConfig.cs:51-54 | two trains with the same vehicle types get the same margin |
| AutoModeConfigs.WithEnabledKeepsThresholds | Traincrew_depMelody/Application/Services/AutoModeService.cs:57-88 | starting or stopping auto mode keeps every threshold and margin |
| MelodyStates.WithNothingIsIdentity | Traincrew_depMelody/Domain/Models/MelodyState.cs:36-51 | `With()` with no arguments gives an equal state |
| MelodyStates.WithOverridesOrKeeps | Traincrew_depMelody/Domain/Models/MelodyState.cs:36-51 | field by field, a given argument replaces the field and an omitted one keeps it |
| MelodyStates.WithPlayingOnly | Traincrew_depMelody/Domain/Models/MelodyState.cs:36-51 | `With(isPlaying: b)` changes only IsPlaying |
| MelodyStates.WithNeverClears | Traincrew_depMelody/Domain/Models/MelodyState.cs:36-51 | a set melody path, track or start time survives any `With`, because null means "keep" |
| MelodyStates.WithIdempotent | Traincrew_depMelody/Domain/Models/MelodyState.cs:36-51 | applying the same update twice equals applying it once |
| SignalInfos.OpenIffProceed | Traincrew_depMelody/Domain/Models/SignalInfo.cs:16-31 | a signal is open exactly when it shows Proceed; Stop is never open |
| SignalInfos.OpenIgnoresOpenedAt | Traincrew_depMelody/Domain/Models/SignalInfo.cs:16-21 | the opening instant plays no part in `IsOpen` |
| TrackInfos.NewTrackInfo | Traincrew_depMelody/Domain/Models/TrackInfo.cs:26-31 | a null station name, track number or circuit list throws ArgumentNullException naming that parameter, checked in that order; otherwise the track holds exactly the arguments |
| TrackInfos.ContainsCircuitIffMember | Traincrew_depMelody/Domain/Models/TrackInfo.cs:36-39 | `ContainsCircuit` holds exactly when some listed circuit equals the id |
| TrackInfos.KeyShape | Traincrew_depMelody/Domain/Models/TrackInfo.cs:44-47 | the key is the station name, one underscore and the track number, in that layout |
| TrackInfos.StationKeyInjective | Traincrew_depMelody/Domain/Models/TrackInfo.cs:44-47 | for station names without an underscore, equal keys mean equal station and track |
| TrackInfos.StationKeyCollision | Traincrew_depMelody/Domain/Models/TrackInfo.cs:44-47 | station "a_b" track "1" and station "a" track "b_1" share a key |
| TrainStates.StoppedIffSlow | Traincrew_depMelody/Domain/Models/TrainState.cs:36 | stopped exactly when the speed is below 0.1 |
| TrainStates.NoNumberNotInbound | Traincrew_depMelody/Domain/Models/TrainState.cs:41-43 | a null or empty train number is never inbound |
| TrainStates.InboundByLastDigit | Traincrew_depMelody/Domain/Models/TrainState.cs:41-47 | a number ending in a digit is inbound exactly when that digit is even |
| TrainStates.NonDigitSuffixOutbound | Traincrew_depMelody/Domain/Models/TrainState.cs:46-49 | a number ending in a non-digit is outbound |
| TrainStates.InboundExamples | Traincrew_depMelody.Tests/Domain/Models/TrainStateTests.cs:38-89 | "1234" is inbound; "1235", "123A" and a null number are not |
| TrainStates.LimitedExpressWitness | Traincrew_depMelody/Domain/Models/TrainState.cs:55-58 | one vehicle type starting with "50000" makes the train limited-express stock |
| TrainStates.NoVehiclesNotLimitedExpress | Traincrew_depMelody/Domain/Models/TrainState.cs:55-58 | with no vehicle types the train is not limited-express stock |
| AutoModeServices.StartTargetNotAfterStopTarget | Traincrew_depMelody/Application/Services/AutoModeService.cs:208-259 | for a melody of non-negative length the start target is never after the stop target, and they are exactly the melody's length apart |
| AutoModeServices.DefaultStopLeads | Traincrew_depMelody/Application/Services/AutoModeService.cs:254-261 | with the default thresholds a 50000-series train stops its melody 19.5 s before departure and any other train 11.5 s before |
| AutoModeServices.TimesKeptOnceSet | Traincrew_depMelody/Application/Services/AutoModeService.cs:140-159 | over any run of the recording steps alone, an arrival, signal-open or door-open time once recorded is never overwritten |
| AutoModeServices.TimesKeptAtPlatform | Traincrew_depMelody/Application/Services/AutoModeService.cs:129-162 | over any run of ticks that stays at the platform, an arrival, signal-open or door-open time once recorded is kept; only a tick away from every platform clears it |
| AutoModeServices.ArrivalIsDoorEdge | Traincrew_depMelody/Application/Services/AutoModeService.cs:140-162 | after a reset, the recorded arrival time is that of a reading with the doors open whose previous reading had them closed (or of the first reading) |
| AutoModeServices.AtMostOneStartPerDwell | Traincrew_depMelody/Application/Services/AutoModeService.cs:179-228 | while the train stays at a platform the melody is started at most once (never, if already triggered), and the trigger is armed exactly when it was before or a start happened |
| AutoModeServices.LeavingRearms | Traincrew_depMelody/Application/Services/AutoModeService.cs:129-135 | a tick away from every platform clears the record, so the next stop can start the melody again |
| AutoModeServices.AutoModeService.constructor | Traincrew_depMelody/Application/Services/AutoModeService.cs:29-41 | a new service is disabled with default thresholds, no timer and an empty record |
| AutoModeServices.AutoModeService.IsEnabled | Traincrew_depMelody/Application/Services/AutoModeService.cs:43-52 | returns the configuration's enabled flag |
| AutoModeServices.AutoModeService.Start | Traincrew_depMelody/Application/Services/AutoModeService.cs:57-70 | enables the configuration keeping its thresholds, and starts a timer; a timer already running is replaced without being disposed (counted as orphaned); the record is kept |
| AutoModeServices.AutoModeService.Stop | Traincrew_depMelody/Application/Services/AutoModeService.cs:75-88 | disables the configuration keeping its thresholds, disposes of the timer and keeps the record |
| AutoModeServices.AutoModeService.GetConfig | Traincrew_depMelody/Application/Services/AutoModeService.cs:93-99 | returns the current configuration |
| AutoModeServices.AutoModeService.UpdateConfig | Traincrew_depMelody/Application/Services/AutoModeService.cs:104-110 | replaces the whole configuration, the enabled flag included, and nothing else |
| AutoModeServices.AutoModeService.ResetState | Traincrew_depMelody/Application/Services/AutoModeService.cs:278-286 | clears all recorded times, the trigger and the previous door state, and nothing else |
| AutoModeServices.AutoModeService.TickFollowsStep | Traincrew_depMelody/Application/Services/AutoModeService.cs:115-174 | a tick whose requests complete moves the record exactly as the abstract step does, and requests a start exactly when the step fires, so the run lemmas hold of the service |
| AutoModeServices.AutoModeService.StartedTickDoesNotStop | Traincrew_depMelody/Application/Services/AutoModeService.cs:164-248 | with a positive minimum melody duration, a tick that starts the melody never also stops it |
| AutoModeServices.AutoModeService.OnEffectMade | Traincrew_depMelody/Application/Services/AutoModeService.cs:222-228 | a start that was made records its game time and arms the trigger; an on check that makes no start leaves the record unchanged |
| AutoModeServices.AutoModeService.NoDepartureNoStop | Traincrew_depMelody/Application/Services/AutoModeService.cs:244-271 | with no departure time the auto mode never stops the melody |
| AutoModeServices.AutoModeService.ScheduleAfterLoad | Traincrew_depMelody/Application/Services/AutoModeService.cs:203-219 | the timetable-based start time is the same whether or not the track and profile tables were already loaded |
| AutoModeServices.AutoModeService.OnEffectAfterLoad | Traincrew_depMelody/Application/Services/AutoModeService.cs:179-229 | the on check is the same whether or not the track table was already loaded |
| AutoModeServices.AutoModeService.OffEffectAfterLoad | Traincrew_depMelody/Application/Services/AutoModeService.cs:234-273 | the off check is the same whether or not the profile table was already loaded |
| AutoModeServices.AutoModeService.ChecksEffectAfterLoad | Traincrew_depMelody/Application/Services/AutoModeService.cs:164-168 | the two checks together are the same whether or not the track table was already loaded |
| AutoModeServices.AutoModeService.TimetableStart | Traincrew_depMelody/Application/Services/AutoModeService.cs:203-220 | condition 3's start time: none without a departure time, a circuit or a matching track; otherwise departure less melody length, announcement and margin; exceptions from the lookup or the probe are passed on |
| AutoModeServices.AutoModeService.TargetFor | Traincrew_depMelody/Application/Services/AutoModeService.cs:206-212 | with a known track, the start time is the departure less the melody's duration, the announcement duration and the vehicle's margin; a failed duration read throws |
| AutoModeServices.AutoModeService.CheckMelodyOn | Traincrew_depMelody/Application/Services/AutoModeService.cs:179-229 | nothing once triggered; otherwise a start is requested exactly when arrival + 1 s, signal + 0.5 s or the timetable target has passed, and a completed start records its game time and arms the trigger |
| AutoModeServices.AutoModeService.OnFired | Traincrew_depMelody/Application/Services/AutoModeService.cs:222-228 | once a start is due, the on check's result is the start's, with the record marked started when it completes |
| AutoModeServices.AutoModeService.Fire | Traincrew_depMelody/Application/Services/AutoModeService.cs:222-228 | the start request, and on completion the start time and trigger; a start that throws leaves the record unchanged |
| AutoModeServices.AutoModeService.CheckMelodyOff | Traincrew_depMelody/Application/Services/AutoModeService.cs:234-273 | a stop is requested exactly when triggered, playing, past the minimum melody and door-open durations, and at or after departure less announcement and margin; otherwise nothing changes |
| AutoModeServices.AutoModeService.CheckAndExecute | Traincrew_depMelody/Application/Services/AutoModeService.cs:115-174 | skipped unless enabled, the crew is the driver and the game is playing; an off-platform tick clears the record; otherwise the times are captured and both checks run; a throwing step ends the tick and is swallowed; skipped ticks touch nothing |
| AutoModeServices.AutoModeService.CaptureTimes | Traincrew_depMelody/Application/Services/AutoModeService.cs:140-162 | records arrival on a closed-to-open door edge, signal-open on an open signal and door-open on open doors, each only when not yet set, then remembers the door state |
| AutoModeServices.AutoModeService.RunChecks | Traincrew_depMelody/Application/Services/AutoModeService.cs:164-168 | the on check and, unless it threw, the off check |
| AudioPlayback.MelodyFallback | Traincrew_depMelody/Application/Services/AudioPlaybackService.cs:44-71 | an existing profile melody is looped; without a profile, or when its file is missing, the default melody is looped if it exists and FileNotFound for the default is thrown otherwise; a chosen file whose path is not absolute throws UriFormatException instead of playing; whatever is looped exists and has an absolute path |
| AudioPlayback.RelativeDefaultThrows | Traincrew_depMelody/Application/Services/AudioPlaybackService.cs:152-155 | with the default `.\Audio` directory the default melody path is relative, so falling back to it throws UriFormatException even when the file exists |
| AudioPlayback.DurationProbesPlayedFile | Traincrew_depMelody/Application/Services/AudioPlaybackService.cs:134-145 | whenever the melody can be played, the duration is probed on the very file that is looped |
| AudioPlayback.AnnouncementRules | Traincrew_depMelody/Application/Services/AudioPlaybackService.cs:84-111 | an announcement is played exactly when there is a profile whose path for the direction is set, non-empty and exists, and it is the up path for inbound trains and the down path otherwise |
| AudioPlayback.DurationOrDefault | Traincrew_depMelody/Application/Services/AudioPlaybackService.cs:145-146 | the duration is the probe's when it read one and 30 seconds otherwise, never negative |
| AudioPlayback.AudioPlaybackService.constructor | Traincrew_depMelody/Application/Services/AudioPlaybackService.cs:20-39 | two fresh players, both stopped with nothing loaded at volume 0.5 |
| AudioPlayback.AudioPlaybackService.DurationResult | Traincrew_depMelody/Application/Services/AudioPlaybackService.cs:134-147 | the melody duration is never negative; a failed profile lookup is passed on |
| AudioPlayback.AudioPlaybackService.ResultsAfterLoad | Traincrew_depMelody/Application/Services/AudioPlaybackService.cs:47-47 | the melody, announcement and duration results are the same whether or not the profile table was already loaded |
| AudioPlayback.AudioPlaybackService.PlayMelody | Traincrew_depMelody/Application/Services/AudioPlaybackService.cs:44-71 | loads the profile table; returns the lookup's, the fallback's or the player's exception, or completes; the melody player is changed exactly as `PlayLoopAsync` on the chosen file changes it, and untouched when the lookup or the fallback throws |
| AudioPlayback.AudioPlaybackService.MelodyPlayerCases | Traincrew_depMelody/Application/Services/AudioPlaybackService.cs:44-71 | the melody player starts looping exactly when playback succeeds, is untouched when the lookup or fallback throws, and keeps only the new path and loop flag when the path is relative |
| AudioPlayback.AudioPlaybackService.StopMelody | Traincrew_depMelody/Application/Services/AudioPlaybackService.cs:76-79 | stops the melody player, leaving the announcement player alone |
| AudioPlayback.AudioPlaybackService.PlayDoorCloseAnnouncement | Traincrew_depMelody/Application/Services/AudioPlaybackService.cs:84-111 | loads the profile table; a skipped announcement leaves the player untouched; otherwise the chosen file is handed to `PlayOnceAsync`, whose exception for a relative path is returned with the path and loop flag already set |
| AudioPlayback.AudioPlaybackService.AnnouncementPlayerCases | Traincrew_depMelody/Application/Services/AudioPlaybackService.cs:84-111 | the announcement player plays exactly the file the result names, is untouched on a skip or failed lookup, and keeps only the new path and flag on a relative path |
| AudioPlayback.AudioPlaybackService.PauseAll | Traincrew_depMelody/Application/Services/AudioPlaybackService.cs:116-120 | pauses both players |
| AudioPlayback.AudioPlaybackService.ResumeAll | Traincrew_depMelody/Application/Services/AudioPlaybackService.cs:125-129 | resumes both players |
| AudioPlayback.AudioPlaybackService.GetMelodyDuration | Traincrew_depMelody/Application/Services/AudioPlaybackService.cs:134-147 | loads the profile table and returns the probed duration of the played file, 30 s when unreadable, never negative |
| AudioProfileRepositories.FindResultAfterLoad | Traincrew_depMelody/Infrastructure/Repositories/AudioProfileRepository.cs:36-68 | looking a profile up gives the same answer whether or not the dictionary was already loaded |
| AudioProfileRepositories.FoundProfileHasKey | Traincrew_depMelody/Infrastructure/Repositories/AudioProfileRepository.cs:36-45 | a profile found for a station and track carries exactly that station_track key |
| AudioProfileRepositories.EnsureLoadedIdempotent | Traincrew_depMelody/Infrastructure/Repositories/AudioProfileRepository.cs:60-68 | loading on demand twice is the same as loading once |
| AudioProfileRepositories.StoredUnderOwnKey | Traincrew_depMelody/Infrastructure/Repositories/AudioProfileRepository.cs:115-116 | every loaded profile is stored under its own station_track key |
| AudioProfileRepositories.KeyPresentIffSomeRow | Traincrew_depMelody/Infrastructure/Repositories/AudioProfileRepository.cs:92-117 | a key is in the loaded dictionary exactly when some data row parsed to a profile with that key |
| AudioProfileRepositories.LaterRowWins | Traincrew_depMelody/Infrastructure/Repositories/AudioProfileRepository.cs:116-116 | a later row for the same station and track replaces an earlier one |
| AudioProfileRepositories.LaterOtherRowKeeps | Traincrew_depMelody/Infrastructure/Repositories/AudioProfileRepository.cs:116-116 | a row with a different key, or a skipped row, leaves an entry (and an absence) as it was |
| AudioProfileRepositories.LookupMatches | Traincrew_depMelody/Infrastructure/Repositories/AudioProfileRepository.cs:40-44 | a lookup only ever returns the profile stored for the requested station_track key |
| AudioProfileRepositories.FormatThenParse | Traincrew_depMelody/Infrastructure/Repositories/AudioProfileRepository.cs:95-115 | a profile with clean fields written as a CSV row parses back to the same profile |
| AudioProfileRepositories.FieldsRoundTrip | Traincrew_depMelody/Infrastructure/Repositories/AudioProfileRepository.cs:108-113 | fields 3 and 4 of a written row read back as the down and up announcement paths, absent paths as null |
| AudioProfileRepositories.ParseRows | Traincrew_depMelody/Infrastructure/Repositories/AudioProfileRepository.cs:91-113 | one result per data row, in order, each row read on its own by the per-line rules |
| AudioProfileRepositories.ReadRow | Traincrew_depMelody/Infrastructure/Repositories/AudioProfileRepository.cs:94-115 | a row is skipped when blank or with fewer than three comma fields; otherwise the trimmed station, track and melody, and the trimmed fields 3 and 4 with empty read as null |
| AudioProfileRepositories.AudioProfileRepository.constructor | Traincrew_depMelody/Infrastructure/Repositories/AudioProfileRepository.cs:11-18 | the dictionary starts empty |
| AudioProfileRepositories.AudioProfileRepository.LoadCsv | Traincrew_depMelody/Infrastructure/Repositories/AudioProfileRepository.cs:73-131 | a missing file throws FileNotFound and keeps the dictionary; otherwise the data rows after the header replace it |
| AudioProfileRepositories.AudioProfileRepository.Reload | Traincrew_depMelody/Infrastructure/Repositories/AudioProfileRepository.cs:51-55 | the same as a load from the file |
| AudioProfileRepositories.AudioProfileRepository.EnsureLoaded | Traincrew_depMelody/Infrastructure/Repositories/AudioProfileRepository.cs:60-68 | a non-empty dictionary is kept; an empty one is loaded from the file, and a missing file throws |
| AudioProfileRepositories.AudioProfileRepository.FindProfile | Traincrew_depMelody/Infrastructure/Repositories/AudioProfileRepository.cs:36-46 | loads on demand, then returns the entry under station_track or null; a failed load is passed on |
| TrackRepositories.NonEmptyTrimmedClean | Traincrew_depMelody/Infrastructure/Repositories/TrackRepository.cs:107-112 | every circuit kept is non-empty and already trimmed |
| TrackRepositories.TrimIdempotent | Traincrew_depMelody/Infrastructure/Repositories/TrackRepository.cs:104-110 | trimming a trimmed field changes nothing |
| TrackRepositories.ParsedTrackClean | Traincrew_depMelody/Infrastructure/Repositories/TrackRepository.cs:94-114 | a parsed track has trimmed station and track names and only non-empty trimmed circuits |
| TrackRepositories.FirstWithCircuitSpec | Traincrew_depMelody/Infrastructure/Repositories/TrackRepository.cs:24-32 | the lookup finds nothing exactly when no track holds the circuit, and otherwise the first track in file order that holds it |
| TrackRepositories.FirstWithCircuitIsFirst | Traincrew_depMelody/Infrastructure/Repositories/TrackRepository.cs:30-30 | when track k is the first to hold the circuit, the lookup returns track k |
| TrackRepositories.AnyCircuitAtStation | Traincrew_depMelody/Infrastructure/Repositories/TrackRepository.cs:52-52 | true exactly when some given circuit is held by some track |
| TrackRepositories.NoCircuitsNotAtStation | Traincrew_depMelody/Infrastructure/Repositories/TrackRepository.cs:46-53 | an empty circuit list is never at a platform |
| TrackRepositories.FoundIffAtStation | Traincrew_depMelody/Infrastructure/Repositories/TrackRepository.cs:24-53 | a single circuit is found by the lookup exactly when it counts as at a platform |
| TrackRepositories.EnsureLoadedIdempotent | Traincrew_depMelody/Infrastructure/Repositories/TrackRepository.cs:59-67 | loading on demand twice is the same as loading once |
| TrackRepositories.ParseTracksAppend | Traincrew_depMelody/Infrastructure/Repositories/TrackRepository.cs:91-116 | rows are parsed independently: parsing a concatenation concatenates the tracks in order |
| TrackRepositories.SkippedRowIgnored | Traincrew_depMelody/Infrastructure/Repositories/TrackRepository.cs:94-102 | a blank row or one with fewer than three comma fields contributes nothing and does not disturb the rows around it |
| TrackRepositories.HeaderDiscarded | Traincrew_depMelody/Infrastructure/Repositories/TrackRepository.cs:88-89 | the first line is dropped as the header, whatever it holds |
| TrackRepositories.NonEmptyTrimmedKeeps | Traincrew_depMelody/Infrastructure/Repositories/TrackRepository.cs:107-112 | non-empty trimmed circuit fields all pass through the filter unchanged |
| TrackRepositories.FormatThenParse | Traincrew_depMelody/Infrastructure/Repositories/TrackRepository.cs:93-115 | a track with clean fields and at least one circuit, written as a CSV row, parses back to the same track |
| TrackRepositories.CollectCircuits | Traincrew_depMelody/Infrastructure/Repositories/TrackRepository.cs:107-112 | the loop keeps the trimmed non-empty fields from the third on, in order |
| TrackRepositories.TrackRepository.constructor | Traincrew_depMelody/Infrastructure/Repositories/TrackRepository.cs:13-19 | the track list starts empty |
| TrackRepositories.TrackRepository.LoadCsv | Traincrew_depMelody/Infrastructure/Repositories/TrackRepository.cs:72-130 | a missing file throws FileNotFound and keeps the list; otherwise the parsed data rows replace it |
| TrackRepositories.TrackRepository.Reload | Traincrew_depMelody/Infrastructure/Repositories/TrackRepository.cs:37-41 | the same as a load from the file |
| TrackRepositories.TrackRepository.EnsureLoaded | Traincrew_depMelody/Infrastructure/Repositories/TrackRepository.cs:59-67 | a non-empty list is kept; an empty one is loaded from the file; it fails exactly when the list is empty and the file missing |
| TrackRepositories.TrackRepository.FindTrackByCircuitId | Traincrew_depMelody/Infrastructure/Repositories/TrackRepository.cs:24-32 | loads on demand, fails exactly when that load fails, and otherwise returns the first track holding the circuit |
| TrackRepositories.TrackRepository.IsAnyCircuitAtStation | Traincrew_depMelody/Infrastructure/Repositories/TrackRepository.cs:46-54 | loads on demand, fails exactly when that load fails, and otherwise tells whether any given circuit is at a platform |
| MediaPlayers.Clamp | Traincrew_depMelody/Infrastructure/AudioServices/MediaPlayerService.cs:16-20 | the volume always lies in [0, 1]; a value inside is kept, one below becomes 0 and one above becomes 1 |
| MediaPlayers.TransitionsKeepValid | Traincrew_depMelody/Infrastructure/AudioServices/MediaPlayerService.cs:32-121 | every operation, a failed open included, keeps a looping player holding a file; every operation except an open that throws on a relative path also keeps a looping player reporting itself playing |
| MediaPlayers.PlayCases | Traincrew_depMelody/Infrastructure/AudioServices/MediaPlayerService.cs:32-73 | a play succeeds exactly on an existing file with an absolute path and then plays it; a missing file throws FileNotFound and changes nothing; a relative path throws UriFormatException after the path and loop flag are set, leaving IsPlaying as it was |
| MediaPlayers.RelativeLoopLeavesInconsistent | Traincrew_depMelody/Infrastructure/AudioServices/MediaPlayerService.cs:40-46 | looping an existing relative path on a stopped player leaves it looping but not playing |
| MediaPlayers.StartedFlags | Traincrew_depMelody/Infrastructure/AudioServices/MediaPlayerService.cs:32-73 | both plays mark the player playing the given file; only the loop play marks it looping |
| MediaPlayers.PauseResumeKeepFlags | Traincrew_depMelody/Infrastructure/AudioServices/MediaPlayerService.cs:89-102 | pause and resume leave the playing flag, looping flag and current file as they were |
| MediaPlayers.EndOfMedia | Traincrew_depMelody/Infrastructure/AudioServices/MediaPlayerService.cs:107-121 | at the end of the media a looping player plays again from the start with its IsPlaying unchanged (so still playing when it was), and any other player is no longer playing |
| MediaPlayers.ResumeAfterStop | Traincrew_depMelody/Infrastructure/AudioServices/MediaPlayerService.cs:78-102 | resuming a stopped player makes the underlying player sound again, on the file last opened, while the service still reports not playing |
| MediaPlayers.MediaPlayerService.constructor | Traincrew_depMelody/Infrastructure/AudioServices/MediaPlayerService.cs:22-27 | a new player is not playing, not looping, has no file and sits at volume 0.5 |
| MediaPlayers.MediaPlayerService.PlayLoop | Traincrew_depMelody/Infrastructure/AudioServices/MediaPlayerService.cs:32-50 | a missing file throws FileNotFound and changes nothing; a relative path throws UriFormatException once the path and loop flag are set; otherwise the file is opened and played, looping |
| MediaPlayers.MediaPlayerService.PlayOnce | Traincrew_depMelody/Infrastructure/AudioServices/MediaPlayerService.cs:55-73 | a missing file throws FileNotFound and changes nothing; a relative path throws UriFormatException once the path and the cleared loop flag are set; otherwise the file is opened and played once |
| MediaPlayers.MediaPlayerService.Stop | Traincrew_depMelody/Infrastructure/AudioServices/MediaPlayerService.cs:78-84 | the player stops and is neither playing nor looping |
| MediaPlayers.MediaPlayerService.Pause | Traincrew_depMelody/Infrastructure/AudioServices/MediaPlayerService.cs:89-93 | only the underlying player is paused |
| MediaPlayers.MediaPlayerService.Resume | Traincrew_depMelody/Infrastructure/AudioServices/MediaPlayerService.cs:98-102 | only the underlying player is resumed |
| MediaPlayers.MediaPlayerService.OnMediaEnded | Traincrew_depMelody/Infrastructure/AudioServices/MediaPlayerService.cs:107-121 | a looping player with a file rewinds and plays on; any other is marked not playing |
| MediaPlayers.MediaPlayerService.SetVolume | Traincrew_depMelody/Infrastructure/AudioServices/MediaPlayerService.cs:16-20 | sets the volume to the clamped value and changes nothing else |
| MelodyControl.StartTrackAfterLoad | Traincrew_depMelody/Application/Services/MelodyControlService.cs:57-65 | the station check and the track chosen for a start are the same whether or not the track table was already loaded |
| MelodyControl.StartTrackSound | Traincrew_depMelody/Application/Services/MelodyControlService.cs:57-70 | a track chosen for a start holds the first current circuit and comes from the loaded table |
| MelodyControl.StartTrackFirstCircuit | Traincrew_depMelody/Application/Services/MelodyControlService.cs:64-70 | with a non-empty circuit list, a track is chosen exactly when the first circuit is at a platform |
| MelodyControl.SecondCircuitIgnored | Traincrew_depMelody/Application/Services/MelodyControlService.cs:57-70 | a train whose second circuit is at a platform but whose first is not passes the station check yet plays nothing |
| MelodyControl.SettleIndex | Traincrew_depMelody/Application/Services/MelodyControlService.cs:129-137 | the wait ends at the first sample at or after the target game time, and never ends when no later sample reaches it |
| MelodyControl.Settled | Traincrew_depMelody/Application/Services/MelodyControlService.cs:124-137 | the wait after stopping ends on a later sample at least one game second after the first one |
| MelodyControl.TransitionFields | Traincrew_depMelody/Application/Services/MelodyControlService.cs:81-86 | a start sets playing, the track, the start time and announcement-not-played, keeping the path; a stop clears only playing; the announcement sets only its flag |
| MelodyControl.StartStopCycle | Traincrew_depMelody/Application/Services/MelodyControlService.cs:81-149 | start, stop and announce leaves the record not playing with the track, start time and announcement flag set; starting again restores the started record |
| MelodyControl.WaitForGameTime | Traincrew_depMelody/Application/Services/MelodyControlService.cs:124-137 | the polling loop stops at the first sample whose game time reaches the target, if any |
| MelodyControl.EventAfterStopRestartsPlayer | Traincrew_depMelody/Application/Services/MelodyControlService.cs:177-183 | every non-pausing game-state event resumes the underlying melody player, so after a stop it sounds again on the last file while the service reports not playing |
| MelodyControl.MelodyControlService.constructor | Traincrew_depMelody/Application/Services/MelodyControlService.cs:17-32 | the melody record starts not playing, with nothing set |
| MelodyControl.MelodyControlService.StartEffectAfterLoad | Traincrew_depMelody/Application/Services/MelodyControlService.cs:37-88 | the start's effect is the same whether or not the track and profile tables were already loaded |
| MelodyControl.MelodyControlService.StopEffectAfterLoad | Traincrew_depMelody/Application/Services/MelodyControlService.cs:93-151 | the stop's effect is the same whether or not the profile table was already loaded |
| MelodyControl.MelodyControlService.EffectsOnPlaying | Traincrew_depMelody/Application/Services/MelodyControlService.cs:37-151 | a start makes the record playing only when it completes and changes something, and a new start clears the announcement flag and records the current game time; a stop of a playing melody with a track leaves it not playing, sets the announcement flag exactly when the announcement step ran, and keeps track and start time |
| MelodyControl.MelodyControlService.StartMelody | Traincrew_depMelody/Application/Services/MelodyControlService.cs:37-88 | nothing when already playing; nothing without circuits, off a platform or with no track for the first circuit; otherwise the melody is looped and the record marks it started at the current game time, and an exception leaves the record as it was |
| MelodyControl.MelodyControlService.StopMelody | Traincrew_depMelody/Application/Services/MelodyControlService.cs:93-151 | nothing when not playing or without a track; otherwise the melody player stops, the record is marked stopped, and once the game clock has advanced one second the announcement for the sampled direction is played and the flag set |
| MelodyControl.MelodyControlService.GetCurrentState | Traincrew_depMelody/Application/Services/MelodyControlService.cs:156-162 | returns the melody record |
| MelodyControl.MelodyControlService.IsUiEnabled | Traincrew_depMelody/Application/Services/MelodyControlService.cs:167-172 | true exactly when a current circuit is at a platform and the game is playing; a failed table load is passed on |
| MelodyControl.MelodyControlService.OnGameStateChanged | Traincrew_depMelody/Application/Services/MelodyControlService.cs:177-197 | pauses both players on the pause screen and resumes them otherwise; off a platform a playing melody is stopped and marked stopped; a failed station check is returned after the pause or resume |
| DurationPattern.FirstMatchIsLeftmost | Traincrew_depMelody/Infrastructure/ExternalServices/FFmpegService.cs:54-54 | the match found is an occurrence of the duration pattern, no earlier position matches, and no position at all matches when none is found |
| DurationPattern.TwoDigits | Traincrew_depMelody/Infrastructure/ExternalServices/FFmpegService.cs:62-63 | a two-digit field reads as a number of at most 99 |
| DurationPattern.Fields.TotalSeconds | Traincrew_depMelody/Infrastructure/ExternalServices/FFmpegService.cs:62-66 | hours, minutes and SS.cc add up to a non-negative number of seconds no larger than 99:99:99.99 allows |
| DurationPattern.FieldsAt | Traincrew_depMelody/Infrastructure/ExternalServices/FFmpegService.cs:62-64 | the captured fields of an occurrence are each at most 99 |
| DurationPattern.DurationTextRoundTrip | Traincrew_depMelody/Infrastructure/ExternalServices/FFmpegService.cs:54-64 | a duration line written from two-digit fields, whatever text surrounds it, is matched at its position and reads back as the same fields |
| FFmpegServices.GetAudioDuration | Traincrew_depMelody/Infrastructure/ExternalServices/FFmpegService.cs:24-76 | a missing file, a process that fails to start or an exception gives null; a duration read is non-negative and bounded |
| FFmpegServices.ReadsDurationLine | Traincrew_depMelody/Infrastructure/ExternalServices/FFmpegService.cs:43-69 | for an existing file whose ffmpeg output starts with a duration line, the result is that line's total seconds |
| FFmpegServices.ExampleDuration | Traincrew_depMelody/Infrastructure/ExternalServices/FFmpegService.cs:53-69 | "Duration: 00:03:25.50" reads as 205.5 seconds |
| FFmpegRepositories.GetDuration | Traincrew_depMelody/Repository/FFmpegRepository.cs:14-43 | a process that fails to start or throws lets the exception out; output without a duration line gives 0.0; a duration read is non-negative and bounded |
| FFmpegRepositories.SameSeconds | Traincrew_depMelody/Repository/FFmpegRepository.cs:37-42 | the TimeSpan built from hours, minutes, seconds and ten times the centiseconds as milliseconds has the same total seconds as the newer reader's sum |
| FFmpegRepositories.AgreesWithService | Traincrew_depMelody/Repository/FFmpegRepository.cs:14-43 | on an existing file whose process ran, the older reader gives the newer reader's duration, and 0.0 where the newer gives null |
| MelodyPaths.EffectivePlatform | Traincrew_depMelody/Service/MelodyPathService.cs:34-38 | at 館浜 any train but a limited express (特急) uses the next platform number; everywhere else the number is kept |
| MelodyPaths.MelodyFlagGivesMelody | Traincrew_depMelody/Service/MelodyPathService.cs:9-39 | with the flag set, the station's own melody file for the effective platform when it exists, else sound\default.wav |
| MelodyPaths.ClosingFlagGivesDoorClosing | Traincrew_depMelody/Service/MelodyPathService.cs:17-39 | with the flag clear, sound\doorClosing_N.wav for the effective platform N, whatever files exist |
| MelodyPaths.DoorClosingIgnoresStation | Traincrew_depMelody/Service/MelodyPathService.cs:17-20 | away from 館浜 the door-closing clip depends only on the platform number |
| MelodyPaths.DirectionIgnored | Traincrew_depMelody/Service/MelodyPathService.cs:9-20 | the up/down flag never changes either path |
| MelodyPaths.FlagAgainstTests | Traincrew_depMelody.Tests/Service/MelodyPathServiceTests.cs:59-83 | the code gives a melody file, not doorClosing_1.wav, for 駒野 platform 1 with the flag set, which the tests expect to give doorClosing_1.wav; with the flag clear it gives doorClosing_1.wav |
| LegacyAutoModeServices.MarginFor | Traincrew_depMelody/Service/AutoModeService.cs:51-51 | the margin is 16.5 s exactly when the leading car is a 50000, and 8.5 s otherwise (no cars included) |
| LegacyAutoModeServices.Max3 | Traincrew_depMelody/Service/AutoModeService.cs:106-125 | the largest of three values: at least each of them and equal to one of them |
| LegacyAutoModeServices.WindowNonEmpty | Traincrew_depMelody/Service/AutoModeService.cs:106-125 | the OFF instant is at least one second after the ON instant, and ON is no earlier than 2 s after arrival and 1 s after the signal opened |
| LegacyAutoModeServices.StampsOnlyOnEdges | Traincrew_depMelody/Service/AutoModeService.cs:76-85 | arrival is stamped only when the doors go from all closed to open, and signal-open only when a signal opens while the doors are open; otherwise both stamps are kept |
| LegacyAutoModeServices.ElapseFrame | Traincrew_depMelody/Service/AutoModeService.cs:71-132 | an elapse step changes nothing but the two stamps and the two probed lengths |
| LegacyAutoModeServices.ProbeKeepsStamps | Traincrew_depMelody/Service/AutoModeService.cs:134-140 | probing the lengths changes only the melody and door-closing lengths |
| LegacyAutoModeServices.OffWhenNotReady | Traincrew_depMelody/Service/AutoModeService.cs:88-103 | off a platform the answer is Off; with the doors all closed or no signal open a successful answer is Off |
| LegacyAutoModeServices.OnIffInWindow | Traincrew_depMelody/Service/AutoModeService.cs:57-132 | a successful answer is On exactly when on a platform with doors open, a signal open and the clock inside the ON window, never NotChanged, and the playing flag follows it |
| LegacyAutoModeServices.ProbedOnArrival | Traincrew_depMelody/Service/AutoModeService.cs:93-97 | the lengths are probed only on the first tick on a platform, with ffmpeg on the melody path and on the door-closing path; other ticks keep them |
| LegacyAutoModeServices.RemembersTick | Traincrew_depMelody/Service/AutoModeService.cs:50-67 | the margin is set from the leading car, and a successful tick remembers the platform number (-1 off a platform), the door state and the signal state |
| LegacyAutoModeServices.AutoModeService.constructor | Traincrew_depMelody/Service/AutoModeService.cs:26-34 | the fields start at their reset values with the 8.5 s margin |
| LegacyAutoModeServices.AutoModeService.Reset | Traincrew_depMelody/Service/AutoModeService.cs:36-46 | every field but the margin returns to its start value |
| LegacyAutoModeServices.AutoModeService.GetButtonState | Traincrew_depMelody/Service/AutoModeService.cs:48-69 | sets the margin, looks the circuit set up, elapses, updates the playing flag from the answer and remembers the tick; a probe that throws or a station index out of range ends the call with the exception |
| LegacyAutoModeServices.AutoModeService.Elapse | Traincrew_depMelody/Service/AutoModeService.cs:71-132 | stamps the edges, answers Off off a platform, probes the lengths on arrival, and then decides from the window |
| LegacyAutoModeServices.AutoModeService.Decision | Traincrew_depMelody/Service/AutoModeService.cs:99-131 | Off with doors closed or no signal open, an exception for a bad station index, otherwise On exactly inside the ON window |
| LegacyAutoModeServices.AutoModeService.SetMelodyDuration | Traincrew_depMelody/Service/AutoModeService.cs:134-140 | probes the melody path and then the door-closing path and stores both lengths; a throwing probe stops there |
| LegacyTrackRepositories.KeyMembers | Traincrew_depMelody/Repository/TrackRepository.cs:44-61 | the key never holds the empty string, holds a non-empty circuit 1, holds なし only when circuit 1 is なし, and holds nothing but the row's circuits |
| LegacyTrackRepositories.KeySize | Traincrew_depMelody/Repository/TrackRepository.cs:44-61 | a key has at most three circuits |
| LegacyTrackRepositories.LoadFailsOnDuplicate | Traincrew_depMelody/Repository/TrackRepository.cs:62-62 | a failed load always fails with the duplicate-key exception |
| LegacyTrackRepositories.DistinctSnoc | Traincrew_depMelody/Repository/TrackRepository.cs:35-63 | distinct keys for rows plus one more means distinct keys for the rows and a new key for the last row |
| LegacyTrackRepositories.LoadPassesIffDistinct | Traincrew_depMelody/Repository/TrackRepository.cs:35-63 | loading completes exactly when no row's key is already present and no two rows share a key |
| LegacyTrackRepositories.LoadContents | Traincrew_depMelody/Repository/TrackRepository.cs:43-62 | a completed load maps every row's key to that row's station and platform |
| LegacyTrackRepositories.LoadDomain | Traincrew_depMelody/Repository/TrackRepository.cs:35-63 | a completed load keeps every earlier entry and adds nothing but the rows' keys |
| LegacyTrackRepositories.FailureStops | Traincrew_depMelody/Repository/TrackRepository.cs:35-63 | once a row throws, the rows after it are never added |
| LegacyTrackRepositories.TrackRepository.constructor | Traincrew_depMelody/Repository/TrackRepository.cs:19-24 | the dictionary starts empty before the file is loaded |
| LegacyTrackRepositories.TrackRepository.LoadTracksFromCsv | Traincrew_depMelody/Repository/TrackRepository.cs:26-64 | adds each row's key with its platform in order, stopping with the duplicate-key exception at the first key already present |
| LegacyTrackRepositories.TrackRepository.GetTrackByTrackCircuits | Traincrew_depMelody/Repository/TrackRepository.cs:66-69 | found exactly when the circuit set is a key, and then gives its entry |
| LegacyTrackRepositories.TrackRepository.FindsLoadedRow | Traincrew_depMelody/Repository/TrackRepository.cs:19-69 | after a load, a circuit set is found exactly when some row has that key, and then gives that row's station and platform, whatever the order of the circuits |
| LegacyTrackRepositories.TrackRepository.PlaceholderAndEmptyMiss | Traincrew_depMelody/Repository/TrackRepository.cs:44-68 | with no なし in circuit 1, a set holding なし is never found, and the empty set is found exactly when some row has no circuits |
| MainServices.StartResets | Traincrew_depMelody/Service/MainService.cs:25-28 | entering the game resets the audio first and sets auto mode exactly for a driver; when it enters on the pause screen the melody flag is cleared and the auto mode reset |
| MainServices.StopResets | Traincrew_depMelody/Service/MainService.cs:30-33 | leaving the game only resets the audio and remembers the screen |
| MainServices.PlayingNeverPausesOrResumes | Traincrew_depMelody/Service/MainService.cs:83-126 | the per-frame handler never pauses, resumes or resets the audio |
| MainServices.PauseResumeOnEdges | Traincrew_depMelody/Service/MainService.cs:35-43 | a tick pauses the audio exactly on entering the pause screen and resumes it exactly on returning from it to the game |
| MainServices.NoPlaybackOutsideMainGame | Traincrew_depMelody/Service/MainService.cs:45-48 | off the main game screen a tick plays nothing, always completes, and changes the melody flag only by a session start clearing it |
| MainServices.ButtonsEnabledOnPlatform | Traincrew_depMelody/Service/MainService.cs:86-96 | the buttons are first enabled exactly on a platform outside auto mode; off a platform nothing else happens |
| MainServices.FlipsOnlyOnChange | Traincrew_depMelody/Service/MainService.cs:98-125 | the melody flag flips exactly on a platform when the request succeeds and asks for a change; a flip plays the melody path when turned on and the door-closing path when turned off, and otherwise nothing is played |
| MainServices.RequestSource | Traincrew_depMelody/Service/MainService.cs:132-139 | in auto mode the request is the auto mode's answer; otherwise it is the window's and the auto mode is untouched |
| MainServices.RemembersScreen | Traincrew_depMelody/Service/MainService.cs:51-51 | a tick that completes remembers the current screen |
| MainServices.MainService.constructor | Traincrew_depMelody/Service/MainService.cs:8-19 | starts on NotRunningGame with the melody off and auto mode off |
| MainServices.MainService.Tick | Traincrew_depMelody/Service/MainService.cs:21-52 | the four screen-edge handlers in order, the per-frame handler on the main game screen, then the screen is remembered; an exception from the auto mode ends the tick |
| MainServices.MainService.OnStartGame | Traincrew_depMelody/Service/MainService.cs:62-70 | clears the melody flag, resets the auto mode and the audio, and sets auto mode exactly for a driver |
| MainServices.MainService.TickOnPlaying | Traincrew_depMelody/Service/MainService.cs:83-126 | enables the buttons from the platform lookup, gets the request, and on a real change flips the melody flag and plays the matching path |
| MainServices.MainService.GetButtonState | Traincrew_depMelody/Service/MainService.cs:132-139 | the auto mode's answer in auto mode, else the window's request |
| AutoModes.Max2 | Traincrew_depMelody/AutoMode.cs:98-104 | the larger of two values: at least each and equal to one of them |
| AutoModes.IdleOffPlatform | Traincrew_depMelody/AutoMode.cs:36-47 | when disabled or off a platform, a tick presses nothing and only remembers the track number |
| AutoModes.ArrivalSchedulesOn | Traincrew_depMelody/AutoMode.cs:49-53 | the first tick on a platform presses nothing, stores the reported melody and door-closing lengths and schedules ON at the later of one second from now and departure less both lengths and the 8.5 s margin, which is in the future |
| AutoModes.WaitsForPushOn | Traincrew_depMelody/AutoMode.cs:55-59 | before the ON instant a tick on a platform presses nothing and changes nothing but the track number |
| AutoModes.OffAtPushOff | Traincrew_depMelody/AutoMode.cs:61-67 | OFF is pressed exactly when enabled, still on a platform, past both the ON and the OFF instants and playing; it clears both instants and the playing flag |
| AutoModes.OnSchedulesOff | Traincrew_depMelody/AutoMode.cs:68-84 | ON is pressed only when enabled, still on a platform, past a set ON instant, not playing and with a signal open; it sets playing and schedules OFF at least one second later |
| AutoModes.NoPressAfterOff | Traincrew_depMelody/AutoMode.cs:120-125 | once OFF has cleared the ON instant, further ticks on the platform press nothing |
| AutoModes.SilentUntilDeparture | Traincrew_depMelody/AutoMode.cs:120-125 | after OFF, any run of ticks that stays on the platform presses nothing at all |
| AutoModes.MediaEndedPressesOff | Traincrew_depMelody/AutoMode.cs:127-138 | the end of the melody file presses OFF exactly when enabled and playing, clearing both instants; otherwise nothing changes |
| AutoModes.AutoMode.constructor | Traincrew_depMelody/AutoMode.cs:19-23 | starts reset and disabled |
| AutoModes.AutoMode.Reset | Traincrew_depMelody/AutoMode.cs:25-34 | sets the enabled flag and returns every other field to its start value, with no instant scheduled |
| AutoModes.AutoMode.Elapse | Traincrew_depMelody/AutoMode.cs:36-40 | one tick of the schedule, then the track number is remembered unless the tick threw |
| AutoModes.AutoMode.Step | Traincrew_depMelody/AutoMode.cs:42-85 | the decision of one tick: arrival handling, waiting, pressing OFF or pressing ON and scheduling OFF; a bad station index throws after ON was pressed |
| AutoModes.AutoMode.OnStoppedStation | Traincrew_depMelody/AutoMode.cs:87-106 | when enabled and the station index is valid, stores the reported lengths and schedules ON; an unreported length leaves the rest unset |
| AutoModes.AutoMode.Push | Traincrew_depMelody/AutoMode.cs:108-113 | sets the playing flag and presses the requested button |
| AutoModes.AutoMode.PushOffButton | Traincrew_depMelody/AutoMode.cs:120-125 | clears both instants and the playing flag and presses OFF |
| AutoModes.AutoMode.MediaEnded | Traincrew_depMelody/AutoMode.cs:127-138 | with auto mode on and playing, presses OFF; otherwise nothing |
| MainWindows.FirstNumberSpec | Traincrew_depMelody/MainWindow.xaml.cs:203-215 | the value of the first digit in the stop position's name, or -1 when it has none |
| MainWindows.LastDigitSpec | Traincrew_depMelody/MainWindow.xaml.cs:192-192 | the value of the last digit of the train number, or NoMatchingElement when it has none |
| MainWindows.NotAtPlatform | Traincrew_depMelody/MainWindow.xaml.cs:158-173 | -1 past the end of the station list or when not stopped within 3 m of a station that is neither 信号場 nor 引上線; a negative index throws |
| MainWindows.NumberFromStopPosition | Traincrew_depMelody/MainWindow.xaml.cs:174-190 | stopped at a station, the number comes from the stop position's first digit, plus one at 館浜 unless the train is a limited express, just as the later path service adjusts it |
| MainWindows.NumberFromDiaParity | Traincrew_depMelody/MainWindow.xaml.cs:191-200 | without a usable stop position number the platform is 1 for an even last digit of the train number and 2 for an odd one, and a train number without digits throws |
| MainWindows.TrackNumberRange | Traincrew_depMelody/MainWindow.xaml.cs:156-201 | a platform number lies in [-1, 10], and in [1, 9] away from 館浜 when stopped; the only exceptions are a negative index and a train number without digits |
| MainWindows.ClickFlipsSwitch | Traincrew_depMelody/MainWindow.xaml.cs:29-74 | a click that asks for the current state does nothing; otherwise it flips the switch, stops the player and sets 乗降促進, and on a platform opens and plays the melody (ON) or the platform's door-closing clip (OFF) |
| MainWindows.MelodyMatchesLaterPath | Traincrew_depMelody/MainWindow.xaml.cs:56-65 | the melody chosen on ON is the file the later path service chooses for the next station and platform |
| MainWindows.ButtonsEnabledOnPlatform | Traincrew_depMelody/MainWindow.xaml.cs:96-115 | each completed frame first enables the buttons exactly on the main game screen at a platform |
| MainWindows.StopsOffPlatform | Traincrew_depMelody/MainWindow.xaml.cs:96-110 | a frame never changes the switch, and stops a melody left playing off a platform on the main game screen |
| MainWindows.UpdateRemembersFrame | Traincrew_depMelody/MainWindow.xaml.cs:87-94 | a frame fails exactly when the platform number throws on the main game screen, and then does nothing; a completed frame remembers the train state and screen; off the main game the platform number is kept |
| MainWindows.ScreenEdges | Traincrew_depMelody/MainWindow.xaml.cs:116-147 | the screen-change handling: nothing without a change, pause on entering the pause screen, play on returning from it, stop on leaving the main game, station data on finishing loading, at most one call |
| MainWindows.MainWindow.constructor | Traincrew_depMelody/MainWindow.xaml.cs:13-27 | starts with the switch off, platform 0, the initial train state and NotRunningGame |
| MainWindows.MainWindow.ButtonClick | Traincrew_depMelody/MainWindow.xaml.cs:29-74 | the click's calls and new switch state |
| MainWindows.MainWindow.AudioLoop | Traincrew_depMelody/MainWindow.xaml.cs:76-84 | rewinds and plays again exactly while the switch is on |
| MainWindows.MainWindow.Update | Traincrew_depMelody/MainWindow.xaml.cs:87-94 | one frame, then the state and screen are remembered |
| MainWindows.MainWindow.Update2 | Traincrew_depMelody/MainWindow.xaml.cs:96-148 | the button, stop and screen-edge calls of a frame and the recomputed platform number |
| Text.TrimStartSpec | Traincrew_depMelody/Infrastructure/Repositories/TrackRepository.cs:104-104 | the start-trim keeps the longest suffix not starting with white space and drops only white space |
| Text.TrimEndSpec | Traincrew_depMelody/Infrastructure/Repositories/TrackRepository.cs:104-104 | the end-trim keeps the longest prefix not ending with white space and drops only white space |
| Text.TrimSpec | Traincrew_depMelody/Infrastructure/Repositories/TrackRepository.cs:104-110 | a trimmed field is an infix of the original that neither starts nor ends with white space, everything cut off being white space |
| Text.TrimTrimmed | Traincrew_depMelody/Infrastructure/Repositories/TrackRepository.cs:104-110 | a field without white space at either end is kept whole by trimming |
| Text.BlankIffTrimEmpty | Traincrew_depMelody/Infrastructure/Repositories/TrackRepository.cs:94-111 | a row is blank (only white space) exactly when trimming it leaves nothing |
| Text.Split | Traincrew_depMelody/Infrastructure/Repositories/AudioProfileRepository.cs:97-97 | splitting on the comma gives at least one field, none holding a comma |
| Text.JoinSplit | Traincrew_depMelody/Infrastructure/Repositories/AudioProfileRepository.cs:97-97 | joining the fields of a split line with the separator gives the line back |
| Text.SplitJoin | Traincrew_depMelody/Infrastructure/Repositories/AudioProfileRepository.cs:97-97 | splitting a join of comma-free fields gives the fields back |

## Left out

- Concurrency: the locks (`_configLock`, `_stateLock`, `_cacheLock`), the `Timer`, `async void` handlers and `Task.Delay` polling. Every operation runs to completion, one after another. The game-time wait in `StopMelodyAsync` is a loop over a given sequence of cached game-state samples, and a sequence that runs out leaves the stop pending. The first sample serves as both the start-time read and the loop's first read, and the read after the wait is taken to be the sample that ended it, which is one of the interleavings the unsynchronised cache allows.
- `AutoMode.onStoppedStation` runs as an un-awaited task. The model applies it within the same tick, takes the media lengths the player reports as parameters (`None` when a length is never reported), and drops the exceptions the task would lose.
- WPF: `MediaPlayer`, `MediaElement`, the `Dispatcher` and window events. A player is the state of its flags plus the sequence of calls made on it. `Repository/AudioPlayerRepository.cs` (threading and a wall-clock delay) is not part of this model.
- The game connection: `TraincrewGameService`, `TraincrewRepository`, the P/Invoke into TrainCrewInput.dll and the WebSocket loop. Telemetry and signal states are inputs.
- The `GameStateChanged` event is handled (`OnGameStateChanged`), but its source is not modelled. The game service shown never raises it.
- Dependency-injection wiring (`App.xaml.cs`, `Program.cs`) and all logging. The `AppConfiguration` paths are parameters, except that `AudioPlayback.RelativeDefaultThrows` uses the default melody path.
- IEEE floating point: `double` and `float` thresholds, `float.Abs` against 3.0, and the millisecond rounding in `TimeSpan.FromSeconds` are exact `real` arithmetic.
- `char.IsDigit` and the regular expression `\d` accept Unicode digits. The model accepts ASCII `0`–`9` only. The culture-sensitive `string.Contains` and `string.StartsWith` (the `50000` vehicle prefix, the `入換` signal-name prefix) are ordinal comparisons of characters.
- File reading and CSV parsing: file contents are sequences of lines. The middle generation's CsvHelper rows arrive already split into fields. A `GetField<int>` conversion failure, and a missing `Csv\Track.csv` in that repository's constructor, are not modelled.
- Process spawning: an ffmpeg run is a given `ProcessRun` value.
- `AudioProfileRepository.GetAllProfilesAsync` lists profiles for display only and is not modelled. Neither is `MediaPlayerService.Dispose`. Of `MediaPlayer.Open`, only the `UriFormatException` that `new Uri(path, UriKind.Absolute)` throws is modelled. `Environment.IsAbsolutePath` accepts Windows drive paths and UNC paths, which are the rooted forms `File.Exists` can also find. Other URI forms are not modelled, and neither is a failure to decode the media.
- The middle generation's `AutoModeService.MediaEnded` has an empty body (a to-do to press OFF), so it is not modelled.
- `MainWindow.GetMelodyPath` and `GetDoorClosingPath`, which `AutoMode` uses to open files, are not part of this model. The lengths they lead to are parameters.
- The optional circuit filter in `TraincrewRepository` (circuits whose last occupant is the train) is not modelled; the current circuits are an input.
- AutoModeServices.AutoModeService.Start: a second `Start` abandons the running timer without disposing it. The model counts abandoned timers and does not model them firing.
- AutoModeServices.AutoModeService.CheckMelodyOn: the two repository caches are stated to be either unchanged or freshly loaded, not which one of the two.
- AutoModeServices.AutoModeService.CheckMelodyOff: the repository caches are stated to be either unchanged or freshly loaded, not which one of the two.
- AutoModeServices.AutoModeService.TimetableStart: the repository caches are stated to be either unchanged or freshly loaded, not which one of the two.
- AutoModeServices.AutoModeService.Fire: the profile cache is stated to be either unchanged or freshly loaded, not which one of the two.
- MainWindows.MainWindow.ButtonClick: the button that raised the click is an optional name, so a click from something other than a button is the `None` case.

## Code and its unit tests

The model follows the code where the repository's own unit tests expect otherwise:

- `MelodyPathService.GetAudioPath` returns the melody when its flag is set and `doorClosing_{n}.wav` when it is clear. `MainService` relies on this: it asks for the melody on turning on. The unit tests at `Traincrew_depMelody.Tests/Service/MelodyPathServiceTests.cs` expect the opposite. `MelodyPaths.FlagAgainstTests` states the code's behaviour on the tests' own input.
- `MelodyControlService.OnGameStateChanged` resumes both players on every event that is not a pause, not only on the one that ends a pause. After a stop, such an event sets the melody player running again while the service reports that nothing is playing. `MelodyControl.EventAfterStopRestartsPlayer` and `MediaPlayers.ResumeAfterStop` state this.
- The newest `AutoModeService` records the signal-open instant on the first tick the signal is open, whether or not the doors are open. The middle generation records it only while the doors are open.
- `MelodyControlService.StartMelodyAsync` looks up a track by the first current circuit only. `MelodyControl.SecondCircuitIgnored` shows a train whose second circuit is at a platform: it passes the station check but starts nothing.
