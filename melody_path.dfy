/**
 * Which sound file the middle generation plays for a platform (`Service/MelodyPathService.cs`):
 * the station's melody, falling back to a default, or the platform's door-closing clip.
 */
module MelodyPaths {
  import opened Environment
  import opened Text

  const Tatehama := "館浜"
  const LimitedExpress := "特急"

  /** The sound directory under the working directory, `cwd\sound\`. */
  function SoundDir(cwd: string): string {
    cwd + "\\sound\\"
  }

  /** `sound\{station}_{platform}.wav`. */
  function StationMelodyFile(cwd: string, station: string, platform: int): string {
    SoundDir(cwd) + station + "_" + IntToString(platform) + ".wav"
  }

  /** `sound\default.wav`. */
  function DefaultMelodyFile(cwd: string): string {
    SoundDir(cwd) + "default.wav"
  }

  /** `sound\doorClosing_{platform}.wav`. */
  function DoorClosingFile(cwd: string, platform: int): string {
    SoundDir(cwd) + "doorClosing_" + IntToString(platform) + ".wav"
  }

  /** `GetMelodyPath`: the station's own melody if that file exists, else the default.
      The direction flag is accepted and ignored. */
  function GetMelodyPath(station: string, platform: int, isUp: bool, cwd: string, fs: FileSystem): string {
    if fs.Exists(StationMelodyFile(cwd, station, platform)) then StationMelodyFile(cwd, station, platform)
    else DefaultMelodyFile(cwd)
  }

  /** `GetDoorClosingPath`: one clip per platform number, whatever the station, with no
      check that the file exists. */
  function GetDoorClosingPath(station: string, platform: int, isUp: bool, cwd: string): string {
    DoorClosingFile(cwd, platform)
  }

  /** At 館浜 every train except a limited express stops one platform number further on. */
  function EffectivePlatform(station: string, platform: int, trainClass: string): (p: int)
    ensures station == Tatehama && trainClass != LimitedExpress ==> p == platform + 1
    ensures station != Tatehama || trainClass == LimitedExpress ==> p == platform
  {
    if station == Tatehama && trainClass != LimitedExpress then platform + 1 else platform
  }

  /** `GetAudioPath((station, platform), isMelodyPlaying)`, with the current train's class
      read from the simulator; the direction passed on is always "down". */
  function GetAudioPath(station: string, platform: int, isMelodyPlaying: bool, trainClass: string,
                        cwd: string, fs: FileSystem): string
  {
    var p := EffectivePlatform(station, platform, trainClass);
    if isMelodyPlaying then GetMelodyPath(station, p, false, cwd, fs) else GetDoorClosingPath(station, p, false, cwd)
  }

  /** With the flag set the result is a melody: the station's file for the effective
      platform when it exists, and otherwise the default. */
  lemma MelodyFlagGivesMelody(station: string, platform: int, trainClass: string, cwd: string, fs: FileSystem)
    ensures var own := StationMelodyFile(cwd, station, EffectivePlatform(station, platform, trainClass));
      && (fs.Exists(own) ==> GetAudioPath(station, platform, true, trainClass, cwd, fs) == own)
      && (!fs.Exists(own) ==> GetAudioPath(station, platform, true, trainClass, cwd, fs) == DefaultMelodyFile(cwd))
  {
  }

  /** With the flag clear the result is the door-closing clip of the effective platform; the
      disk plays no part. */
  lemma ClosingFlagGivesDoorClosing(station: string, platform: int, trainClass: string, cwd: string,
                                    fs: FileSystem, fs': FileSystem)
    ensures GetAudioPath(station, platform, false, trainClass, cwd, fs)
         == DoorClosingFile(cwd, EffectivePlatform(station, platform, trainClass))
    ensures GetAudioPath(station, platform, false, trainClass, cwd, fs)
         == GetAudioPath(station, platform, false, trainClass, cwd, fs')
  {
  }

  /** Away from 館浜 the door-closing clip does not depend on the station either. */
  lemma DoorClosingIgnoresStation(s1: string, s2: string, platform: int, trainClass: string,
                                  cwd: string, fs: FileSystem)
    requires s1 != Tatehama && s2 != Tatehama
    ensures GetAudioPath(s1, platform, false, trainClass, cwd, fs) == GetAudioPath(s2, platform, false, trainClass, cwd, fs)
  {
  }

  /** The direction flag changes neither path. */
  lemma DirectionIgnored(station: string, platform: int, cwd: string, fs: FileSystem)
    ensures GetMelodyPath(station, platform, true, cwd, fs) == GetMelodyPath(station, platform, false, cwd, fs)
    ensures GetDoorClosingPath(station, platform, true, cwd) == GetDoorClosingPath(station, platform, false, cwd)
  {
  }

  /** The unit tests read the flag the other way round: for 駒野 platform 1 a set flag gives
      a melody file, never `doorClosing_1.wav`, and a clear flag gives `doorClosing_1.wav`. */
  lemma FlagAgainstTests(cwd: string, fs: FileSystem)
    ensures GetAudioPath("駒野", 1, true, "普通", cwd, fs) != DoorClosingFile(cwd, 1)
    ensures GetAudioPath("駒野", 1, false, "普通", cwd, fs) == DoorClosingFile(cwd, 1)
  {
    var n := |SoundDir(cwd)|;
    var closing := DoorClosingFile(cwd, 1);
    assert closing[n] == 'd' && closing[n + 1] == 'o';
    var own := StationMelodyFile(cwd, "駒野", 1);
    assert own[n] == '駒';
    var fallback := DefaultMelodyFile(cwd);
    assert fallback[n + 1] == 'e';
  }
}
