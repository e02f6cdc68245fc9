/** The sound files configured for one station track (`Domain/Models/AudioProfile.cs`). */
module AudioProfiles {
  import opened Wrappers
  import opened TrackInfos

  /** The melody file, and the door-closing announcement for down and up trains when configured. */
  datatype AudioProfile = AudioProfile(
    stationName: string,
    trackNumber: string,
    melodyFilePath: string,
    doorCloseAnnouncementDownFilePath: Option<string>,
    doorCloseAnnouncementUpFilePath: Option<string>)
  {
    /** Same `station_track` key as a track. */
    function GetKey(): string {
      StationKey(stationName, trackNumber)
    }

    /** The announcement for the train's direction: up for inbound, down otherwise. */
    function GetDoorCloseAnnouncementPath(isInbound: bool): Option<string> {
      if isInbound then doorCloseAnnouncementUpFilePath else doorCloseAnnouncementDownFilePath
    }
  }

  /** The constructor: null station, track or melody path throws ArgumentNullException in that
      order; the two announcement paths are optional (`None` when not given). */
  function NewAudioProfile(
    stationName: Option<string>, trackNumber: Option<string>, melodyFilePath: Option<string>,
    down: Option<string>, up: Option<string>): (r: Result<AudioProfile>)
    ensures stationName.None? ==> r == Err(ArgumentNull("stationName"))
    ensures stationName.Some? && trackNumber.None? ==> r == Err(ArgumentNull("trackNumber"))
    ensures stationName.Some? && trackNumber.Some? && melodyFilePath.None?
      ==> r == Err(ArgumentNull("melodyFilePath"))
    ensures r.Ok? <==> stationName.Some? && trackNumber.Some? && melodyFilePath.Some?
    ensures r.Ok? ==> r.value == AudioProfile(stationName.value, trackNumber.value, melodyFilePath.value, down, up)
  {
    if stationName.None? then Err(ArgumentNull("stationName"))
    else if trackNumber.None? then Err(ArgumentNull("trackNumber"))
    else if melodyFilePath.None? then Err(ArgumentNull("melodyFilePath"))
    else Ok(AudioProfile(stationName.value, trackNumber.value, melodyFilePath.value, down, up))
  }

  /** A profile and a track of the same station and track number have the same key. */
  lemma KeyAgreesWithTrack(p: AudioProfile, t: TrackInfo)
    requires p.stationName == t.stationName && p.trackNumber == t.trackNumber
    ensures p.GetKey() == t.GetKey()
  {
  }

  /** Inbound picks the up path, outbound the down path, whatever the other one holds. */
  lemma AnnouncementByDirection(p: AudioProfile)
    ensures p.GetDoorCloseAnnouncementPath(true) == p.doorCloseAnnouncementUpFilePath
    ensures p.GetDoorCloseAnnouncementPath(false) == p.doorCloseAnnouncementDownFilePath
  {
  }
}
