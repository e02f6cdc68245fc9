/** The immutable record of what the melody is doing (`Domain/Models/MelodyState.cs`). */
module MelodyStates {
  import opened Wrappers
  import opened TrackInfos

  datatype MelodyState = MelodyState(
    isPlaying: bool,
    currentMelodyPath: Option<string>,
    currentTrack: Option<TrackInfo>,
    startedAt: Option<real>,
    doorCloseAnnouncementPlayed: bool)
  {
    /** Copy-update: a `Some` argument replaces its field, `None` (C#'s `null`) keeps it. */
    function With(playing: Option<bool>, melodyPath: Option<string>, track: Option<TrackInfo>,
                  startTime: Option<real>, announcementPlayed: Option<bool>): MelodyState
    {
      MelodyState(
        Or(playing, isPlaying),
        if melodyPath.Some? then melodyPath else currentMelodyPath,
        if track.Some? then track else currentTrack,
        if startTime.Some? then startTime else startedAt,
        Or(announcementPlayed, doorCloseAnnouncementPlayed))
    }
  }

  /** `new MelodyState { IsPlaying = false }`. */
  const Initial: MelodyState := MelodyState(false, None, None, None, false)

  /** `With()` with no arguments gives an equal state. */
  lemma WithNothingIsIdentity(s: MelodyState)
    ensures s.With(None, None, None, None, None) == s
  {
  }

  /** Field by field: each given argument overrides its field and each omitted one keeps it. */
  lemma WithOverridesOrKeeps(s: MelodyState, playing: Option<bool>, melodyPath: Option<string>,
                             track: Option<TrackInfo>, startTime: Option<real>, announcementPlayed: Option<bool>)
    ensures var r := s.With(playing, melodyPath, track, startTime, announcementPlayed);
      && r.isPlaying == (if playing.Some? then playing.value else s.isPlaying)
      && r.currentMelodyPath == (if melodyPath.Some? then melodyPath else s.currentMelodyPath)
      && r.currentTrack == (if track.Some? then track else s.currentTrack)
      && r.startedAt == (if startTime.Some? then startTime else s.startedAt)
      && r.doorCloseAnnouncementPlayed
         == (if announcementPlayed.Some? then announcementPlayed.value else s.doorCloseAnnouncementPlayed)
  {
  }

  /** `With(isPlaying: b)` changes only IsPlaying. */
  lemma WithPlayingOnly(s: MelodyState, b: bool)
    ensures s.With(Some(b), None, None, None, None) == s.(isPlaying := b)
  {
  }

  /** A set track, start time or melody path can never be cleared by `With`, since null means keep. */
  lemma WithNeverClears(s: MelodyState, playing: Option<bool>, melodyPath: Option<string>,
                        track: Option<TrackInfo>, startTime: Option<real>, announcementPlayed: Option<bool>)
    ensures var r := s.With(playing, melodyPath, track, startTime, announcementPlayed);
      && (s.currentTrack.Some? ==> r.currentTrack.Some?)
      && (s.startedAt.Some? ==> r.startedAt.Some?)
      && (s.currentMelodyPath.Some? ==> r.currentMelodyPath.Some?)
  {
  }

  /** Applying the same update twice is the same as applying it once. */
  lemma WithIdempotent(s: MelodyState, playing: Option<bool>, melodyPath: Option<string>,
                       track: Option<TrackInfo>, startTime: Option<real>, announcementPlayed: Option<bool>)
    ensures var r := s.With(playing, melodyPath, track, startTime, announcementPlayed);
      r.With(playing, melodyPath, track, startTime, announcementPlayed) == r
  {
  }
}
