/** A station platform track and the track circuits that belong to it (`Domain/Models/TrackInfo.cs`). */
module TrackInfos {
  import opened Wrappers
  import Text

  datatype TrackInfo = TrackInfo(stationName: string, trackNumber: string, circuitIds: seq<string>)
  {
    /** `CircuitIds.Contains(id)`. */
    predicate ContainsCircuit(id: string) {
      id in circuitIds
    }

    /** The station-and-track key, "館浜_1". */
    function GetKey(): string {
      StationKey(stationName, trackNumber)
    }
  }

  /** The key format `$"{station}_{track}"` shared by tracks, audio profiles and the profile lookup. */
  function StationKey(station: string, track: string): string {
    station + "_" + track
  }

  /** The constructor: a null argument throws ArgumentNullException, checked in parameter order. */
  function NewTrackInfo(stationName: Option<string>, trackNumber: Option<string>, circuitIds: Option<seq<string>>)
    : (r: Result<TrackInfo>)
    ensures stationName.None? ==> r == Err(ArgumentNull("stationName"))
    ensures stationName.Some? && trackNumber.None? ==> r == Err(ArgumentNull("trackNumber"))
    ensures stationName.Some? && trackNumber.Some? && circuitIds.None? ==> r == Err(ArgumentNull("circuitIds"))
    ensures r.Ok? <==> stationName.Some? && trackNumber.Some? && circuitIds.Some?
    ensures r.Ok? ==> r.value == TrackInfo(stationName.value, trackNumber.value, circuitIds.value)
  {
    if stationName.None? then Err(ArgumentNull("stationName"))
    else if trackNumber.None? then Err(ArgumentNull("trackNumber"))
    else if circuitIds.None? then Err(ArgumentNull("circuitIds"))
    else Ok(TrackInfo(stationName.value, trackNumber.value, circuitIds.value))
  }

  /** `ContainsCircuit` is list membership. */
  lemma ContainsCircuitIffMember(t: TrackInfo, id: string)
    ensures t.ContainsCircuit(id) <==> exists i | 0 <= i < |t.circuitIds| :: t.circuitIds[i] == id
  {
  }

  /** The key is the station name, an underscore and the track number. */
  lemma KeyShape(t: TrackInfo)
    ensures |t.GetKey()| == |t.stationName| + 1 + |t.trackNumber|
    ensures t.GetKey()[..|t.stationName|] == t.stationName
    ensures t.GetKey()[|t.stationName|] == '_'
    ensures t.GetKey()[|t.stationName| + 1..] == t.trackNumber
  {
  }

  /** For station names without an underscore the key determines station and track. */
  lemma {:induction false} StationKeyInjective(s1: string, t1: string, s2: string, t2: string)
    requires '_' !in s1 && '_' !in s2
    requires StationKey(s1, t1) == StationKey(s2, t2)
    ensures s1 == s2 && t1 == t2
  {
    Text.SplitCons(s1, '_', t1);
    Text.SplitCons(s2, '_', t2);
    assert s1 + "_" + t1 == s1 + ['_'] + t1;
    assert s2 + "_" + t2 == s2 + ['_'] + t2;
    assert s1 == Text.Split(StationKey(s1, t1), '_')[0];
    assert s2 == Text.Split(StationKey(s2, t2), '_')[0];
    assert t1 == StationKey(s1, t1)[|s1| + 1..];
  }

  /** A station name holding an underscore makes two different tracks share a key. */
  lemma StationKeyCollision()
    ensures StationKey("a_b", "1") == StationKey("a", "b_1")
    ensures TrackInfo("a_b", "1", []).GetKey() == TrackInfo("a", "b_1", []).GetKey()
  {
  }
}
