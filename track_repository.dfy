/**
 * The station-track table read from `stations.csv`
 * (`Infrastructure/Repositories/TrackRepository.cs`): a header line, then one
 * `station,track,circuit,circuit,...` row per platform track, split naively on commas.
 */
module TrackRepositories {
  import opened Wrappers
  import opened Text
  import opened Environment
  import opened TrackInfos

  /** The trimmed, non-empty fields among `fields`, in order (the circuit-ID loop). */
  function NonEmptyTrimmed(fields: seq<string>): (r: seq<string>)
    ensures |r| <= |fields|
    ensures forall i | 0 <= i < |r| :: r[i] != []
  {
    if |fields| == 0 then []
    else
      var last := Trim(fields[|fields| - 1]);
      NonEmptyTrimmed(fields[..|fields| - 1]) + (if last != [] then [last] else [])
  }

  /** Every kept circuit is already trimmed. */
  lemma {:induction false} NonEmptyTrimmedClean(fields: seq<string>)
    ensures forall i | 0 <= i < |NonEmptyTrimmed(fields)| ::
      Trim(NonEmptyTrimmed(fields)[i]) == NonEmptyTrimmed(fields)[i]
  {
    if |fields| > 0 {
      NonEmptyTrimmedClean(fields[..|fields| - 1]);
      TrimIdempotent(fields[|fields| - 1]);
    }
  }

  /** Trimming twice is trimming once. */
  lemma TrimIdempotent(s: string)
    ensures Trim(Trim(s)) == Trim(s)
  {
    TrimSpec(s);
    TrimTrimmed(Trim(s));
  }

  /** One data row: blank rows and rows with fewer than three comma fields are skipped;
      otherwise station and track are the trimmed first two fields and the circuits are the
      trimmed non-empty remaining ones. */
  function ParseTrackLine(line: string): Option<TrackInfo> {
    if IsNullOrWhiteSpace(line) then None
    else
      var values := Split(line, ',');
      if |values| < 3 then None
      else Some(TrackInfo(Trim(values[0]), Trim(values[1]), NonEmptyTrimmed(values[2..])))
  }

  /** A parsed track has trimmed station and track names and only non-empty, trimmed circuits. */
  lemma ParsedTrackClean(line: string)
    requires ParseTrackLine(line).Some?
    ensures var t := ParseTrackLine(line).value;
      && Trim(t.stationName) == t.stationName
      && Trim(t.trackNumber) == t.trackNumber
      && forall i | 0 <= i < |t.circuitIds| :: t.circuitIds[i] != [] && Trim(t.circuitIds[i]) == t.circuitIds[i]
  {
    var values := Split(line, ',');
    TrimIdempotent(values[0]);
    TrimIdempotent(values[1]);
    NonEmptyTrimmedClean(values[2..]);
  }

  /** The tracks of the data rows, in file order. */
  function ParseTracks(rows: seq<string>): seq<TrackInfo> {
    if |rows| == 0 then []
    else
      ParseTracks(rows[..|rows| - 1])
        + match ParseTrackLine(rows[|rows| - 1]) case Some(t) => [t] case None => []
  }

  /** The track list a successful load of `lines` installs. */
  function TracksOf(lines: seq<string>): seq<TrackInfo> {
    ParseTracks(DataRows(lines))
  }

  /** `FirstOrDefault(t => t.ContainsCircuit(id))`. */
  function FirstWithCircuit(tracks: seq<TrackInfo>, id: string): Option<TrackInfo> {
    if |tracks| == 0 then None
    else if tracks[0].ContainsCircuit(id) then Some(tracks[0])
    else FirstWithCircuit(tracks[1..], id)
  }

  /** The lookup finds nothing exactly when no track holds the circuit, and otherwise the
      first track in list order that holds it. */
  lemma {:induction false} FirstWithCircuitSpec(tracks: seq<TrackInfo>, id: string)
    ensures var r := FirstWithCircuit(tracks, id);
      && (r.None? <==> forall j | 0 <= j < |tracks| :: !tracks[j].ContainsCircuit(id))
      && (r.Some? ==> exists k | 0 <= k < |tracks| ::
            && tracks[k] == r.value
            && r.value.ContainsCircuit(id)
            && forall j | 0 <= j < k :: !tracks[j].ContainsCircuit(id))
  {
    if |tracks| > 0 && !tracks[0].ContainsCircuit(id) {
      var r := FirstWithCircuit(tracks[1..], id);
      FirstWithCircuitSpec(tracks[1..], id);
      if r.Some? {
        var k :| 0 <= k < |tracks[1..]| && tracks[1..][k] == r.value && r.value.ContainsCircuit(id)
          && forall j | 0 <= j < k :: !tracks[1..][j].ContainsCircuit(id);
        assert tracks[k + 1] == r.value;
        assert forall j | 0 <= j < k + 1 :: !tracks[j].ContainsCircuit(id) by {
          forall j | 0 <= j < k + 1
            ensures !tracks[j].ContainsCircuit(id)
          {
            if j > 0 {
              assert tracks[j] == tracks[1..][j - 1];
            }
          }
        }
      } else {
        forall j | 0 <= j < |tracks|
          ensures !tracks[j].ContainsCircuit(id)
        {
          if j > 0 {
            assert tracks[j] == tracks[1..][j - 1];
          }
        }
      }
    }
  }

  /** Some track holds circuit `id`. */
  predicate AtStation(tracks: seq<TrackInfo>, id: string) {
    exists j | 0 <= j < |tracks| :: tracks[j].ContainsCircuit(id)
  }

  /** `ids.Any(id => tracks.Any(t => t.ContainsCircuit(id)))`. */
  function AnyCircuitAtStation(tracks: seq<TrackInfo>, ids: seq<string>): (r: bool)
    ensures r <==> exists i | 0 <= i < |ids| :: AtStation(tracks, ids[i])
  {
    if |ids| == 0 then false
    else AtStation(tracks, ids[0]) || AnyCircuitAtStation(tracks, ids[1..])
  }

  /** The cache after the lazy load: kept when non-empty, else read from the file when it
      exists (a file with no data rows leaves it empty again). */
  function AfterEnsureLoaded(cache: seq<TrackInfo>, fs: FileSystem, path: string): seq<TrackInfo> {
    if |cache| > 0 || !fs.Exists(path) then cache else TracksOf(fs.files[path])
  }

  /** Lazy loading twice is lazy loading once. */
  lemma EnsureLoadedIdempotent(cache: seq<TrackInfo>, fs: FileSystem, path: string)
    ensures AfterEnsureLoaded(AfterEnsureLoaded(cache, fs, path), fs, path) == AfterEnsureLoaded(cache, fs, path)
  {
  }

  /** Rows are parsed independently: the tracks of two row blocks are concatenated. */
  lemma {:induction false} ParseTracksAppend(a: seq<string>, b: seq<string>)
    ensures ParseTracks(a + b) == ParseTracks(a) + ParseTracks(b)
  {
    if |b| == 0 {
      assert a + b == a;
    } else {
      var b' := b[..|b| - 1];
      assert (a + b)[..|a + b| - 1] == a + b';
      assert (a + b)[|a + b| - 1] == b[|b| - 1];
      ParseTracksAppend(a, b');
    }
  }

  /** A skipped row (blank, or under three fields) contributes nothing wherever it stands. */
  lemma SkippedRowIgnored(a: seq<string>, row: string, b: seq<string>)
    requires IsNullOrWhiteSpace(row) || |Split(row, ',')| < 3
    ensures ParseTracks(a + [row] + b) == ParseTracks(a) + ParseTracks(b)
  {
    assert ParseTrackLine(row) == None;
    assert [row][..0] == [];
    assert ParseTracks([row]) == [];
    ParseTracksAppend(a + [row], b);
    ParseTracksAppend(a, [row]);
  }

  /** The header line never produces a track: a file holding only a track row yields nothing. */
  lemma HeaderDiscarded(header: string, rows: seq<string>)
    ensures TracksOf([header] + rows) == ParseTracks(rows)
  {
    assert ([header] + rows)[1..] == rows;
  }

  /** A field written as it is read: no comma, no white space around it. */
  predicate CleanField(f: string) {
    ',' !in f && Trim(f) == f
  }

  /** A track that a CSV row can describe exactly. */
  predicate Writable(t: TrackInfo) {
    && CleanField(t.stationName)
    && CleanField(t.trackNumber)
    && |t.circuitIds| >= 1
    && forall i | 0 <= i < |t.circuitIds| :: t.circuitIds[i] != [] && CleanField(t.circuitIds[i])
  }

  /** The row `station,track,circuit1,...`. */
  function FormatTrackLine(t: TrackInfo): string {
    Join([t.stationName, t.trackNumber] + t.circuitIds, ',')
  }

  /** Trimmed non-empty fields pass through the circuit filter unchanged. */
  lemma {:induction false} NonEmptyTrimmedKeeps(fields: seq<string>)
    requires forall i | 0 <= i < |fields| :: fields[i] != [] && Trim(fields[i]) == fields[i]
    ensures NonEmptyTrimmed(fields) == fields
  {
    if |fields| > 0 {
      NonEmptyTrimmedKeeps(fields[..|fields| - 1]);
    }
  }

  /** Writing a track as a row and parsing the row gives the track back. */
  lemma FormatThenParse(t: TrackInfo)
    requires Writable(t)
    ensures ParseTrackLine(FormatTrackLine(t)) == Some(t)
  {
    var parts := [t.stationName, t.trackNumber] + t.circuitIds;
    var line := FormatTrackLine(t);
    assert forall i | 0 <= i < |parts| :: ',' !in parts[i];
    SplitJoin(parts, ',');
    assert line == t.stationName + [','] + Join(parts[1..], ',');
    assert line[|t.stationName|] == ',';
    assert !IsNullOrWhiteSpace(line);
    assert parts[2..] == t.circuitIds;
    NonEmptyTrimmedKeeps(t.circuitIds);
  }

  /** Which tracks hold circuit `id`, from the first track that does. */
  lemma {:induction false} FirstWithCircuitIsFirst(tracks: seq<TrackInfo>, id: string, k: nat)
    requires k < |tracks| && tracks[k].ContainsCircuit(id)
    requires forall j | 0 <= j < k :: !tracks[j].ContainsCircuit(id)
    ensures FirstWithCircuit(tracks, id) == Some(tracks[k])
  {
    if k > 0 {
      assert !tracks[0].ContainsCircuit(id);
      FirstWithCircuitIsFirst(tracks[1..], id, k - 1);
    }
  }

  /** With no circuit IDs the train is never at a station. */
  lemma NoCircuitsNotAtStation(tracks: seq<TrackInfo>)
    ensures !AnyCircuitAtStation(tracks, [])
  {
  }

  /** A circuit found by the lookup is at a station, and a circuit at a station is found. */
  lemma FoundIffAtStation(tracks: seq<TrackInfo>, id: string)
    ensures FirstWithCircuit(tracks, id).Some? <==> AnyCircuitAtStation(tracks, [id])
  {
    FirstWithCircuitSpec(tracks, id);
  }

  /** The circuit loop of one row: the trimmed non-empty fields from the third on. */
  method CollectCircuits(values: seq<string>) returns (circuits: seq<string>)
    requires |values| >= 2
    ensures circuits == NonEmptyTrimmed(values[2..])
  {
    circuits := [];
    var i := 2;
    while i < |values|
      invariant 2 <= i <= |values|
      invariant circuits == NonEmptyTrimmed(values[2..i])
    {
      var circuit := Trim(values[i]);
      ghost var done := values[2..i + 1];
      assert done[..|done| - 1] == values[2..i];
      assert done[|done| - 1] == values[i];
      if circuit != [] {
        circuits := circuits + [circuit];
      }
      i := i + 1;
    }
    assert values[2..i] == values[2..];
  }

  /** The repository: the CSV path it reads and the cached list of tracks. */
  class TrackRepository {
    const csvPath: string
    var tracks: seq<TrackInfo>

    constructor(csvPath: string)
      ensures this.csvPath == csvPath && tracks == []
    {
      this.csvPath := csvPath;
      tracks := [];
    }

    /** `LoadCsvAsync`: a missing file throws and keeps the cache; otherwise the whole list
        is replaced by the file's tracks. */
    method LoadCsv(fs: FileSystem) returns (o: Outcome)
      modifies this
      ensures !fs.Exists(csvPath) ==> o == Fail(FileNotFound(csvPath)) && tracks == old(tracks)
      ensures fs.Exists(csvPath) ==> o == Pass && tracks == TracksOf(fs.files[csvPath])
    {
      if !fs.Exists(csvPath) {
        return Fail(FileNotFound(csvPath));
      }
      var rows := DataRows(fs.files[csvPath]);
      var loaded: seq<TrackInfo> := [];
      var n := 0;
      while n < |rows|
        invariant 0 <= n <= |rows|
        invariant loaded == ParseTracks(rows[..n])
      {
        var line := rows[n];
        assert rows[..n + 1][..n] == rows[..n];
        n := n + 1;
        if IsNullOrWhiteSpace(line) {
          continue;
        }
        var values := Split(line, ',');
        if |values| < 3 {
          continue;
        }
        assert ParseTrackLine(line) == Some(TrackInfo(Trim(values[0]), Trim(values[1]), NonEmptyTrimmed(values[2..])));
        var circuits := CollectCircuits(values);
        loaded := loaded + [TrackInfo(Trim(values[0]), Trim(values[1]), circuits)];
      }
      assert rows[..n] == rows;
      tracks := loaded;
      return Pass;
    }

    /** `ReloadAsync`: an unconditional load. */
    method Reload(fs: FileSystem) returns (o: Outcome)
      modifies this
      ensures !fs.Exists(csvPath) ==> o == Fail(FileNotFound(csvPath)) && tracks == old(tracks)
      ensures fs.Exists(csvPath) ==> o == Pass && tracks == TracksOf(fs.files[csvPath])
    {
      o := LoadCsv(fs);
    }

    /** `EnsureLoadedAsync`: load only while the cache is empty. */
    method EnsureLoaded(fs: FileSystem) returns (o: Outcome)
      modifies this
      ensures tracks == AfterEnsureLoaded(old(tracks), fs, csvPath)
      ensures o.Fail? <==> |old(tracks)| == 0 && !fs.Exists(csvPath)
      ensures o.Fail? ==> o == Fail(FileNotFound(csvPath))
    {
      if |tracks| > 0 {
        return Pass;
      }
      o := LoadCsv(fs);
    }

    /** `FindTrackByCircuitIdAsync`: the first track in file order holding the circuit. */
    method FindTrackByCircuitId(id: string, fs: FileSystem) returns (r: Result<Option<TrackInfo>>)
      modifies this
      ensures tracks == AfterEnsureLoaded(old(tracks), fs, csvPath)
      ensures r.Err? <==> |old(tracks)| == 0 && !fs.Exists(csvPath)
      ensures r.Err? ==> r.error == FileNotFound(csvPath)
      ensures r.Ok? ==> r.value == FirstWithCircuit(tracks, id)
    {
      var o := EnsureLoaded(fs);
      if o.Fail? {
        return Err(o.error);
      }
      r := Ok(FirstWithCircuit(tracks, id));
    }

    /** `IsAnyCircuitAtStationAsync`: some given circuit belongs to some track. */
    method IsAnyCircuitAtStation(ids: seq<string>, fs: FileSystem) returns (r: Result<bool>)
      modifies this
      ensures tracks == AfterEnsureLoaded(old(tracks), fs, csvPath)
      ensures r.Err? <==> |old(tracks)| == 0 && !fs.Exists(csvPath)
      ensures r.Err? ==> r.error == FileNotFound(csvPath)
      ensures r.Ok? ==> r.value == AnyCircuitAtStation(tracks, ids)
    {
      var o := EnsureLoaded(fs);
      if o.Fail? {
        return Err(o.error);
      }
      r := Ok(AnyCircuitAtStation(tracks, ids));
    }
  }
}
