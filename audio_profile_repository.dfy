/**
 * The audio profile table read from `<profile>.csv`
 * (`Infrastructure/Repositories/AudioProfileRepository.cs`): a header line, then one
 * `station,track,melody[,doorCloseDown[,doorCloseUp]]` row per track, keyed by `station_track`.
 */
module AudioProfileRepositories {
  import opened Wrappers
  import opened Text
  import opened Environment
  import opened TrackInfos
  import opened AudioProfiles

  /** Field `i` trimmed, when the row has it and it is not empty after trimming. */
  function OptionalField(values: seq<string>, i: nat): Option<string> {
    if i < |values| && Trim(values[i]) != [] then Some(Trim(values[i])) else None
  }

  /** One data row: blank rows and rows with fewer than three comma fields are skipped;
      otherwise the trimmed station, track and melody, and field 3 (down) and field 4 (up)
      as announcement paths. Further fields are ignored. */
  function ParseProfileLine(line: string): Option<AudioProfile> {
    if IsNullOrWhiteSpace(line) then None
    else
      var values := Split(line, ',');
      if |values| < 3 then None
      else Some(AudioProfile(Trim(values[0]), Trim(values[1]), Trim(values[2]),
                             OptionalField(values, 3), OptionalField(values, 4)))
  }

  /** Each data row, parsed on its own. */
  function ParseRows(rows: seq<string>): (parsed: seq<Option<AudioProfile>>)
    ensures |parsed| == |rows|
    ensures forall i | 0 <= i < |rows| :: parsed[i] == ParseProfileLine(rows[i])
  {
    if |rows| == 0 then [] else ParseRows(rows[..|rows| - 1]) + [ParseProfileLine(rows[|rows| - 1])]
  }

  /** The dictionary filled from the parsed rows in order: each profile is stored under its
      own key, so a later row with the same key replaces an earlier one. */
  function Store(parsed: seq<Option<AudioProfile>>): map<string, AudioProfile> {
    if |parsed| == 0 then map[]
    else
      var m := Store(parsed[..|parsed| - 1]);
      match parsed[|parsed| - 1]
      case Some(p) => m[p.GetKey() := p]
      case None => m
  }

  /** The dictionary a successful load of `lines` installs. */
  function ProfilesOf(lines: seq<string>): map<string, AudioProfile> {
    Store(ParseRows(DataRows(lines)))
  }

  /** `FindProfileAsync` on a loaded dictionary: the entry under `station_track`, else null. */
  function Lookup(profiles: map<string, AudioProfile>, station: string, track: string): Option<AudioProfile> {
    var key := StationKey(station, track);
    if key in profiles then Some(profiles[key]) else None
  }

  /** The dictionary after the lazy load: kept when non-empty, else read from the file when
      it exists (a file with no profiles leaves it empty again). */
  function AfterEnsureLoaded(cache: map<string, AudioProfile>, fs: FileSystem, path: string)
    : map<string, AudioProfile>
  {
    if |cache| > 0 || !fs.Exists(path) then cache else ProfilesOf(fs.files[path])
  }

  /** What `FindProfileAsync` returns or throws, given the cache before the call. */
  function FindResult(cache: map<string, AudioProfile>, fs: FileSystem, path: string, station: string, track: string)
    : Result<Option<AudioProfile>>
  {
    if |cache| == 0 && !fs.Exists(path) then Err(FileNotFound(path))
    else Ok(Lookup(AfterEnsureLoaded(cache, fs, path), station, track))
  }

  /** A lookup after the lazy load answers as the lookup that did the load. */
  lemma FindResultAfterLoad(cache: map<string, AudioProfile>, fs: FileSystem, path: string, station: string, track: string)
    ensures FindResult(AfterEnsureLoaded(cache, fs, path), fs, path, station, track) == FindResult(cache, fs, path, station, track)
  {
  }

  /** A found profile is the one stored for that station and track, with that key. */
  lemma FoundProfileHasKey(cache: map<string, AudioProfile>, fs: FileSystem, path: string, station: string, track: string)
    requires forall k | k in cache :: cache[k].GetKey() == k
    requires FindResult(cache, fs, path, station, track).Ok?
    requires FindResult(cache, fs, path, station, track).value.Some?
    ensures FindResult(cache, fs, path, station, track).value.value.GetKey() == StationKey(station, track)
  {
    if |cache| == 0 {
      StoredUnderOwnKey(ParseRows(DataRows(fs.files[path])));
    }
  }

  /** Lazy loading twice is lazy loading once. */
  lemma EnsureLoadedIdempotent(cache: map<string, AudioProfile>, fs: FileSystem, path: string)
    ensures AfterEnsureLoaded(AfterEnsureLoaded(cache, fs, path), fs, path) == AfterEnsureLoaded(cache, fs, path)
  {
  }

  /** Every stored profile sits under its own key. */
  lemma {:induction false} StoredUnderOwnKey(parsed: seq<Option<AudioProfile>>)
    ensures forall k | k in Store(parsed) :: Store(parsed)[k].GetKey() == k
  {
    if |parsed| > 0 {
      StoredUnderOwnKey(parsed[..|parsed| - 1]);
    }
  }

  /** Row `row` parsed to a profile stored under `key`. */
  predicate HasKey(row: Option<AudioProfile>, key: string) {
    row.Some? && row.value.GetKey() == key
  }

  /** A key is present exactly when some row parsed to a profile with that key. */
  lemma {:induction false} KeyPresentIffSomeRow(parsed: seq<Option<AudioProfile>>, key: string)
    ensures key in Store(parsed) <==> exists i | 0 <= i < |parsed| :: HasKey(parsed[i], key)
  {
    if |parsed| > 0 {
      var init := parsed[..|parsed| - 1];
      KeyPresentIffSomeRow(init, key);
      if key in Store(parsed) {
        if key in Store(init) {
          var i :| 0 <= i < |init| && HasKey(init[i], key);
          assert parsed[i] == init[i];
        } else {
          assert HasKey(parsed[|parsed| - 1], key);
        }
      } else {
        forall i | 0 <= i < |parsed|
          ensures !HasKey(parsed[i], key)
        {
          if i < |init| {
            assert parsed[i] == init[i];
          }
        }
      }
    }
  }

  /** The last row with a given key is the one stored. */
  lemma LaterRowWins(parsed: seq<Option<AudioProfile>>, p: AudioProfile)
    ensures Lookup(Store(parsed + [Some(p)]), p.stationName, p.trackNumber) == Some(p)
  {
    assert (parsed + [Some(p)])[..|parsed|] == parsed;
  }

  /** A later row with another key (or a skipped row) leaves an entry as it was. */
  lemma LaterOtherRowKeeps(parsed: seq<Option<AudioProfile>>, row: Option<AudioProfile>, key: string)
    requires !HasKey(row, key)
    ensures key in Store(parsed) ==>
      key in Store(parsed + [row]) && Store(parsed + [row])[key] == Store(parsed)[key]
    ensures key !in Store(parsed) ==> key !in Store(parsed + [row])
  {
    assert (parsed + [row])[..|parsed|] == parsed;
  }

  /** The lookup finds a profile only under the station and track it was read with. */
  lemma LookupMatches(parsed: seq<Option<AudioProfile>>, station: string, track: string)
    ensures var r := Lookup(Store(parsed), station, track);
      r.Some? ==> r.value.GetKey() == StationKey(station, track)
  {
    StoredUnderOwnKey(parsed);
  }

  /** A field written as it is read: no comma, no white space around it. */
  predicate CleanField(f: string) {
    ',' !in f && Trim(f) == f
  }

  /** A profile that a CSV row can describe exactly: clean fields, present announcement
      paths non-empty. */
  predicate Writable(p: AudioProfile) {
    && CleanField(p.stationName)
    && CleanField(p.trackNumber)
    && CleanField(p.melodyFilePath)
    && (p.doorCloseAnnouncementDownFilePath.Some? ==>
          p.doorCloseAnnouncementDownFilePath.value != [] && CleanField(p.doorCloseAnnouncementDownFilePath.value))
    && (p.doorCloseAnnouncementUpFilePath.Some? ==>
          p.doorCloseAnnouncementUpFilePath.value != [] && CleanField(p.doorCloseAnnouncementUpFilePath.value))
  }

  /** The row for a profile: an absent down path is an empty field when an up path follows,
      and absent trailing paths are left off. */
  function FormatProfileLine(p: AudioProfile): string {
    Join(FormatFields(p), ',')
  }

  /** Writing a profile as a row and parsing the row gives the profile back. */
  lemma FormatThenParse(p: AudioProfile)
    requires Writable(p)
    ensures ParseProfileLine(FormatProfileLine(p)) == Some(p)
  {
    var parts := FormatFields(p);
    var line := FormatProfileLine(p);
    SplitJoin(parts, ',');
    assert line == p.stationName + [','] + Join(parts[1..], ',');
    assert line[|p.stationName|] == ',';
    assert !IsNullOrWhiteSpace(line);
    assert Split(line, ',') == parts;
    FieldsRoundTrip(p);
  }

  /** The fields of the row for `p`, before joining with commas. */
  function FormatFields(p: AudioProfile): (parts: seq<string>)
    ensures 3 <= |parts| <= 5
    ensures parts[0] == p.stationName && parts[1] == p.trackNumber && parts[2] == p.melodyFilePath
    ensures Writable(p) ==> forall i | 0 <= i < |parts| :: ',' !in parts[i]
  {
    var head := [p.stationName, p.trackNumber, p.melodyFilePath];
    match (p.doorCloseAnnouncementDownFilePath, p.doorCloseAnnouncementUpFilePath)
    case (None, None) => head
    case (Some(d), None) => head + [d]
    case (d, Some(u)) => head + [Or(d, ""), u]
  }

  /** The optional fields of the row for `p` read back as its announcement paths. */
  lemma FieldsRoundTrip(p: AudioProfile)
    requires Writable(p)
    ensures OptionalField(FormatFields(p), 3) == p.doorCloseAnnouncementDownFilePath
    ensures OptionalField(FormatFields(p), 4) == p.doorCloseAnnouncementUpFilePath
  {
    var f := FormatFields(p);
    match (p.doorCloseAnnouncementDownFilePath, p.doorCloseAnnouncementUpFilePath)
    case (None, None) =>
      assert |f| == 3;
    case (Some(d), None) =>
      assert |f| == 4 && f[3] == d;
    case (None, Some(u)) =>
      assert |f| == 5 && f[3] == "" && f[4] == u;
      assert TrimStart("") == "";
    case (Some(d), Some(u)) =>
      assert |f| == 5 && f[3] == d && f[4] == u;
  }

  /** The body of the read loop for one row, up to the new profile. */
  method ReadRow(line: string) returns (profile: Option<AudioProfile>)
    ensures profile == ParseProfileLine(line)
  {
    if IsNullOrWhiteSpace(line) {
      return None;
    }
    var values := Split(line, ',');
    if |values| < 3 {
      return None;
    }
    var doorDownPath: Option<string> := if |values| > 3 then Some(Trim(values[3])) else None;
    var doorUpPath: Option<string> := if |values| > 4 then Some(Trim(values[4])) else None;
    if doorDownPath == Some("") {
      doorDownPath := None;
    }
    if doorUpPath == Some("") {
      doorUpPath := None;
    }
    profile := Some(AudioProfile(Trim(values[0]), Trim(values[1]), Trim(values[2]), doorDownPath, doorUpPath));
  }

  /** The repository: the CSV path it reads and the cached dictionary. */
  class AudioProfileRepository {
    const csvPath: string
    var profiles: map<string, AudioProfile>

    constructor(csvPath: string)
      ensures this.csvPath == csvPath && profiles == map[]
    {
      this.csvPath := csvPath;
      profiles := map[];
    }

    /** `LoadCsvAsync`: a missing file throws and keeps the cache; otherwise a whole new
        dictionary replaces it. */
    method LoadCsv(fs: FileSystem) returns (o: Outcome)
      modifies this
      ensures !fs.Exists(csvPath) ==> o == Fail(FileNotFound(csvPath)) && profiles == old(profiles)
      ensures fs.Exists(csvPath) ==> o == Pass && profiles == ProfilesOf(fs.files[csvPath])
    {
      if !fs.Exists(csvPath) {
        return Fail(FileNotFound(csvPath));
      }
      var rows := DataRows(fs.files[csvPath]);
      var loaded: map<string, AudioProfile> := map[];
      var n := 0;
      while n < |rows|
        invariant 0 <= n <= |rows|
        invariant loaded == Store(ParseRows(rows[..n]))
      {
        var line := rows[n];
        var profile := ReadRow(line);
        ghost var before := ParseRows(rows[..n]);
        assert rows[..n + 1][..n] == rows[..n];
        assert ParseRows(rows[..n + 1]) == before + [profile];
        assert (before + [profile])[..n] == before;
        n := n + 1;
        if profile.Some? {
          loaded := loaded[profile.value.GetKey() := profile.value];
        }
      }
      assert rows[..n] == rows;
      profiles := loaded;
      return Pass;
    }

    /** `ReloadAsync`: an unconditional load. */
    method Reload(fs: FileSystem) returns (o: Outcome)
      modifies this
      ensures !fs.Exists(csvPath) ==> o == Fail(FileNotFound(csvPath)) && profiles == old(profiles)
      ensures fs.Exists(csvPath) ==> o == Pass && profiles == ProfilesOf(fs.files[csvPath])
    {
      o := LoadCsv(fs);
    }

    /** `EnsureLoadedAsync`: load while the dictionary is empty, so a file with no profiles
        is read again on every lookup. */
    method EnsureLoaded(fs: FileSystem) returns (o: Outcome)
      modifies this
      ensures |old(profiles)| > 0 ==> o == Pass && profiles == old(profiles)
      ensures |old(profiles)| == 0 && !fs.Exists(csvPath) ==> o == Fail(FileNotFound(csvPath)) && profiles == old(profiles)
      ensures |old(profiles)| == 0 && fs.Exists(csvPath) ==> o == Pass && profiles == ProfilesOf(fs.files[csvPath])
    {
      if |profiles| > 0 {
        return Pass;
      }
      o := LoadCsv(fs);
    }

    /** `FindProfileAsync`: after the lazy load, the profile under `station_track`, else null. */
    method FindProfile(station: string, track: string, fs: FileSystem) returns (r: Result<Option<AudioProfile>>)
      modifies this
      ensures profiles == AfterEnsureLoaded(old(profiles), fs, csvPath)
      ensures r == FindResult(old(profiles), fs, csvPath, station, track)
    {
      var o := EnsureLoaded(fs);
      if o.Fail? {
        return Err(o.error);
      }
      r := Ok(Lookup(profiles, station, track));
    }
  }
}
