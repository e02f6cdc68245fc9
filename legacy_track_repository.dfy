/**
 * The middle generation's platform table (`Repository/TrackRepository.cs`): each CSV row
 * names a platform and up to three track circuits, and the set of those circuits is the
 * dictionary key under which the platform is found.
 */
module LegacyTrackRepositories {
  import opened Wrappers

  /** The placeholder the CSV uses for "no second/third circuit". */
  const Nashi := "なし"

  /** One CSV row, by column: 駅名, 番線, 対応軌道回路1, 対応軌道回路2, 対応軌道回路3. An
      empty field reads as the empty string. */
  datatype TrackRow = TrackRow(stationName: string, trackNumber: int,
                               circuit1: string, circuit2: string, circuit3: string)

  /** The value stored for a row: `(StationName, TrackNumber)`. */
  datatype Platform = Platform(stationName: string, trackNumber: int)

  type Table = map<set<string>, Platform>

  function Entry(row: TrackRow): Platform {
    Platform(row.stationName, row.trackNumber)
  }

  /** The key built for a row: circuit 1 when non-empty, circuits 2 and 3 when non-empty and
      not "なし". */
  function KeyOf(row: TrackRow): set<string> {
    (if row.circuit1 != "" then {row.circuit1} else {})
    + (if row.circuit2 != "" && row.circuit2 != Nashi then {row.circuit2} else {})
    + (if row.circuit3 != "" && row.circuit3 != Nashi then {row.circuit3} else {})
  }

  /** A key never holds the empty string; "なし" can only enter it through circuit 1,
      which is not filtered; and every member is one of the row's circuits. */
  lemma KeyMembers(row: TrackRow)
    ensures "" !in KeyOf(row)
    ensures row.circuit1 != "" ==> row.circuit1 in KeyOf(row)
    ensures Nashi in KeyOf(row) <==> row.circuit1 == Nashi
    ensures forall c :: c in KeyOf(row) ==> c == row.circuit1 || c == row.circuit2 || c == row.circuit3
  {
    assert |Nashi| == 2;
  }

  /** A key has at most three circuits. */
  lemma KeySize(row: TrackRow)
    ensures |KeyOf(row)| <= 3
  {
    var a := if row.circuit1 != "" then {row.circuit1} else {};
    var b := if row.circuit2 != "" && row.circuit2 != Nashi then {row.circuit2} else {};
    var c := if row.circuit3 != "" && row.circuit3 != Nashi then {row.circuit3} else {};
    assert |a + b| == |a| + |b| - |a * b|;
    assert |a + b + c| == |a + b| + |c| - |(a + b) * c|;
  }

  /** Adding the rows in order to `base`, as `Dictionary.Add` does: the first row whose key is
      already present throws, leaving the rows before it added. */
  function Loaded(base: Table, rows: seq<TrackRow>): (Table, Outcome)
    decreases |rows|
  {
    if |rows| == 0 then (base, Pass)
    else
      var (m, o) := Loaded(base, rows[..|rows| - 1]);
      if o.Fail? then (m, o)
      else if KeyOf(rows[|rows| - 1]) in m then (m, Fail(DuplicateKey))
      else (m[KeyOf(rows[|rows| - 1]) := Entry(rows[|rows| - 1])], Pass)
  }

  /** No row's key is already in `base` and no two rows share a key. */
  predicate DistinctKeys(base: Table, rows: seq<TrackRow>) {
    && (forall i | 0 <= i < |rows| :: KeyOf(rows[i]) !in base)
    && (forall i, j | 0 <= i < j < |rows| :: KeyOf(rows[i]) != KeyOf(rows[j]))
  }

  /** A failed load is always the duplicate-key exception. */
  lemma {:induction false} LoadFailsOnDuplicate(base: Table, rows: seq<TrackRow>)
    ensures Loaded(base, rows).1.Fail? ==> Loaded(base, rows).1 == Fail(DuplicateKey)
    decreases |rows|
  {
    if |rows| > 0 {
      LoadFailsOnDuplicate(base, rows[..|rows| - 1]);
    }
  }

  /** Distinctness of a sequence of rows, one row at a time from the end. */
  lemma DistinctSnoc(base: Table, init: seq<TrackRow>, last: TrackRow)
    ensures DistinctKeys(base, init + [last]) <==>
      && DistinctKeys(base, init)
      && KeyOf(last) !in base
      && (forall i | 0 <= i < |init| :: KeyOf(init[i]) != KeyOf(last))
  {
    var rows := init + [last];
    assert forall i | 0 <= i < |init| :: rows[i] == init[i];
    assert rows[|init|] == last;
  }

  /** Loading completes iff no row's key is in `base` and no two rows share a key. */
  lemma {:induction false} LoadPassesIffDistinct(base: Table, rows: seq<TrackRow>)
    ensures Loaded(base, rows).1.Pass? <==> DistinctKeys(base, rows)
    decreases |rows|
  {
    if |rows| > 0 {
      var init := rows[..|rows| - 1];
      var last := rows[|rows| - 1];
      assert rows == init + [last];
      DistinctSnoc(base, init, last);
      LoadPassesIffDistinct(base, init);
      var (m, o) := Loaded(base, init);
      if o.Pass? {
        LoadContents(base, init);
        LoadDomain(base, init);
        if KeyOf(last) in m && KeyOf(last) !in base {
          var k :| 0 <= k < |init| && KeyOf(init[k]) == KeyOf(last);
        }
        if KeyOf(last) !in m {
          forall i | 0 <= i < |init| ensures KeyOf(init[i]) != KeyOf(last) {
            assert KeyOf(init[i]) in m;
          }
        }
      }
    }
  }

  /** A completed load maps every row's key to the row's platform. */
  lemma {:induction false} LoadContents(base: Table, rows: seq<TrackRow>)
    requires Loaded(base, rows).1.Pass?
    ensures var m := Loaded(base, rows).0;
      forall i | 0 <= i < |rows| :: KeyOf(rows[i]) in m && m[KeyOf(rows[i])] == Entry(rows[i])
    decreases |rows|
  {
    if |rows| > 0 {
      var init := rows[..|rows| - 1];
      var last := rows[|rows| - 1];
      assert Loaded(base, init).1.Pass?;
      LoadContents(base, init);
      var m := Loaded(base, init).0;
      assert KeyOf(last) !in m;
      var m' := m[KeyOf(last) := Entry(last)];
      assert Loaded(base, rows) == (m', Pass);
      forall i | 0 <= i < |rows| ensures KeyOf(rows[i]) in m' && m'[KeyOf(rows[i])] == Entry(rows[i]) {
        if i < |init| {
          assert rows[i] == init[i];
          assert KeyOf(init[i]) in m;
        }
      }
    }
  }

  /** A completed load keeps every entry of `base` and adds nothing but the rows' keys. */
  lemma {:induction false} LoadDomain(base: Table, rows: seq<TrackRow>)
    requires Loaded(base, rows).1.Pass?
    ensures var m := Loaded(base, rows).0;
      && (forall k | k in base :: k in m && m[k] == base[k])
      && (forall k | k in m :: k in base || exists i | 0 <= i < |rows| :: KeyOf(rows[i]) == k)
    decreases |rows|
  {
    if |rows| > 0 {
      var init := rows[..|rows| - 1];
      var last := rows[|rows| - 1];
      assert Loaded(base, init).1.Pass?;
      LoadDomain(base, init);
      var m := Loaded(base, init).0;
      assert KeyOf(last) !in m;
      var m' := m[KeyOf(last) := Entry(last)];
      assert Loaded(base, rows) == (m', Pass);
      forall k | k in m' ensures k in base || exists i | 0 <= i < |rows| :: KeyOf(rows[i]) == k {
        if k != KeyOf(last) && k !in base {
          var i :| 0 <= i < |init| && KeyOf(init[i]) == k;
          assert KeyOf(rows[i]) == k;
        }
      }
    }
  }

  /** Once a prefix has failed, the rows after it change nothing: loading stops at the
      first duplicate. */
  lemma {:induction false} FailureStops(base: Table, rows: seq<TrackRow>, n: nat)
    requires n <= |rows|
    requires Loaded(base, rows[..n]).1.Fail?
    ensures Loaded(base, rows) == Loaded(base, rows[..n])
    decreases |rows| - n
  {
    if n < |rows| {
      assert rows[..n + 1][..n] == rows[..n];
      FailureStops(base, rows, n + 1);
    } else {
      assert rows[..n] == rows;
    }
  }

  class TrackRepository {
    /** `_trackCircuitToTrack`, keyed by set equality (`HashSet<string>.CreateSetComparer()`). */
    var table: Table

    /** The dictionary starts empty; the constructor then runs `LoadTracksFromCsv`. */
    constructor ()
      ensures table == map[]
    {
      table := map[];
    }

    /** `LoadTracksFromCsv` over the data rows of `Csv\Track.csv`: each row's key set is
        added with its platform; a key already present makes `Add` throw. */
    method LoadTracksFromCsv(rows: seq<TrackRow>) returns (o: Outcome)
      modifies this
      ensures (table, o) == Loaded(old(table), rows)
    {
      var i := 0;
      while i < |rows|
        invariant 0 <= i <= |rows|
        invariant (table, Pass) == Loaded(old(table), rows[..i])
      {
        assert rows[..i + 1][..i] == rows[..i];
        var key := KeyOf(rows[i]);
        if key in table {
          o := Fail(DuplicateKey);
          FailureStops(old(table), rows, i + 1);
          return;
        }
        table := table[key := Entry(rows[i])];
        i := i + 1;
      }
      assert rows[..i] == rows;
      o := Pass;
    }

    /** `GetTrackByTrackCircuits`: `TryGetValue` on the exact circuit set. */
    function GetTrackByTrackCircuits(circuits: set<string>): (r: Option<Platform>)
      reads this
      ensures r.Some? <==> circuits in table
      ensures r.Some? ==> r.value == table[circuits]
    {
      if circuits in table then Some(table[circuits]) else None
    }

    /** After loading `rows` into the empty table, a circuit set is found exactly when it is
        some row's key, and then it gives that row's station and platform. Because keys are
        sets, the order in which circuits are listed plays no part. */
    lemma FindsLoadedRow(rows: seq<TrackRow>, circuits: set<string>)
      requires (table, Pass) == Loaded(map[], rows)
      ensures GetTrackByTrackCircuits(circuits).Some? <==> exists i | 0 <= i < |rows| :: KeyOf(rows[i]) == circuits
      ensures forall i | 0 <= i < |rows| && KeyOf(rows[i]) == circuits ::
        GetTrackByTrackCircuits(circuits) == Some(Entry(rows[i]))
    {
      LoadPassesIffDistinct(map[], rows);
      LoadContents(map[], rows);
      LoadDomain(map[], rows);
    }

    /** A set holding "なし" misses unless some row wrote "なし" as its first circuit, and the
        empty set misses unless some row has no circuit at all. */
    lemma PlaceholderAndEmptyMiss(rows: seq<TrackRow>, circuits: set<string>)
      requires (table, Pass) == Loaded(map[], rows)
      requires forall i | 0 <= i < |rows| :: rows[i].circuit1 != Nashi
      ensures Nashi in circuits ==> GetTrackByTrackCircuits(circuits).None?
      ensures GetTrackByTrackCircuits({}).Some? <==> exists i | 0 <= i < |rows| :: KeyOf(rows[i]) == {}
    {
      LoadDomain(map[], rows);
      if Nashi in circuits && circuits in table {
        var i :| 0 <= i < |rows| && KeyOf(rows[i]) == circuits;
        KeyMembers(rows[i]);
      }
      if exists i | 0 <= i < |rows| :: KeyOf(rows[i]) == {} {
        var i :| 0 <= i < |rows| && KeyOf(rows[i]) == {};
        LoadContents(map[], rows);
        assert KeyOf(rows[i]) in table;
      }
    }
  }
}
