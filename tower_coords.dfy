/** The line-to-point decomposer `get_tower_coords` (electric_tower_utils.py:101-153): every
    LineString row of `tx_lines.csv` becomes one tower point per vertex, in vertex order, carrying
    the line's attributes; every other row becomes one entry of `error.log` and no point. */
module TowerCoords {
  import opened TxData

  /** One row of `tower_coordinates.csv`. */
  datatype TowerPoint = TowerPoint(id: int, txLineLength: real, voltage: real, state: string,
                                   region: string, owner: string, lon: real, lat: real)

  /** The point made from vertex `k` of the row's geometry. */
  function PointAt(row: Row, k: nat): TowerPoint
    requires k < |row.line.geometry.coords|
  {
    var v := row.line.geometry.coords[k];
    TowerPoint(row.line.id, row.line.shapeLeng, row.line.voltage, row.state, row.region, row.line.owner, v.x, v.y)
  }

  /** The frame built from a LineString row: its scalar attributes broadcast over `coords.xy`. */
  function VertexRun(row: Row): seq<TowerPoint>
  {
    seq(|row.line.geometry.coords|, k requires 0 <= k < |row.line.geometry.coords| => PointAt(row, k))
  }

  predicate IsLineString(row: Row)
  {
    row.line.geometry.geomType == LineString
  }

  /** What one input row contributes to the output. */
  function LinePoints(row: Row): seq<TowerPoint>
  {
    if IsLineString(row) then VertexRun(row) else []
  }

  /** The output after the first `n` rows: the runs of their points, in row order. */
  function Expand(rows: seq<Row>, n: nat): seq<TowerPoint>
    requires n <= |rows|
  {
    if n == 0 then [] else Expand(rows, n - 1) + LinePoints(rows[n - 1])
  }

  /** The log after the first `n` rows: one entry per row that is not a LineString, naming its ID,
      its position (the index `read_csv` gives it) and its geometry type. */
  function SkipLog(rows: seq<Row>, n: nat): seq<LogEntry>
    requires n <= |rows|
  {
    if n == 0 then []
    else if IsLineString(rows[n - 1]) then SkipLog(rows, n - 1)
    else SkipLog(rows, n - 1) + [SkippedRow(rows[n - 1].line.id, n - 1, rows[n - 1].line.geometry.geomType)]
  }

  /** A pandas frame of tower points: the bare `pd.DataFrame()` the decomposer starts from, which
      has no columns at all, or a frame with the eight tower columns and these rows. */
  datatype TowerFrame = NoColumns | Columns(rows: seq<TowerPoint>)

  /** Whether one of the first `n` rows is a LineString, so that something was appended to the frame. */
  predicate HasLineString(rows: seq<Row>, n: nat)
    requires n <= |rows|
  {
    exists i :: 0 <= i < n && IsLineString(rows[i])
  }

  /** `get_tower_coords` after reading and parsing `filename`: returns the frame it writes to
      `tower_coordinates.csv` and returns to its caller, and the entries it writes to `error.log`.
      The frame is still column-less when no row is a LineString. */
  method GetTowerCoords(rows: seq<Row>, now: string) returns (tempDf: TowerFrame, log: seq<LogEntry>)
    ensures tempDf == if HasLineString(rows, |rows|) then Columns(Expand(rows, |rows|)) else NoColumns
    ensures log == [Started(now)] + SkipLog(rows, |rows|)
  {
    log := [Started(now)];
    tempDf := NoColumns;
    for index := 0 to |rows|
      invariant tempDf == if HasLineString(rows, index) then Columns(Expand(rows, index)) else NoColumns
      invariant log == [Started(now)] + SkipLog(rows, index)
    {
      var row := rows[index];
      if row.line.geometry.geomType == LineString {
        var sofar := if tempDf.Columns? then tempDf.rows else [];
        NoLineStringNoPoints(rows, index);
        assert HasLineString(rows, index + 1) by {
          assert IsLineString(rows[index]);
        }
        tempDf := Columns(sofar + VertexRun(row));
      } else {
        var entry := SkippedRow(row.line.id, index, row.line.geometry.geomType);
        assert SkipLog(rows, index + 1) == SkipLog(rows, index) + [entry];
        assert HasLineString(rows, index + 1) == HasLineString(rows, index) by {
          if HasLineString(rows, index + 1) {
            var i :| 0 <= i < index + 1 && IsLineString(rows[i]);
            assert i < index;
          }
        }
        log := log + [entry];
      }
    }
  }

  /** Only LineString rows produce points: without one, the output has no rows. */
  lemma {:induction false} NoLineStringNoPoints(rows: seq<Row>, n: nat)
    requires n <= |rows|
    ensures !HasLineString(rows, n) ==> Expand(rows, n) == []
  {
    if n > 0 && !HasLineString(rows, n) {
      NoLineStringNoPoints(rows, n - 1);
      assert !IsLineString(rows[n - 1]);
    }
  }

  // ---------------------------------------------------------------------------------------------
  // Order

  /** The output only grows. */
  lemma {:induction false} ExpandGrows(rows: seq<Row>, m: nat, n: nat)
    requires m <= n <= |rows|
    ensures |Expand(rows, m)| <= |Expand(rows, n)|
  {
    if m < n {
      ExpandGrows(rows, m, n - 1);
      assert |Expand(rows, n)| == |Expand(rows, n - 1)| + |LinePoints(rows[n - 1])|;
    }
  }

  /** Rows processed later never change the points already produced. */
  lemma {:induction false} ExpandPrefix(rows: seq<Row>, m: nat, n: nat)
    requires m <= n <= |rows|
    ensures |Expand(rows, m)| <= |Expand(rows, n)|
    ensures Expand(rows, n)[..|Expand(rows, m)|] == Expand(rows, m)
  {
    ExpandGrows(rows, m, n);
    if m == n {
      assert Expand(rows, n)[..|Expand(rows, n)|] == Expand(rows, n);
    } else {
      var done := Expand(rows, m);
      var prev := Expand(rows, n - 1);
      ExpandPrefix(rows, m, n - 1);
      assert prev[..|done|] == done;
      PrefixOfAppend(prev, LinePoints(rows[n - 1]), |done|);
    }
  }

  /** Row `i`'s points sit together, right after the points of the rows before it. */
  lemma ExpandSlice(rows: seq<Row>, n: nat, i: nat)
    requires i < n <= |rows|
    ensures |Expand(rows, i)| + |LinePoints(rows[i])| == |Expand(rows, i + 1)| <= |Expand(rows, n)|
    ensures Expand(rows, n)[|Expand(rows, i)|..|Expand(rows, i + 1)|] == LinePoints(rows[i])
  {
    ExpandPrefix(rows, i + 1, n);
    SliceOfPrefix(Expand(rows, n), Expand(rows, i), LinePoints(rows[i]));
  }

  /** A LineString row with k vertices yields exactly k consecutive points, one per vertex in
      vertex order, each carrying the row's attributes; any other row yields none. */
  lemma ExpandRun(rows: seq<Row>, n: nat, i: nat)
    requires i < n <= |rows|
    ensures |Expand(rows, i)| <= |Expand(rows, i + 1)| <= |Expand(rows, n)|
    ensures IsLineString(rows[i]) ==>
              |Expand(rows, i + 1)| - |Expand(rows, i)| == |rows[i].line.geometry.coords| &&
              forall k :: 0 <= k < |rows[i].line.geometry.coords| ==>
                Expand(rows, n)[|Expand(rows, i)| + k] == PointAt(rows[i], k)
    ensures !IsLineString(rows[i]) ==> |Expand(rows, i + 1)| == |Expand(rows, i)|
  {
    ExpandSlice(rows, n, i);
    if IsLineString(rows[i]) {
      forall k | 0 <= k < |rows[i].line.geometry.coords|
        ensures Expand(rows, n)[|Expand(rows, i)| + k] == PointAt(rows[i], k)
      {
        SliceIndex(Expand(rows, n), |Expand(rows, i)|, |Expand(rows, i + 1)|, k);
      }
    }
  }

  lemma PrefixOfAppend<T>(a: seq<T>, b: seq<T>, k: nat)
    requires k <= |a|
    ensures (a + b)[..k] == a[..k]
  {
  }

  /** If `s` starts with `a + b`, then `b` is the slice of `s` right after `a`. */
  lemma SliceOfPrefix<T>(s: seq<T>, a: seq<T>, b: seq<T>)
    requires |a + b| <= |s| && s[..|a + b|] == a + b
    ensures s[|a|..|a| + |b|] == b
  {
    assert s[|a|..|a| + |b|] == s[..|a + b|][|a|..];
  }

  lemma SliceIndex<T>(s: seq<T>, lo: nat, hi: nat, k: nat)
    requires lo <= hi <= |s| && k < hi - lo
    ensures s[lo + k] == s[lo..hi][k]
  {
  }

  /** Every point comes from some row and every row's points are in the output. */
  lemma {:induction false} ExpandMembership(rows: seq<Row>, n: nat, p: TowerPoint)
    requires n <= |rows|
    ensures p in Expand(rows, n) <==> exists i :: 0 <= i < n && p in LinePoints(rows[i])
  {
    if n > 0 {
      ExpandMembership(rows, n - 1, p);
      var prev := Expand(rows, n - 1);
      var run := LinePoints(rows[n - 1]);
      assert Expand(rows, n) == prev + run;
      if p in run {
        assert p in LinePoints(rows[n - 1]);
      } else if p in prev {
        var i :| 0 <= i < n - 1 && p in LinePoints(rows[i]);
        assert 0 <= i < n && p in LinePoints(rows[i]);
      }
    }
  }

  // ---------------------------------------------------------------------------------------------
  // The log

  /** Every log entry names a row that is not a LineString, with that row's ID, position and
      geometry type. */
  lemma {:induction false} SkipLogSound(rows: seq<Row>, n: nat)
    requires n <= |rows|
    ensures forall e :: e in SkipLog(rows, n) ==>
              e.SkippedRow? && e.index < n && !IsLineString(rows[e.index]) &&
              e.id == rows[e.index].line.id && e.geomType == rows[e.index].line.geometry.geomType
  {
    if n > 0 {
      SkipLogSound(rows, n - 1);
      var row := rows[n - 1];
      if !IsLineString(row) {
        var entry := SkippedRow(row.line.id, n - 1, row.line.geometry.geomType);
        assert SkipLog(rows, n) == SkipLog(rows, n - 1) + [entry];
      }
    }
  }

  /** Every row that is not a LineString is named in the log exactly once. */
  lemma {:induction false} SkipLogComplete(rows: seq<Row>, n: nat)
    requires n <= |rows|
    ensures forall i :: 0 <= i < n && !IsLineString(rows[i]) ==>
              multiset(SkipLog(rows, n))[SkippedRow(rows[i].line.id, i, rows[i].line.geometry.geomType)] == 1
  {
    if n > 0 {
      SkipLogComplete(rows, n - 1);
      var prev := SkipLog(rows, n - 1);
      var row := rows[n - 1];
      if !IsLineString(row) {
        var entry := SkippedRow(row.line.id, n - 1, row.line.geometry.geomType);
        assert entry !in prev by {
          SkipLogSound(rows, n - 1);
        }
        assert SkipLog(rows, n) == prev + [entry];
        forall i | 0 <= i < n && !IsLineString(rows[i])
          ensures multiset(SkipLog(rows, n))[SkippedRow(rows[i].line.id, i, rows[i].line.geometry.geomType)] == 1
        {
          var named := SkippedRow(rows[i].line.id, i, rows[i].line.geometry.geomType);
          assert multiset(prev + [entry])[named] == multiset(prev)[named] + multiset([entry])[named];
        }
      }
    }
  }
}
