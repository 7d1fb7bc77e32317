/** The range filter `df_subset` (electric_tower_utils.py:156-168) over the tower-coordinate
    table: the rows whose value in one column lies between two bounds, both inclusive, in their
    original order. */
module Subset {
  import opened Wrappers
  import opened Seqs
  import opened TowerCoords

  /** A bound as a Python float: finite, or one of the two infinities the defaults use. */
  datatype Bound = NegInf | Finite(value: real) | PosInf

  datatype SubsetError =
    | UnknownColumn(feature: string)   // `df[feature]` on a missing column: KeyError
    | NotComparable(feature: string)   // a text column compared with a float: TypeError

  predicate IsNumeric(feature: string)
  {
    feature == "id" || feature == "tx_line_length" || feature == "voltage" || feature == "lon" || feature == "lat"
  }

  predicate IsText(feature: string)
  {
    feature == "state" || feature == "region" || feature == "owner"
  }

  /** The value of a numeric column in one row. */
  function Value(p: TowerPoint, feature: string): real
    requires IsNumeric(feature)
  {
    match feature
    case "id" => p.id as real
    case "tx_line_length" => p.txLineLength
    case "voltage" => p.voltage
    case "lon" => p.lon
    case _ => p.lat
  }

  /** `v >= lo`. */
  predicate AtLeast(v: real, lo: Bound)
  {
    match lo
    case NegInf => true
    case Finite(b) => v >= b
    case PosInf => false
  }

  /** `v <= hi`. */
  predicate AtMost(v: real, hi: Bound)
  {
    match hi
    case NegInf => false
    case Finite(b) => v <= b
    case PosInf => true
  }

  /** The mask `(df[feature] >= min_value) & (df[feature] <= max_value)` for one row. */
  function InRange(feature: string, lo: Bound, hi: Bound): TowerPoint -> bool
    requires IsNumeric(feature)
  {
    (p: TowerPoint) => AtLeast(Value(p, feature), lo) && AtMost(Value(p, feature), hi)
  }

  /** `df_subset(df, feature, min_value, max_value)` on a tower-coordinates frame, with the source's
      defaults. A column the frame lacks fails (every column of the column-less frame, the default
      "voltage" included); a text column fails whenever there is a row to compare; a numeric
      column of a frame that has the tower columns never fails, and the subset keeps those columns. */
  function DfSubset(df: TowerFrame, feature: string := "voltage", lo: Bound := NegInf, hi: Bound := PosInf)
    : (r: Result<TowerFrame, SubsetError>)
    ensures r == Err(UnknownColumn(feature)) <==> df.NoColumns? || (!IsNumeric(feature) && !IsText(feature))
    ensures r == Err(NotComparable(feature)) <==> df.Columns? && IsText(feature) && df.rows != []
    ensures df.Columns? && IsNumeric(feature) ==> r.Ok?
    ensures r.Err? ==> r.error.feature == feature
    ensures r.Ok? ==> r.value.Columns?
  {
    match df
    case NoColumns => Err(UnknownColumn(feature))
    case Columns(rows) =>
      if IsNumeric(feature) then Ok(Columns(Filter(rows, InRange(feature, lo, hi))))
      else if !IsText(feature) then Err(UnknownColumn(feature))
      else if rows == [] then Ok(Columns([]))
      else Err(NotComparable(feature))
  }

  // ---------------------------------------------------------------------------------------------
  // What the filter keeps

  /** On a numeric column the subset is the order-preserving subsequence of the rows in range:
      it keeps every copy of a row in range and no row out of range, and it is the only
      subsequence of the input that does so. */
  lemma DfSubsetSpec(rows: seq<TowerPoint>, feature: string, lo: Bound, hi: Bound, x: TowerPoint)
    requires IsNumeric(feature)
    ensures DfSubset(Columns(rows), feature, lo, hi).Ok?
    ensures Subsequence(DfSubset(Columns(rows), feature, lo, hi).value.rows, rows)
    ensures forall k :: 0 <= k < |DfSubset(Columns(rows), feature, lo, hi).value.rows| ==>
              AtLeast(Value(DfSubset(Columns(rows), feature, lo, hi).value.rows[k], feature), lo) &&
              AtMost(Value(DfSubset(Columns(rows), feature, lo, hi).value.rows[k], feature), hi)
    ensures multiset(DfSubset(Columns(rows), feature, lo, hi).value.rows)[x] ==
              if AtLeast(Value(x, feature), lo) && AtMost(Value(x, feature), hi) then multiset(rows)[x] else 0
  {
    var keep := InRange(feature, lo, hi);
    var kept := Filter(rows, keep);
    FilterIsSubsequence(rows, keep);
    FilterCount(rows, keep, x);
    forall k | 0 <= k < |kept|
      ensures keep(kept[k])
    {
      FilterMembership(rows, keep, kept[k]);
    }
  }

  /** Any order-preserving subsequence of in-range rows that is as long as the subset is the
      subset: the characterisation above pins the result down. */
  lemma DfSubsetUnique(rows: seq<TowerPoint>, feature: string, lo: Bound, hi: Bound, r: seq<TowerPoint>)
    requires IsNumeric(feature)
    requires Subsequence(r, rows)
    requires forall k :: 0 <= k < |r| ==> AtLeast(Value(r[k], feature), lo) && AtMost(Value(r[k], feature), hi)
    requires |r| == |DfSubset(Columns(rows), feature, lo, hi).value.rows|
    ensures DfSubset(Columns(rows), feature, lo, hi) == Ok(Columns(r))
  {
    FilterUnique(r, rows, InRange(feature, lo, hi));
  }

  // ---------------------------------------------------------------------------------------------
  // How subsets combine

  /** With the default (infinite) bounds every row is kept. */
  lemma DfSubsetDefaults(rows: seq<TowerPoint>, feature: string)
    requires IsNumeric(feature)
    ensures DfSubset(Columns(rows), feature) == Ok(Columns(rows))
    ensures DfSubset(Columns(rows)) == Ok(Columns(rows))
  {
    FilterKeepsAll(rows, InRange(feature, NegInf, PosInf));
    FilterKeepsAll(rows, InRange("voltage", NegInf, PosInf));
  }

  /** The larger of two lower bounds. */
  function MaxLower(a: Bound, b: Bound): Bound
  {
    match (a, b)
    case (NegInf, _) => b
    case (_, NegInf) => a
    case (PosInf, _) => PosInf
    case (_, PosInf) => PosInf
    case (Finite(x), Finite(y)) => if x >= y then a else b
  }

  /** The smaller of two upper bounds. */
  function MinUpper(a: Bound, b: Bound): Bound
  {
    match (a, b)
    case (PosInf, _) => b
    case (_, PosInf) => a
    case (NegInf, _) => NegInf
    case (_, NegInf) => NegInf
    case (Finite(x), Finite(y)) => if x <= y then a else b
  }

  /** A value lies within both ranges exactly when it lies within their intersection. */
  lemma BoundsMeet(v: real, lo1: Bound, hi1: Bound, lo2: Bound, hi2: Bound)
    ensures AtLeast(v, MaxLower(lo1, lo2)) == (AtLeast(v, lo1) && AtLeast(v, lo2))
    ensures AtMost(v, MinUpper(hi1, hi2)) == (AtMost(v, hi1) && AtMost(v, hi2))
  {
  }

  /** Subsetting twice on the same column is subsetting once on the intersection of the ranges. */
  lemma DfSubsetTwice(rows: seq<TowerPoint>, feature: string, lo1: Bound, hi1: Bound, lo2: Bound, hi2: Bound)
    requires IsNumeric(feature)
    ensures DfSubset(Columns(rows), feature, lo1, hi1).Ok?
    ensures DfSubset(DfSubset(Columns(rows), feature, lo1, hi1).value, feature, lo2, hi2)
              == DfSubset(Columns(rows), feature, MaxLower(lo1, lo2), MinUpper(hi1, hi2))
  {
    var both := InRange(feature, MaxLower(lo1, lo2), MinUpper(hi1, hi2));
    forall p: TowerPoint
      ensures both(p) == (InRange(feature, lo1, hi1)(p) && InRange(feature, lo2, hi2)(p))
    {
      BoundsMeet(Value(p, feature), lo1, hi1, lo2, hi2);
    }
    var first := Filter(rows, InRange(feature, lo1, hi1));
    assert DfSubset(Columns(rows), feature, lo1, hi1) == Ok(Columns(first));
    assert DfSubset(Columns(first), feature, lo2, hi2) == Ok(Columns(Filter(first, InRange(feature, lo2, hi2))));
    FilterFilter(rows, InRange(feature, lo1, hi1), InRange(feature, lo2, hi2), both);
  }

  /** Ranges that meet at one value: subsetting to [a, b] and then to [b, c] keeps exactly the
      rows whose value is b. */
  lemma DfSubsetAdjacent(rows: seq<TowerPoint>, feature: string, a: real, b: real, c: real)
    requires IsNumeric(feature) && a <= b <= c
    ensures DfSubset(Columns(rows), feature, Finite(a), Finite(b)).Ok?
    ensures DfSubset(DfSubset(Columns(rows), feature, Finite(a), Finite(b)).value, feature, Finite(b), Finite(c))
              == Ok(Columns(Filter(rows, (p: TowerPoint) => Value(p, feature) == b)))
  {
    DfSubsetTwice(rows, feature, Finite(a), Finite(b), Finite(b), Finite(c));
    var point := (p: TowerPoint) => Value(p, feature) == b;
    assert forall p :: InRange(feature, Finite(b), Finite(b))(p) == point(p);
    FilterSame(rows, InRange(feature, Finite(b), Finite(b)), point);
  }

  /** Subsetting is idempotent. */
  lemma DfSubsetIdempotent(rows: seq<TowerPoint>, feature: string, lo: Bound, hi: Bound)
    requires IsNumeric(feature)
    ensures DfSubset(Columns(rows), feature, lo, hi).Ok?
    ensures DfSubset(DfSubset(Columns(rows), feature, lo, hi).value, feature, lo, hi) == DfSubset(Columns(rows), feature, lo, hi)
  {
    var keep := InRange(feature, lo, hi);
    FilterFilter(rows, keep, keep, keep);
  }

  /** Subsets on two columns can be taken in either order. */
  lemma DfSubsetCommute(rows: seq<TowerPoint>, f: string, lo: Bound, hi: Bound, g: string, lo': Bound, hi': Bound)
    requires IsNumeric(f) && IsNumeric(g)
    ensures DfSubset(Columns(rows), f, lo, hi).Ok? && DfSubset(Columns(rows), g, lo', hi').Ok?
    ensures DfSubset(DfSubset(Columns(rows), f, lo, hi).value, g, lo', hi')
              == DfSubset(DfSubset(Columns(rows), g, lo', hi').value, f, lo, hi)
  {
    var p := InRange(f, lo, hi);
    var q := InRange(g, lo', hi');
    var pq := (t: TowerPoint) => p(t) && q(t);
    assert DfSubset(Columns(rows), f, lo, hi) == Ok(Columns(Filter(rows, p)));
    assert DfSubset(Columns(rows), g, lo', hi') == Ok(Columns(Filter(rows, q)));
    FilterFilter(rows, p, q, pq);
    FilterFilter(rows, q, p, pq);
  }
}
