/** What the region/state partition promises: which rows a state contributes, what the state loop
    logs, when the partition fails and with which error, and how many times each line ends up in
    `tx_lines.csv` under each (state, region) label. */
module RegionFacts {
  import opened Wrappers
  import opened Seqs
  import opened TxData
  import opened RegionSplit

  /** The lines of a state table, without their state stamp. */
  function LinesOf(rows: seq<StateRow>): seq<TxLine>
  {
    seq(|rows|, k requires 0 <= k < |rows| => rows[k].line)
  }

  /** How many times `state` is listed under a region named `region` among the first `n` regions. */
  function Listed(rs: seq<Region>, n: nat, region: string, state: string): nat
    requires n <= |rs|
  {
    if n == 0 then 0
    else Listed(rs, n - 1, region, state) + (if rs[n - 1].name == region then multiset(rs[n - 1].states)[state] else 0)
  }

  /** `state`'s boundary is found, is polygonal, and contains `l`. */
  ghost predicate Inside(env: Env, state: string, l: TxLine)
  {
    Lookup(env.usStates, state).Ok? && env.contains(Lookup(env.usStates, state).value, l.geometry)
  }

  // ---------------------------------------------------------------------------------------------
  // Stamping keeps every row and only relabels it

  lemma {:induction false} StampStateCount(ls: seq<TxLine>, state: string, x: StateRow)
    ensures multiset(StampState(ls, state))[x] == if x.state == state then multiset(ls)[x.line] else 0
  {
    if ls != [] {
      var n := |ls| - 1;
      StampStateCount(ls[..n], state, x);
      assert StampState(ls, state) == StampState(ls[..n], state) + [StateRow(ls[n], state)];
      assert ls == ls[..n] + [ls[n]];
    }
  }

  lemma {:induction false} StampRegionCount(rows: seq<StateRow>, region: string, x: Row)
    ensures multiset(StampRegion(rows, region))[x] ==
              if x.region == region then multiset(rows)[StateRow(x.line, x.state)] else 0
  {
    if rows != [] {
      var n := |rows| - 1;
      StampRegionCount(rows[..n], region, x);
      assert StampRegion(rows, region) == StampRegion(rows[..n], region) + [Row(rows[n].line, rows[n].state, region)];
      assert rows == rows[..n] + [rows[n]];
    }
  }

  // ---------------------------------------------------------------------------------------------
  // One state

  /** One state's table: input lines in input order, each stamped with the state, every copy of a
      line its boundary contains and no other line. */
  lemma StateTableSpec(env: Env, state: string, l: TxLine)
    requires Lookup(env.usStates, state).Ok?
    ensures StateTable(env, state).Ok?
    ensures forall k :: 0 <= k < |StateTable(env, state).value| ==> StateTable(env, state).value[k].state == state
    ensures Subsequence(LinesOf(StateTable(env, state).value), env.lines)
    ensures multiset(LinesOf(StateTable(env, state).value))[l] ==
              if Inside(env, state, l) then multiset(env.lines)[l] else 0
  {
    var area := Lookup(env.usStates, state).value;
    var kept := ContainedLines(env.lines, area, env.contains);
    assert LinesOf(StampState(kept, state)) == kept;
    FilterIsSubsequence(env.lines, InArea(area, env.contains));
    FilterCount(env.lines, InArea(area, env.contains), l);
  }

  // ---------------------------------------------------------------------------------------------
  // The state loop

  /** The state loop succeeds exactly when every state is found with a polygonal boundary, and
      then its `j`-th table is the `j`-th state's table. */
  lemma {:induction false} StatesRunSucceeds(env: Env, states: seq<string>, n: nat)
    requires n <= |states|
    ensures StatesRun(env, states, n).outcome.Ok? <==>
              forall j :: 0 <= j < n ==> Lookup(env.usStates, states[j]).Ok?
    ensures StatesRun(env, states, n).outcome.Ok? ==>
              |StatesRun(env, states, n).outcome.value| == n &&
              forall j :: 0 <= j < n ==> StatesRun(env, states, n).outcome.value[j] == StateTable(env, states[j]).value
  {
    if n > 0 {
      StatesRunSucceeds(env, states, n - 1);
      var prev := StatesRun(env, states, n - 1);
      if prev.outcome.Ok? {
        var st := StateTable(env, states[n - 1]);
        if st.Ok? {
          assert StatesRun(env, states, n).outcome == Ok(prev.outcome.value + [st.value]);
        } else {
          assert StatesRun(env, states, n).outcome == Err(st.error);
        }
      } else {
        assert StatesRun(env, states, n) == prev;
      }
    }
  }

  /** The state loop logs one count per state it finishes, in order, each equal to the number of
      rows that state contributes. It finishes every state when it succeeds; when it fails, the
      error is the lookup error of the first state it did not finish. */
  lemma {:induction false} StatesRunLog(env: Env, states: seq<string>, n: nat)
    requires n <= |states|
    ensures |StatesRun(env, states, n).log| <= n
    ensures forall j :: 0 <= j < |StatesRun(env, states, n).log| ==>
              StateTable(env, states[j]).Ok? &&
              StatesRun(env, states, n).log[j] == StateCount(states[j], |StateTable(env, states[j]).value|)
    ensures StatesRun(env, states, n).outcome.Ok? ==> |StatesRun(env, states, n).log| == n
    ensures StatesRun(env, states, n).outcome.Err? ==>
              |StatesRun(env, states, n).log| < n &&
              Lookup(env.usStates, states[|StatesRun(env, states, n).log|]) == Err(StatesRun(env, states, n).outcome.error)
  {
    if n > 0 {
      StatesRunLog(env, states, n - 1);
      var prev := StatesRun(env, states, n - 1);
      if prev.outcome.Ok? {
        var st := StateTable(env, states[n - 1]);
        if st.Ok? {
          assert StatesRun(env, states, n).log == prev.log + [StateCount(states[n - 1], |st.value|)];
        } else {
          assert StatesRun(env, states, n) == Run(Err(st.error), prev.log);
        }
      } else {
        assert StatesRun(env, states, n) == prev;
      }
    }
  }

  /** One state's table holds each line its boundary contains once for every copy in the input,
      stamped with that state, and nothing else. */
  lemma StateTableCount(env: Env, state: string, x: StateRow)
    requires Lookup(env.usStates, state).Ok?
    ensures StateTable(env, state).Ok?
    ensures multiset(StateTable(env, state).value)[x] ==
              if x.state == state && Inside(env, state, x.line) then multiset(env.lines)[x.line] else 0
  {
    var area := Lookup(env.usStates, state).value;
    StampStateCount(ContainedLines(env.lines, area, env.contains), state, x);
    FilterCount(env.lines, InArea(area, env.contains), x.line);
  }

  /** Concatenated tables of the first `n` states: each line appears under state `x.state` once
      for every copy of it in the input and every time that state is listed, provided the state's
      boundary contains it. */
  lemma TablesCount(env: Env, states: seq<string>, tables: seq<seq<StateRow>>, x: StateRow)
    requires |tables| <= |states|
    requires forall j :: 0 <= j < |tables| ==>
               StateTable(env, states[j]).Ok? && tables[j] == StateTable(env, states[j]).value
    ensures multiset(Flatten(tables))[x] ==
              if Inside(env, x.state, x.line) then Times(multiset(env.lines)[x.line], multiset(states[..|tables|])[x.state]) else 0
  {
    var w := if Inside(env, x.state, x.line) then multiset(env.lines)[x.line] else 0;
    forall j | 0 <= j < |tables|
      ensures multiset(tables[j])[x] == if states[j] == x.state then w else 0
    {
      StateTableCount(env, states[j], x);
    }
    FlattenCount(tables, states, x, x.state, w);
    TimesIsProduct(w, multiset(states[..|tables|])[x.state]);
  }

  // ---------------------------------------------------------------------------------------------
  // The intended partition

  lemma RegionRowsCount(env: Env, r: Region, x: Row)
    requires RegionRows(env, r).Ok?
    ensures multiset(RegionRows(env, r).value)[x] ==
              if x.region == r.name && Inside(env, x.state, x.line)
              then Times(multiset(env.lines)[x.line], multiset(r.states)[x.state]) else 0
  {
    var tables := StatesRun(env, r.states, |r.states|).outcome.value;
    StampRegionCount(Flatten(tables), r.name, x);
    StatesRunSucceeds(env, r.states, |r.states|);
    TablesCount(env, r.states, tables, StateRow(x.line, x.state));
    assert r.states[..|r.states|] == r.states;
  }

  /** The count of one labelled row in the partition of the first `n` regions, by induction on
      `n`; `PartitionMultiplicity` states it for the whole configuration. */
  lemma {:induction false} PartitionCount(env: Env, rs: seq<Region>, n: nat, x: Row)
    requires n <= |rs|
    requires PartitionUpTo(env, rs, n).Ok?
    ensures multiset(PartitionUpTo(env, rs, n).value)[x] ==
              if Inside(env, x.state, x.line) then Times(multiset(env.lines)[x.line], Listed(rs, n, x.region, x.state)) else 0
  {
    if n == 0 {
      assert PartitionUpTo(env, rs, 0).value == [];
      assert Listed(rs, 0, x.region, x.state) == 0;
    } else {
      PartitionStep(env, rs, n);
      PartitionCount(env, rs, n - 1, x);
      RegionRowsCount(env, rs[n - 1], x);
      ListedStep(rs, n, x.region, x.state, Inside(env, x.state, x.line), multiset(env.lines)[x.line]);
      var total := multiset(PartitionUpTo(env, rs, n).value)[x];
      var done := multiset(PartitionUpTo(env, rs, n - 1).value)[x];
      var rows := multiset(RegionRows(env, rs[n - 1]).value)[x];
      assert total == done + rows;
      assert total == if Inside(env, x.state, x.line) then Times(multiset(env.lines)[x.line], Listed(rs, n, x.region, x.state)) else 0;
    }
  }

  /** One more region adds its own listings of the state, weighted by `m`, when `inside` holds. */
  lemma ListedStep(rs: seq<Region>, n: nat, region: string, state: string, inside: bool, m: nat)
    requires 0 < n <= |rs|
    ensures (if inside then Times(m, Listed(rs, n, region, state)) else 0)
         == (if inside then Times(m, Listed(rs, n - 1, region, state)) else 0)
          + (if rs[n - 1].name == region && inside then Times(m, multiset(rs[n - 1].states)[state]) else 0)
  {
    if rs[n - 1].name == region {
      TimesAdd(m, Listed(rs, n - 1, region, state), multiset(rs[n - 1].states)[state]);
    }
  }

  /** The intended partition: each input line appears labelled (state s, region r) once for every
      copy of it in the input and every time s is listed under a region named r, provided s's
      boundary contains it, and never otherwise. Lines no listed state contains are dropped; a
      line inside several listed states is repeated, once under each. */
  lemma PartitionMultiplicity(env: Env, rs: seq<Region>, x: Row)
    requires Partition(env, rs).Ok?
    ensures multiset(Partition(env, rs).value)[x] ==
              if Inside(env, x.state, x.line) then multiset(env.lines)[x.line] * Listed(rs, |rs|, x.region, x.state) else 0
  {
    PartitionCount(env, rs, |rs|, x);
    TimesIsProduct(multiset(env.lines)[x.line], Listed(rs, |rs|, x.region, x.state));
  }

  /** A successful partition of `n` regions is the partition of the first `n - 1` followed by the
      last region's rows. */
  lemma PartitionStep(env: Env, rs: seq<Region>, n: nat)
    requires 0 < n <= |rs|
    requires PartitionUpTo(env, rs, n).Ok?
    ensures PartitionUpTo(env, rs, n - 1).Ok? && RegionRows(env, rs[n - 1]).Ok?
    ensures PartitionUpTo(env, rs, n).value == PartitionUpTo(env, rs, n - 1).value + RegionRows(env, rs[n - 1]).value
  {
  }

  /** The rows one region contributes, or none when a lookup fails. */
  function RegionTable(env: Env, r: Region): seq<Row>
  {
    match RegionRows(env, r)
    case Ok(t) => t
    case Err(_) => []
  }

  /** One state's stamped table, or none when its lookup fails. */
  function StateTableOrEmpty(env: Env, state: string): seq<StateRow>
  {
    match StateTable(env, state)
    case Ok(t) => t
    case Err(_) => []
  }

  /** Within a region, rows come state by state in the order the states are listed, each state's
      rows being its table, all stamped with the region name. */
  lemma RegionRowsInOrder(env: Env, r: Region)
    requires RegionRows(env, r).Ok?
    ensures RegionRows(env, r).value ==
              StampRegion(Flatten(seq(|r.states|, j requires 0 <= j < |r.states| => StateTableOrEmpty(env, r.states[j]))), r.name)
  {
    var tables := StatesRun(env, r.states, |r.states|).outcome.value;
    StatesRunSucceeds(env, r.states, |r.states|);
    assert tables == seq(|r.states|, j requires 0 <= j < |r.states| => StateTableOrEmpty(env, r.states[j]));
  }

  /** The partition lists the regions' rows region by region, in configuration order. */
  lemma {:induction false} PartitionInOrder(env: Env, rs: seq<Region>, n: nat)
    requires n <= |rs|
    requires PartitionUpTo(env, rs, n).Ok?
    ensures PartitionUpTo(env, rs, n).value == Flatten(seq(n, i requires 0 <= i < n => RegionTable(env, rs[i])))
  {
    var parts := seq(n, i requires 0 <= i < n => RegionTable(env, rs[i]));
    if n == 0 {
      assert parts == [];
    } else {
      PartitionStep(env, rs, n);
      PartitionInOrder(env, rs, n - 1);
      var prefix := seq(n - 1, i requires 0 <= i < n - 1 => RegionTable(env, rs[i]));
      assert parts == prefix + [RegionTable(env, rs[n - 1])];
      FlattenSnoc(prefix, RegionTable(env, rs[n - 1]));
    }
  }

  /** The intended partition succeeds exactly when every state listed under the first `n` regions
      is found with a polygonal boundary. */
  lemma {:induction false} PartitionSucceeds(env: Env, rs: seq<Region>, n: nat)
    requires n <= |rs|
    ensures PartitionUpTo(env, rs, n).Ok? <==>
              forall i, j :: 0 <= i < n && 0 <= j < |rs[i].states| ==> Lookup(env.usStates, rs[i].states[j]).Ok?
  {
    if n > 0 {
      PartitionSucceeds(env, rs, n - 1);
      var r := rs[n - 1];
      StatesRunSucceeds(env, r.states, |r.states|);
    }
  }

  /** When the intended partition fails, the error is the lookup error of the first listed state,
      in configuration order, whose lookup fails. */
  lemma {:induction false} PartitionFirstError(env: Env, rs: seq<Region>, n: nat)
    requires n <= |rs|
    requires PartitionUpTo(env, rs, n).Err?
    ensures exists i, j :: 0 <= i < n && 0 <= j < |rs[i].states| &&
              Lookup(env.usStates, rs[i].states[j]) == Err(PartitionUpTo(env, rs, n).error) &&
              (forall i', j' :: 0 <= i' < i && 0 <= j' < |rs[i'].states| ==> Lookup(env.usStates, rs[i'].states[j']).Ok?) &&
              (forall j' :: 0 <= j' < j ==> Lookup(env.usStates, rs[i].states[j']).Ok?)
  {
    if PartitionUpTo(env, rs, n - 1).Err? {
      PartitionFirstError(env, rs, n - 1);
    } else {
      PartitionSucceeds(env, rs, n - 1);
      var r := rs[n - 1];
      StatesRunLog(env, r.states, |r.states|);
      var j := |StatesRun(env, r.states, |r.states|).log|;
      assert forall j' :: 0 <= j' < j ==> StateTable(env, r.states[j']).Ok?;
      assert Lookup(env.usStates, rs[n - 1].states[j]) == Err(PartitionUpTo(env, rs, n).error);
    }
  }

  // ---------------------------------------------------------------------------------------------
  // Where the source departs from the intended partition: a region with no states

  /** A 345 kV line and the Vermont boundary, which contains it. */
  const line345 := TxLine(1, 2.5, 345.0, "utility", Geometry(LineString, [Vertex(0.0, 0.0), Vertex(1.0, 1.0)]))
  const vermont := StateBoundary("VT", Geometry(Polygon, []))

  function Everywhere(): Contains
  {
    (area: Geometry, g: Geometry) => true
  }

  /** The environment of the examples below: one line, one state whose boundary contains it. */
  function VermontEnv(): Env
  {
    Env([line345], [vermont], Everywhere())
  }

  /** Vermont's state table holds the one line, stamped "VT". */
  lemma VermontTable()
    ensures StateTable(VermontEnv(), "VT") == Ok([StateRow(line345, "VT")])
    ensures StatesRun(VermontEnv(), ["VT"], 1).outcome == Ok([[StateRow(line345, "VT")]])
  {
    var env := VermontEnv();
    assert Lookup(env.usStates, "VT") == Ok(vermont.geometry);
    assert InArea(vermont.geometry, env.contains)(line345);
    assert [line345][1..] == [];
    assert Filter([line345], InArea(vermont.geometry, env.contains))
        == [line345] + Filter([], InArea(vermont.geometry, env.contains));
    assert ContainedLines(env.lines, vermont.geometry, env.contains) == [line345];
    assert StampState([line345], "VT") == [StateRow(line345, "VT")];
    assert StatesRun(env, ["VT"], 0).outcome == Ok([]);
    assert [] + [[StateRow(line345, "VT")]] == [[StateRow(line345, "VT")]];
  }

  /** A configuration listing "NE" (Vermont) and then a region "XX" with no states. */
  function NeThenEmpty(): seq<Region>
  {
    [Region("NE", ["VT"]), Region("XX", [])]
  }

  /** After the "NE" pass the output holds NE's table, which is also `region_df`. */
  lemma NePass()
    ensures RegionsRun(VermontEnv(), NeThenEmpty(), 1).outcome
              == Ok(Progress([[Row(line345, "VT", "NE")]], Some([StateRow(line345, "VT")]), 1))
  {
    var env := VermontEnv();
    var rs := NeThenEmpty();
    var vt := [StateRow(line345, "VT")];
    var ne := [Row(line345, "VT", "NE")];
    VermontTable();
    assert Flatten([vt]) == vt + Flatten([]);
    assert Flatten([vt]) == vt;
    assert StampRegion(Flatten([vt]), "NE") == ne;
    assert Copies(ne, 1) == [ne];
    var none: seq<seq<Row>> := [];
    assert none[..0] + Copies(ne, 1) == [ne];
    assert RegionsRun(env, rs, 0).outcome == Ok(Progress([], None, 0));
  }

  /** The "XX" pass finds no state, re-stamps `region_df` as "XX" and, since the output's last
      entry is that same table, leaves two "XX" copies of it. */
  lemma EmptyPass()
    ensures RegionsRun(VermontEnv(), NeThenEmpty(), 2).outcome
              == Ok(Progress([[Row(line345, "VT", "XX")], [Row(line345, "VT", "XX")]], Some([StateRow(line345, "VT")]), 2))
  {
    var env := VermontEnv();
    var rs := NeThenEmpty();
    var vt := [StateRow(line345, "VT")];
    var ne := [Row(line345, "VT", "NE")];
    var xx := [Row(line345, "VT", "XX")];
    NePass();
    assert StatesRun(env, [], 0).outcome == Ok([]);
    assert StampRegion(vt, "XX") == xx;
    assert Copies(xx, 2) == [xx, xx];
    assert [ne][..0] + Copies(xx, 2) == [xx, xx];
  }

  /** Listing a region with no states after "NE" re-stamps NE's rows with the new region name
      (the table is stamped in place and both list entries are the same table) and appends them
      again: the line comes out twice, as "XX" only, instead of once as "NE". */
  lemma EmptyRegionRelabelsPrevious()
    ensures PartitionAsWritten(VermontEnv(), NeThenEmpty())
              == Ok([Row(line345, "VT", "XX"), Row(line345, "VT", "XX")])
  {
    var xx := [Row(line345, "VT", "XX")];
    EmptyPass();
    assert |NeThenEmpty()| == 2;
    assert RegionsRun(VermontEnv(), NeThenEmpty(), 2).outcome.value.txLines == [xx, xx];
    assert [xx][1..] == [] && [xx, xx][1..] == [xx];
    assert Flatten([xx]) == xx;
    assert Flatten([xx, xx]) == xx + xx;
    assert PartitionAsWritten(VermontEnv(), NeThenEmpty()) == Ok(Flatten([xx, xx]));
    assert xx + xx == [Row(line345, "VT", "XX"), Row(line345, "VT", "XX")];
  }

  /** The intended partition of the same configuration: the line once, labelled "NE"; the empty
      region contributes nothing. */
  lemma EmptyRegionContributesNothing()
    ensures Partition(VermontEnv(), NeThenEmpty()) == Ok([Row(line345, "VT", "NE")])
  {
    var env := VermontEnv();
    var rs := NeThenEmpty();
    var vt := [StateRow(line345, "VT")];
    VermontTable();
    var ne := [Row(line345, "VT", "NE")];
    assert Flatten([vt]) == vt;
    assert StampRegion(vt, "NE") == ne;
    assert StatesRun(env, [], 0).outcome == Ok([]);
    var none: seq<Row> := [];
    assert RegionRows(env, rs[0]) == Ok(ne);
    assert StampRegion(Flatten([]), "XX") == none;
    assert RegionRows(env, rs[1]) == Ok(none);
    assert PartitionUpTo(env, rs, 0) == Ok(none);
    assert none + ne == ne && ne + none == ne;
    assert PartitionUpTo(env, rs, 1) == Ok(ne);
  }

  /** A first region with no states reads `region_df` before anything assigned it: the source
      raises, where the intended partition is empty. */
  lemma EmptyFirstRegionFails()
    ensures PartitionAsWritten(VermontEnv(), [Region("XX", [])]) == Err(UnboundRegionTable("XX"))
    ensures Partition(VermontEnv(), [Region("XX", [])]) == Ok([])
  {
    var env := VermontEnv();
    var rs := [Region("XX", [])];
    assert StatesRun(env, [], 0).outcome == Ok([]);
    assert RegionsRun(env, rs, 1).outcome == Err(UnboundRegionTable("XX"));
    assert StampRegion(Flatten([]), "XX") == [];
    var none: seq<Row> := [];
    assert RegionRows(env, rs[0]) == Ok(none);
    assert PartitionUpTo(env, rs, 0) == Ok(none);
    assert none + none == none;
    assert PartitionUpTo(env, rs, 1) == Ok(none);
  }

  /** With no region at all there is nothing to concatenate: the source raises, where the
      intended partition is empty. */
  lemma NoRegionsFails(env: Env)
    ensures PartitionAsWritten(env, []) == Err(NothingToConcatenate)
    ensures Partition(env, []) == Ok([])
  {
  }
}
