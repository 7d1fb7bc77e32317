/** The region/state partitioner `split_txlines_by_region` (electric_tower_utils.py:38-99).
    For every region (zipped with its list of member states) and every state of it, the lines
    contained in the state's boundary polygon are kept in input order and stamped with the state;
    the region's accumulated rows are then stamped with the region name, and every region's table
    is concatenated in declaration order. */
module RegionSplit {
  import opened Wrappers
  import opened Seqs
  import opened TxData

  /** One entry of the state-boundary reference table (`US_STATES`). */
  datatype StateBoundary = StateBoundary(stateName: string, geometry: Geometry)

  /** A region name paired with its member states, as `zip(region_names, region_states)` yields them. */
  datatype Region = Region(name: string, states: seq<string>)

  /** A line stamped with its state, before the region is stamped (a row of `temp_df`). */
  datatype StateRow = StateRow(line: TxLine, state: string)

  datatype SplitError =
    | UnknownState(state: string)          // `.values[0]` of an empty selection: IndexError
    | InvalidPolygon(geomType: GeomType)   // the boundary is neither Polygon nor MultiPolygon: ValueError
    | UnboundRegionTable(region: string)   // `region_df` read before it was ever assigned
    | NothingToConcatenate                 // `pd.concat` of an empty `tx_lines`: ValueError

  /** `contains(area, g)`: the polygon `area` wholly contains the geometry `g`. */
  type Contains = (Geometry, Geometry) -> bool

  /** What the partition reads besides the region configuration: the (reprojected) input lines,
      the state-boundary table and the containment test. */
  datatype Env = Env(lines: seq<TxLine>, usStates: seq<StateBoundary>, contains: Contains)

  // ---------------------------------------------------------------------------------------------
  // Region configuration and boundary lookup

  /** Python's `zip`: pairs up names and state lists, stopping at the shorter list. */
  function Zip(names: seq<string>, statess: seq<seq<string>>): (rs: seq<Region>)
    ensures |rs| == if |names| <= |statess| then |names| else |statess|
    ensures forall k :: 0 <= k < |rs| ==> rs[k] == Region(names[k], statess[k])
  {
    if names == [] || statess == [] then []
    else [Region(names[0], statess[0])] + Zip(names[1..], statess[1..])
  }

  ghost predicate IsFirst(usStates: seq<StateBoundary>, state: string, k: nat)
    requires k < |usStates|
  {
    usStates[k].stateName == state && forall j :: 0 <= j < k ==> usStates[j].stateName != state
  }

  /** The position of the first boundary named `state`: `US_STATES[US_STATES.STATE_NAME == state]`,
      of which `.values[0]` is taken. */
  function FirstIndex(usStates: seq<StateBoundary>, state: string): (r: Option<nat>)
    ensures r.Some? ==> r.value < |usStates|
  {
    if usStates == [] then None
    else if usStates[0].stateName == state then Some(0)
    else match FirstIndex(usStates[1..], state)
      case None => None
      case Some(k) => Some(k + 1)
  }

  predicate IsPolygonal(t: GeomType)
  {
    t == Polygon || t == MultiPolygon
  }

  /** The boundary polygon of `state`: the first matching entry, which must be a Polygon or a
      MultiPolygon. */
  function Lookup(usStates: seq<StateBoundary>, state: string): (r: Result<Geometry, SplitError>)
  {
    match FirstIndex(usStates, state)
    case None => Err(UnknownState(state))
    case Some(k) =>
      var g := usStates[k].geometry;
      if IsPolygonal(g.geomType) then Ok(g) else Err(InvalidPolygon(g.geomType))
  }

  lemma {:induction false} FirstIndexSpec(usStates: seq<StateBoundary>, state: string)
    ensures FirstIndex(usStates, state).None? <==>
              forall k :: 0 <= k < |usStates| ==> usStates[k].stateName != state
    ensures FirstIndex(usStates, state).Some? ==> IsFirst(usStates, state, FirstIndex(usStates, state).value)
  {
    if usStates != [] && usStates[0].stateName != state {
      var rest := usStates[1..];
      FirstIndexSpec(rest, state);
      assert forall k :: 1 <= k < |usStates| ==> usStates[k] == rest[k - 1];
    }
  }

  /** A state is unknown exactly when no boundary carries its name; otherwise the first boundary
      with that name decides, and it must be a Polygon or a MultiPolygon. */
  lemma LookupSpec(usStates: seq<StateBoundary>, state: string)
    ensures Lookup(usStates, state) == Err(UnknownState(state)) <==>
              forall k :: 0 <= k < |usStates| ==> usStates[k].stateName != state
    ensures forall k :: 0 <= k < |usStates| && IsFirst(usStates, state, k) ==>
              Lookup(usStates, state) ==
                if IsPolygonal(usStates[k].geometry.geomType) then Ok(usStates[k].geometry)
                else Err(InvalidPolygon(usStates[k].geometry.geomType))
  {
    FirstIndexSpec(usStates, state);
  }

  // ---------------------------------------------------------------------------------------------
  // Per-state selection and stamping

  /** The selection test of the innermost loop: `valid_area.contains(line)`. */
  function InArea(area: Geometry, contains: Contains): TxLine -> bool
  {
    (l: TxLine) => contains(area, l.geometry)
  }

  /** The lines `area` contains, in input order (`temp_df` before stamping). */
  function ContainedLines(lines: seq<TxLine>, area: Geometry, contains: Contains): seq<TxLine>
  {
    Filter(lines, InArea(area, contains))
  }

  /** `temp_df['state'] = state`. */
  function StampState(lines: seq<TxLine>, state: string): seq<StateRow>
  {
    seq(|lines|, k requires 0 <= k < |lines| => StateRow(lines[k], state))
  }

  /** `region_df['region'] = region_name`. */
  function StampRegion(rows: seq<StateRow>, region: string): seq<Row>
  {
    seq(|rows|, k requires 0 <= k < |rows| => Row(rows[k].line, rows[k].state, region))
  }

  /** The table one state contributes, or the lookup error it raises. */
  function StateTable(env: Env, state: string): Result<seq<StateRow>, SplitError>
  {
    match Lookup(env.usStates, state)
    case Err(e) => Err(e)
    case Ok(area) => Ok(StampState(ContainedLines(env.lines, area, env.contains), state))
  }

  /** What a loop has produced so far: its value, or the error that ended it, and the entries it
      wrote to the log. */
  datatype Run<T> = Run(outcome: Result<T, SplitError>, log: seq<LogEntry>)

  /** The state loop over the first `n` states: `region_list` (one stamped table per state) and
      one record count per state in the log, up to the first state whose lookup fails. */
  function StatesRun(env: Env, states: seq<string>, n: nat): Run<seq<seq<StateRow>>>
    requires n <= |states|
  {
    if n == 0 then Run(Ok([]), [])
    else
      var prev := StatesRun(env, states, n - 1);
      if prev.outcome.Err? then prev
      else match StateTable(env, states[n - 1])
        case Err(e) => Run(Err(e), prev.log)
        case Ok(t) => Run(Ok(prev.outcome.value + [t]), prev.log + [StateCount(states[n - 1], |t|)])
  }

  // ---------------------------------------------------------------------------------------------
  // The intended partition: every region contributes its own states' rows, stamped with its name

  function RegionRows(env: Env, r: Region): Result<seq<Row>, SplitError>
  {
    match StatesRun(env, r.states, |r.states|).outcome
    case Err(e) => Err(e)
    case Ok(tables) => Ok(StampRegion(Flatten(tables), r.name))
  }

  /** The rows of the first `n` regions, or the first error. */
  function PartitionUpTo(env: Env, rs: seq<Region>, n: nat): Result<seq<Row>, SplitError>
    requires n <= |rs|
  {
    if n == 0 then Ok([])
    else match PartitionUpTo(env, rs, n - 1)
      case Err(e) => Err(e)
      case Ok(done) =>
        match RegionRows(env, rs[n - 1])
        case Err(e) => Err(e)
        case Ok(rows) => Ok(done + rows)
  }

  function Partition(env: Env, rs: seq<Region>): Result<seq<Row>, SplitError>
  {
    PartitionUpTo(env, rs, |rs|)
  }

  // ---------------------------------------------------------------------------------------------
  // The partition as written: `region_df` is rebound only inside the state loop

  /** The source's loop state between regions: the list `tx_lines`, the table `region_df` (None
      while it has never been assigned) and how many trailing entries of `tx_lines` are the
      `region_df` object itself, so that stamping `region_df` in place also changes them. */
  datatype Progress = Progress(txLines: seq<seq<Row>>, regionDf: Option<seq<StateRow>>, shared: nat)

  function Copies<T>(x: T, n: nat): (r: seq<T>)
    ensures |r| == n && forall k :: 0 <= k < n ==> r[k] == x
  {
    seq(n, _ => x)
  }

  /** The end of one pass of the region loop, once the state loop has filled `region_list` with
      `tables`: `region_df` is stamped with the region name and appended to `tx_lines`. */
  function CloseRegion(p: Progress, r: Region, tables: seq<seq<StateRow>>): Result<Progress, SplitError>
    requires p.shared <= |p.txLines|
  {
    var regionDf := if r.states == [] then p.regionDf else Some(Flatten(tables));
    var shared := if r.states == [] then p.shared else 0;
    if regionDf.None? then Err(UnboundRegionTable(r.name))
    else
      Ok(Progress(p.txLines[..|p.txLines| - shared] + Copies(StampRegion(regionDf.value, r.name), shared + 1),
                  regionDf, shared + 1))
  }

  /** One pass of the region loop from the loop state `p`: the state loop, then `region_df`
      closed off; the log gets the region header and the state counts. */
  function RegionStep(env: Env, p: Progress, r: Region): Run<Progress>
    requires p.shared <= |p.txLines|
  {
    var states := StatesRun(env, r.states, |r.states|);
    var log := [RegionHeader(r.name)] + states.log;
    match states.outcome
    case Err(e) => Run(Err(e), log)
    case Ok(tables) => Run(CloseRegion(p, r, tables), log)
  }

  /** The region loop over the first `n` regions: the loop state, or the error raised on the way,
      and the log: each region's header followed by its state counts. */
  function RegionsRun(env: Env, rs: seq<Region>, n: nat): (r: Run<Progress>)
    requires n <= |rs|
    ensures r.outcome.Ok? ==> r.outcome.value.shared <= |r.outcome.value.txLines|
    ensures r.outcome.Ok? ==> (r.outcome.value.txLines == [] <==> n == 0)
  {
    if n == 0 then Run(Ok(Progress([], None, 0)), [])
    else
      var prev := RegionsRun(env, rs, n - 1);
      if prev.outcome.Err? then prev
      else
        var step := RegionStep(env, prev.outcome.value, rs[n - 1]);
        Run(step.outcome, prev.log + step.log)
  }

  /** What `split_txlines_by_region` writes to `tx_lines.csv`, or the error it raises instead. */
  function PartitionAsWritten(env: Env, rs: seq<Region>): Result<seq<Row>, SplitError>
  {
    match RegionsRun(env, rs, |rs|).outcome
    case Err(e) => Err(e)
    case Ok(p) => if p.txLines == [] then Err(NothingToConcatenate) else Ok(Flatten(p.txLines))
  }

  /** What `split_txlines_by_region` writes to `error.log` after its first line. */
  function SplitLog(env: Env, rs: seq<Region>): seq<LogEntry>
  {
    RegionsRun(env, rs, |rs|).log
  }

  ghost predicate NoEmptyStateList(rs: seq<Region>)
  {
    forall k :: 0 <= k < |rs| ==> rs[k].states != []
  }

  // ---------------------------------------------------------------------------------------------
  // The imperative partitioner

  /** The innermost loop: every line `area` contains, appended in input order. */
  method SelectContained(lines: seq<TxLine>, area: Geometry, contains: Contains) returns (tempDf: seq<TxLine>)
    ensures tempDf == ContainedLines(lines, area, contains)
  {
    tempDf := [];
    var k := 0;
    while k < |lines|
      invariant 0 <= k <= |lines|
      invariant tempDf == ContainedLines(lines[..k], area, contains)
    {
      FilterAppend(lines[..k], [lines[k]], InArea(area, contains));
      assert lines[..k + 1] == lines[..k] + [lines[k]];
      if contains(area, lines[k].geometry) {
        tempDf := tempDf + [lines[k]];
      }
      k := k + 1;
    }
    assert lines[..k] == lines;
  }

  /** The state loop of one region: fills `region_list` with each state's stamped table and
      writes each state's record count to the log, stopping at the first failing lookup. */
  method CollectStates(env: Env, states: seq<string>)
    returns (regionList: Result<seq<seq<StateRow>>, SplitError>, entries: seq<LogEntry>)
    ensures Run(regionList, entries) == StatesRun(env, states, |states|)
  {
    var tables: seq<seq<StateRow>> := [];
    entries := [];
    var j := 0;
    while j < |states|
      invariant 0 <= j <= |states|
      invariant StatesRun(env, states, j) == Run(Ok(tables), entries)
    {
      var state := states[j];
      var polygon := Lookup(env.usStates, state);
      if polygon.Err? {
        regionList := Err(polygon.error);
        StatesRunStops(env, states, j + 1, |states|);
        return;
      }
      var tempDf := SelectContained(env.lines, polygon.value, env.contains);
      var stamped := StampState(tempDf, state);
      entries := entries + [StateCount(state, |stamped|)];
      tables := tables + [stamped];
      j := j + 1;
    }
    regionList := Ok(tables);
  }

  /** One pass of the region loop: the state loop, then `region_df` stamped in place with the
      region name and appended to `tx_lines`. The loop state is `p` before and `next` after. */
  method ProcessRegion(env: Env, p: Progress, region: Region)
    returns (next: Result<Progress, SplitError>, entries: seq<LogEntry>)
    requires p.shared <= |p.txLines|
    ensures Run(next, entries) == RegionStep(env, p, region)
  {
    var txLines, regionDf, shared := p.txLines, p.regionDf, p.shared;
    var regionList, stateEntries := CollectStates(env, region.states);
    entries := [RegionHeader(region.name)] + stateEntries;
    if regionList.Err? {
      next := Err(regionList.error);
      return;
    }
    if region.states != [] {
      // rebound by every pass of the state loop, to a fresh table
      regionDf := Some(Flatten(regionList.value));
      shared := 0;
    }
    if regionDf.None? {
      next := Err(UnboundRegionTable(region.name));
      return;
    }
    // `region_df` is stamped in place: every entry of `tx_lines` that is that object changes too
    txLines := txLines[..|txLines| - shared] + Copies(StampRegion(regionDf.value, region.name), shared + 1);
    shared := shared + 1;
    next := Ok(Progress(txLines, regionDf, shared));
  }

  /** The region loop of `split_txlines_by_region`: one pass per region, in order, stopping at the
      first error; returns the final loop state (or the error) and what it wrote to the log. */
  method RegionLoop(env: Env, regions: seq<Region>)
    returns (result: Result<Progress, SplitError>, written: seq<LogEntry>)
    ensures Run(result, written) == RegionsRun(env, regions, |regions|)
  {
    var progress := Progress([], None, 0);
    written := [];
    var i := 0;
    while i < |regions|
      invariant 0 <= i <= |regions|
      invariant RegionsRun(env, regions, i) == Run(Ok(progress), written)
    {
      var next, entries := ProcessRegion(env, progress, regions[i]);
      written := written + entries;
      if next.Err? {
        result := Err(next.error);
        RegionsRunStops(env, regions, i + 1, |regions|);
        return;
      }
      progress := next.value;
      i := i + 1;
    }
    result := Ok(progress);
  }

  /** `split_txlines_by_region` after reading and reprojecting the input: returns what it writes
      to `tx_lines.csv` (or the error it raises) and the entries it writes to `error.log`. */
  method SplitTxLinesByRegion(lines: seq<TxLine>, regionNames: seq<string>, regionStates: seq<seq<string>>,
                              usStates: seq<StateBoundary>, contains: Contains, now: string)
    returns (outcome: Result<seq<Row>, SplitError>, log: seq<LogEntry>)
    ensures outcome == PartitionAsWritten(Env(lines, usStates, contains), Zip(regionNames, regionStates))
    ensures log == [Started(now)] + SplitLog(Env(lines, usStates, contains), Zip(regionNames, regionStates))
    ensures Zip(regionNames, regionStates) != [] && NoEmptyStateList(Zip(regionNames, regionStates)) ==>
              outcome == Partition(Env(lines, usStates, contains), Zip(regionNames, regionStates))
  {
    var env := Env(lines, usStates, contains);
    var regions := Zip(regionNames, regionStates);
    log := [Started(now)];
    var result, written := RegionLoop(env, regions);
    log := log + written;
    if result.Err? {
      outcome := Err(result.error);
    } else if result.value.txLines == [] {
      outcome := Err(NothingToConcatenate);
    } else {
      outcome := Ok(Flatten(result.value.txLines));
    }
    AsWrittenAgrees(env, regions, |regions|);
  }

  // ---------------------------------------------------------------------------------------------
  // Errors abort the run

  lemma {:induction false} StatesRunStops(env: Env, states: seq<string>, j: nat, n: nat)
    requires j <= n <= |states| && StatesRun(env, states, j).outcome.Err?
    ensures StatesRun(env, states, n) == StatesRun(env, states, j)
  {
    if j < n {
      StatesRunStops(env, states, j, n - 1);
      var prev := StatesRun(env, states, n - 1);
      assert prev.outcome.Err?;
      assert StatesRun(env, states, n) == prev;
    }
  }

  lemma {:induction false} RegionsRunStops(env: Env, rs: seq<Region>, i: nat, n: nat)
    requires i <= n <= |rs| && RegionsRun(env, rs, i).outcome.Err?
    ensures RegionsRun(env, rs, n) == RegionsRun(env, rs, i)
  {
    if i < n {
      RegionsRunStops(env, rs, i, n - 1);
      var prev := RegionsRun(env, rs, n - 1);
      assert prev.outcome.Err?;
      assert RegionsRun(env, rs, n) == prev;
    }
  }

  // ---------------------------------------------------------------------------------------------
  // As written against intended

  /** A pass over a region that declares states appends exactly that region's intended table. */
  lemma RegionStepAppends(env: Env, p: Progress, r: Region)
    requires p.shared <= |p.txLines| && r.states != []
    ensures RegionRows(env, r).Err? ==> RegionStep(env, p, r).outcome == Err(RegionRows(env, r).error)
    ensures RegionRows(env, r).Ok? ==>
              RegionStep(env, p, r).outcome.Ok? &&
              RegionStep(env, p, r).outcome.value.txLines == p.txLines + [RegionRows(env, r).value]
  {
    var states := StatesRun(env, r.states, |r.states|).outcome;
    if states.Ok? {
      var stamped := StampRegion(Flatten(states.value), r.name);
      assert p.txLines[..|p.txLines| - 0] + Copies(stamped, 1) == p.txLines + [stamped];
    }
  }

  /** While every region declares at least one state, the source computes the intended partition. */
  lemma {:induction false} AsWrittenAgrees(env: Env, rs: seq<Region>, n: nat)
    requires n <= |rs|
    ensures NoEmptyStateList(rs) ==>
              match RegionsRun(env, rs, n).outcome
              case Err(e) => PartitionUpTo(env, rs, n) == Err(e)
              case Ok(p) => PartitionUpTo(env, rs, n) == Ok(Flatten(p.txLines))
  {
    if n > 0 && NoEmptyStateList(rs) {
      AsWrittenAgrees(env, rs, n - 1);
      var prev := RegionsRun(env, rs, n - 1).outcome;
      if prev.Ok? {
        RegionStepAppends(env, prev.value, rs[n - 1]);
        if RegionRows(env, rs[n - 1]).Ok? {
          FlattenSnoc(prev.value.txLines, RegionRows(env, rs[n - 1]).value);
        }
      }
    }
  }
}
