# Transmission-line preprocessing: a Dafny model of its core

This project models four steps of two preprocessing scripts and proves properties about them.
The first script turns transmission-line features into per-vertex tower coordinates. The
second crops satellite image tiles.

- **`split_txlines_by_region`.** It partitions a table of transmission-line features into
  regions. For each configured region, and each member state of that region, it keeps the lines
  that the state's boundary polygon contains, in input order. It stamps those rows with the state
  and then with the region, and concatenates the tables in configuration order. It also writes a
  log: a header per region and a record count per state.
- **`get_tower_coords`.** It turns every LineString row of `tx_lines.csv` into one tower point
  per vertex, in vertex order, and logs every other row.
- **`df_subset`.** It keeps the rows whose value in one numeric column lies in an inclusive
  range.
- **`crop_image`.** It computes the square crop box centred on an image, optionally shifted by
  random horizontal and vertical offsets.

The modules:

- `Wrappers`: `Option` and `Result`.
- `Seqs`: order-preserving selection (`Filter`), concatenation (`Flatten`), subsequences, and
  the counting lemmas about them.
- `TxData`: the records the transmission-line steps share.
- `RegionSplit`: the partitioner. It holds the imperative methods with loop invariants, proved
  against the functions `PartitionAsWritten` (the code as written) and `Partition` (the
  evidently intended result).
- `RegionFacts`: what the partition contains, in which order and how often. It also covers when
  the partition fails, and concrete runs that exhibit the finding below.
- `TowerCoords`: the line-to-point decomposer.
- `Subset`: the range filter.
- `Crop`: the crop box.

## Behaviour of the code worth noting

- **Failed boundary lookups.** A state missing from the boundary table raises an IndexError
  (`.values[0]` of an empty selection). A boundary that is neither a Polygon nor a MultiPolygon
  raises a ValueError. The model keeps the two apart: `UnknownState` and `InvalidPolygon`.
- **States that overlap.** A line contained in several listed states is not assigned to a
  single state. It is emitted once for each containing state, in every region that lists that
  state (`RegionFacts.PartitionMultiplicity`).
- **Text columns in `df_subset`.** A text column raises a TypeError as soon as it has a row
  to compare with a float (`NotComparable`). This is separate from the KeyError for a missing
  column (`UnknownColumn`).
- **A tower table without columns.** When no input row is a LineString, `get_tower_coords`
  returns the bare `pd.DataFrame()` it started from, which has no columns. `df_subset` on that
  frame raises a KeyError for every column, the default "voltage" included. The model's
  `TowerFrame` keeps this case apart (`NoColumns`).
- **Error paths and the log.** On an error path the log file is not closed; file handles are
  not modelled.
- **Empty configurations.** A region with an empty state list re-labels the previous region's
  table (see "## Findings"). A first region with no states, or no regions at all, makes the
  partitioner fail (`RegionFacts.EmptyFirstRegionFails`, `RegionFacts.NoRegionsFails`).

## Model

| member | source | states |
|---|---|---|
| RegionSplit.Zip | electric_tower_utils.py:73 | pairs region names with state lists position by position and stops at the shorter list |
| RegionSplit.FirstIndexSpec | electric_tower_utils.py:79 | the lookup finds the first boundary row whose state name matches, and finds none exactly when no row matches |
| RegionSplit.LookupSpec | electric_tower_utils.py:79-83 | a state without a boundary row fails with UnknownState; otherwise the first row's geometry is used if it is a Polygon or MultiPolygon, and InvalidPolygon is raised if not |
| RegionSplit.RegionsRun | electric_tower_utils.py:73-95 | after n regions the loop state is well formed, and `tx_lines` is empty exactly when no region has been processed |
| RegionSplit.SelectContained | electric_tower_utils.py:84-88 | the loop over the rows appends exactly the lines the area contains, in input order |
| RegionSplit.CollectStates | electric_tower_utils.py:77-93 | the state loop yields each state's stamped table and the log of counts, or stops at the first failing lookup |
| RegionSplit.ProcessRegion | electric_tower_utils.py:74-95 | one pass of the region loop gives the next loop state and its log entries, including the in-place re-stamp of a shared `region_df` |
| RegionSplit.RegionLoop | electric_tower_utils.py:73-95 | the region loop gives the loop state and the log of all passes, or the first error |
| RegionSplit.SplitTxLinesByRegion | electric_tower_utils.py:64-97 | the output is the as-written partition and the log starts with the start time; when at least one region is configured and every state list is non-empty, the output is the intended partition |
| RegionSplit.StatesRunStops | electric_tower_utils.py:79-83 | once a lookup fails, the later states change neither the outcome nor the log |
| RegionSplit.RegionsRunStops | electric_tower_utils.py:79-83 | once a region fails, the later regions change neither the outcome nor the log |
| RegionSplit.RegionStepAppends | electric_tower_utils.py:76-95 | a pass over a region that lists states appends exactly that region's intended table to `tx_lines`, or fails with its first lookup error |
| RegionSplit.AsWrittenAgrees | electric_tower_utils.py:93-95 | when every state list is non-empty, the code's loop state holds exactly the per-region tables of the intended partition |
| RegionFacts.StampStateCount | electric_tower_utils.py:89 | stamping the state keeps the multiplicity of every line and gives every row that state |
| RegionFacts.StampRegionCount | electric_tower_utils.py:94 | stamping the region keeps the multiplicity of every row and gives every row that region |
| RegionFacts.StateTableSpec | electric_tower_utils.py:84-89 | a state's table is the order-preserving subsequence of the input lines its boundary contains; each contained line keeps all its copies and every row carries the state |
| RegionFacts.StatesRunSucceeds | electric_tower_utils.py:77-93 | the state loop succeeds exactly when every state's lookup succeeds, and its i-th table is then state i's table |
| RegionFacts.StatesRunLog | electric_tower_utils.py:89-90 | the log has one entry per processed state, giving the state's name and the length of its table, and stops at the first failure |
| RegionFacts.StateTableCount | electric_tower_utils.py:84-89 | a row appears in a state's table as often as its line appears in the input, if the boundary contains it and it carries that state; otherwise not at all |
| RegionFacts.TablesCount | electric_tower_utils.py:84-93 | in the concatenated state tables of a region, a row appears once per listing of its state, times the multiplicity of its line |
| RegionFacts.RegionRowsCount | electric_tower_utils.py:84-94 | a region's table holds a row as often as the region lists the row's state, times the line's multiplicity, if the boundary contains it and the region name matches |
| RegionFacts.PartitionCount | electric_tower_utils.py:73-96 | after n regions, a row appears once per (region, state) listing among them whose boundary contains the line, times the line's multiplicity |
| RegionFacts.PartitionMultiplicity | electric_tower_utils.py:73-96 | in the whole output, a line contained in several listed states is emitted once per containing listing, not assigned to one state |
| RegionFacts.RegionRowsInOrder | electric_tower_utils.py:77-94 | a region's rows come state by state in listing order, each state's table stamped with the region name |
| RegionFacts.PartitionInOrder | electric_tower_utils.py:73-96 | the output lists the regions' tables region by region, in configuration order |
| RegionFacts.PartitionSucceeds | electric_tower_utils.py:79-83 | the partition succeeds exactly when every listed state's lookup succeeds |
| RegionFacts.PartitionFirstError | electric_tower_utils.py:79-83 | a failed partition reports the error of the first failing (region, state) pair in loop order |
| RegionFacts.VermontTable | electric_tower_utils.py:84-89 | concrete case: with one line inside Vermont, Vermont's table is that line stamped "VT" |
| RegionFacts.NePass | electric_tower_utils.py:73-95 | concrete case: after region NE=[VT], `tx_lines` holds the NE table and `region_df` is shared once |
| RegionFacts.EmptyPass | electric_tower_utils.py:93-95 | concrete case: after a following region XX=[], both entries of `tx_lines` are the re-stamped XX table |
| RegionFacts.EmptyRegionRelabelsPrevious | electric_tower_utils.py:93-95 | as written, NE=[VT] then XX=[] outputs the Vermont line twice labelled XX and never labelled NE |
| RegionFacts.EmptyRegionContributesNothing | electric_tower_utils.py:93-95 | intended: the same input outputs the Vermont line once, labelled NE |
| RegionFacts.EmptyFirstRegionFails | electric_tower_utils.py:93-94 | as written, a first region with no states reads an unbound `region_df`; the intended partition is empty |
| RegionFacts.NoRegionsFails | electric_tower_utils.py:96 | with no regions configured, the concatenation of the empty list fails; the intended partition is empty |
| TowerCoords.GetTowerCoords | electric_tower_utils.py:111-153 | the loop over the rows returns a frame holding the per-row points in row order, which is still the column-less initial frame when no row is a LineString; the log holds the start time and then one entry per skipped row |
| TowerCoords.NoLineStringNoPoints | electric_tower_utils.py:131-143 | without a LineString row no point is produced |
| TowerCoords.ExpandGrows | electric_tower_utils.py:131-143 | the output only grows as rows are processed |
| TowerCoords.ExpandPrefix | electric_tower_utils.py:131-143 | later rows never change the points already produced |
| TowerCoords.ExpandSlice | electric_tower_utils.py:133-143 | row i's points sit together, right after the points of the rows before it |
| TowerCoords.ExpandRun | electric_tower_utils.py:133-143 | a LineString with k vertices gives exactly k consecutive points, one per vertex in vertex order, each carrying the line's ID, length, voltage, state, region and owner; any other row gives none |
| TowerCoords.ExpandMembership | electric_tower_utils.py:131-143 | a point is in the output exactly when some row produced it |
| TowerCoords.SkipLogSound | electric_tower_utils.py:144-148 | every log entry names a non-LineString row, with its ID, index and geometry type |
| TowerCoords.SkipLogComplete | electric_tower_utils.py:144-148 | every non-LineString row is logged exactly once |
| Subset.DfSubset | electric_tower_utils.py:156-168 | a column the frame lacks fails with UnknownColumn, and so does every column of the column-less frame; a text column fails with NotComparable exactly when there is a row; a numeric column of a frame with the tower columns never fails, and the result keeps those columns; every error names the requested column |
| Subset.DfSubsetSpec | electric_tower_utils.py:168 | on a numeric column the result is an order-preserving subsequence of the rows; every row kept is within both inclusive bounds, and every row within them keeps all its copies |
| Subset.DfSubsetUnique | electric_tower_utils.py:168 | any order-preserving subsequence of in-range rows as long as the result is the result |
| Subset.DfSubsetDefaults | electric_tower_utils.py:156-158 | with the default infinite bounds (and the default column "voltage") every row is kept |
| Subset.DfSubsetTwice | electric_tower_utils.py:168 | subsetting twice on one column is subsetting once on the intersection of the ranges |
| Subset.DfSubsetAdjacent | electric_tower_utils.py:168 | subsetting to [a, b] and then to [b, c] keeps exactly the rows whose value is b |
| Subset.DfSubsetIdempotent | electric_tower_utils.py:168 | subsetting is idempotent |
| Subset.DfSubsetCommute | electric_tower_utils.py:168 | subsets on two columns commute |
| Crop.CropBox | stack_and_format_images.py:35-59 | the box is new_squared_size wide and high; its centre is the image centre moved by the applied shifts, each shift within [-rdist, rdist]; without random cropping the box is centred; random cropping with a negative rdist fails |
| Crop.CropBoxInside | stack_and_format_images.py:54-58 | the box lies inside the image exactly when the side plus twice the absolute shift fits in the extent, on each axis |

## Left out

- File and CSV I/O, directory creation and `to_csv`: the model works on the parsed rows and
  returns what would be written.
- Reprojection with pyproj and the coordinate-axis check are not modelled. The model receives
  the reprojected lines.
- Geometry computation is not modelled: shapely's `contains` is a parameter, `geom_type` is a
  tag, and `coords.xy` is the vertex list as given.
- The `tqdm` progress bar and the console `print` calls are not modelled.
- The wall clock is not modelled: the start time is passed in as `now`.
- `random.randint` is not modelled: the two draws are passed to `Crop.CropBox`, and the
  contract assumes they lie within [-rdist, rdist].
- Crop.CropBox: PIL's rounding of the fractional box and the pixel contents of the crop are not
  modelled. The model gives the exact box handed to `img.crop`.
- Subset.DfSubset: NaN values and DataFrame index labels are not modelled. Values are reals
  and rows are identified by position.
- RegionSplit.SplitTxLinesByRegion: object identity is modelled by a count. That count
  (`shared`) says how many trailing entries of `tx_lines` are the `region_df` object. It is
  used instead of heap aliasing.
- RegionSplit.SplitTxLinesByRegion: closing the log file on error paths is not modelled.
- The raster helpers of `stack_and_format_images.py` and the rest of the image-stacking script
  are not part of this model. These are reading GeoTIFF metadata, stacking bands and the
  command-line entry point. They are I/O around `crop_image`.

## Findings

| source | as written | input that shows it | evidently intended | confidence | as-written member | corrected member |
|---|---|---|---|---|---|---|
| electric_tower_utils.py:93-95 | `region_df` is rebound only inside the state loop. A region with an empty state list re-stamps the previous region's table in place, and that table is already in `tx_lines`, so the region appends it again. If the first region has no states, `region_df` is unbound. | regions NE=[VT] then XX=[], one line inside Vermont: the output is that line twice, both labelled XX, and never labelled NE | each region contributes only its own states' rows: here the line once, labelled NE; an empty region contributes nothing | not executed | RegionFacts.EmptyRegionRelabelsPrevious | RegionFacts.EmptyRegionContributesNothing |
