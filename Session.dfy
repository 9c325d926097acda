/** `GroundUpPathSearch`, the planner the application drives, as transitions over a
    snapshot of its fields. Each transition is a function from the snapshot before
    a call to the snapshot after it. The class in `GroundUp` performs the same
    updates in place and is proved to follow these functions. */
module Session {
  import opened Algorithm
  import opened Validator

  const TwoToThe32: int := 0x1_0000_0000

  /** A C++ `unsigned int` (32 bits on the platform the application targets). */
  type UInt32 = x: int | 0 <= x < 0x1_0000_0000

  /** Storing a scanned `int` into an `unsigned int`: the value modulo 2^32. */
  function AsUnsigned(v: int): (u: UInt32)
    ensures (u - v) % TwoToThe32 == 0
    ensures 0 <= v < TwoToThe32 ==> u == v
  {
    v % TwoToThe32
  }

  /** `static_cast<long>` of an `unsigned int`, where `long` has 32 bits: values of
      2^31 and above come out negative. */
  function AsLong(u: UInt32): (l: int)
    ensures -0x8000_0000 <= l < 0x8000_0000
    ensures (l - u) % TwoToThe32 == 0
    ensures u < 0x8000_0000 ==> l == u
  {
    if u < 0x8000_0000 then u else u - TwoToThe32
  }

  /** `++` on an `unsigned int`: it wraps from 2^32 - 1 back to 0. */
  function Incremented(n: UInt32): (m: UInt32)
    ensures m == 0 <==> n == TwoToThe32 - 1
    ensures m != 0 ==> m == n + 1
  {
    (n + 1) % TwoToThe32
  }

  /** The endpoints `GroundUpPathSearch` keeps: the start and goal coordinates
      (`start_row_`, `start_column_`, `goal_row_`, `goal_column_`) and the tiles
      they name (`start_tile_`, `goal_tile_`, null until the map is read). */
  datatype Endpoints = Endpoints(
    startRow: int,
    startColumn: int,
    goalRow: int,
    goalColumn: int,
    startTile: Option<Tile>,
    goalTile: Option<Tile>)

  /** The editable parameters: `myTimeStep`, `myFastTimeStep`, `myNumberofRounds`. */
  datatype Parameters = Parameters(timeStep: UInt32, fastTimeStep: UInt32, numberOfRounds: UInt32)

  /** The progress counters `elapsed_time_` and `iteration_count_`. */
  datatype Progress = Progress(elapsedTime: real, iterationCount: UInt32)

  /** The fields of `GroundUpPathSearch` the driver depends on, with the two flags
      it inherits from `PathSearchInterface`; the endpoints, the parameters and the
      counters are grouped as above. Three more items belong to it here: the
      application-wide `tempSolution` vector, which only the planner writes; the
      tile map, which the planner holds by reference; and `faults`, the message
      boxes the solution checker has raised so far. */
  datatype Planner = Planner(
    search: PathSearch,
    tileMap: TileMap,
    endpoints: Endpoints,
    parameters: Parameters,
    progress: Progress,
    isInitializable: bool,
    timedSearch: bool,
    hasEntered: bool,
    tempSolution: seq<Tile>,
    faults: seq<Fault>)

  /** The tile map is well formed and, unless it is empty, both endpoints lie on it. */
  predicate Valid(p: Planner)
  {
    var e := p.endpoints;
    && p.tileMap.Valid()
    && (p.tileMap.IsEmpty() ||
        (p.tileMap.InRange(e.startRow, e.startColumn) && p.tileMap.InRange(e.goalRow, e.goalColumn)))
  }

  /** The endpoints `resetParameters` and the constructor leave: both at (0, 0), no tiles. */
  const NoEndpoints := Endpoints(0, 0, 0, 0, None, None)

  /** The parameters `resetParameters` and the constructor leave: time steps 0 and
      5000, one round. */
  const DefaultParameters := Parameters(0, 5000, 1)

  /** The state the constructor leaves. `timedSearch` is never initialised by it,
      so it is whatever value `timedSearch` happens to hold. */
  function Constructed(tileMap: TileMap, search: PathSearch, timedSearch: bool): (p: Planner)
    requires tileMap.Valid()
    ensures Valid(p)
    ensures !p.hasEntered && p.isInitializable && p.progress.iterationCount == 0
    ensures p.endpoints.startTile == None && p.endpoints.goalTile == None
    ensures p.parameters.fastTimeStep == 5000 && p.parameters.numberOfRounds == 1
  {
    Planner(search, tileMap, NoEndpoints, DefaultParameters, Progress(0.0, 0), true, timedSearch, false, [], [])
  }

  /** `setTimedSearch`. */
  function SetTimedSearch(p: Planner, isTimed: bool): (r: Planner)
    ensures r.timedSearch == isTimed
    ensures r.(timedSearch := p.timedSearch) == p
  {
    p.(timedSearch := isTimed)
  }

  /** `isReady`: the map has rows and columns. */
  predicate IsReady(p: Planner)
  {
    p.tileMap.RowCount() != 0 && p.tileMap.columnCount != 0
  }

  /** `resetParameters`: endpoints back to (0, 0) with no tiles, time steps 0 and
      5000, one round. */
  function ResetParameters(p: Planner): (r: Planner)
    ensures r.endpoints.startRow == 0 && r.endpoints.startColumn == 0
    ensures r.endpoints.goalRow == 0 && r.endpoints.goalColumn == 0
    ensures r.endpoints.startTile == None && r.endpoints.goalTile == None
    ensures r.parameters.timeStep == 0 && r.parameters.fastTimeStep == 5000 && r.parameters.numberOfRounds == 1
    ensures r.(endpoints := p.endpoints, parameters := p.parameters) == p
  {
    p.(endpoints := NoEndpoints, parameters := DefaultParameters)
  }

  /** `shutdownSearch`: the algorithm's `shutdown` hook. */
  function ShutdownSearch(p: Planner): (r: Planner)
    ensures r.search.calls == p.search.calls + [Shutdown]
    ensures r.(search := p.search) == p
  {
    p.(search := Hook(p.search, Shutdown))
  }

  /** `initialize`: the algorithm's `initialize` hook, given the tile map. */
  function InitializeAlgorithm(p: Planner): (r: Planner)
    ensures r.search.calls == p.search.calls + [Initialize]
    ensures r.(search := p.search) == p
  {
    p.(search := Hook(p.search, Initialize))
  }

  /** The endpoints `read` sets on a non-empty map: the start is the top-left tile
      and the goal the bottom-right one. */
  function CornerEndpoints(m: TileMap): (e: Endpoints)
    requires m.Valid() && !m.IsEmpty()
    ensures m.InRange(e.startRow, e.startColumn) && m.InRange(e.goalRow, e.goalColumn)
  {
    Endpoints(0, 0, m.RowCount() - 1, m.columnCount - 1,
              Some(m.GetTile(0, 0)), Some(m.GetTile(m.RowCount() - 1, m.columnCount - 1)))
  }

  /** `read`, as built (without the override of the default endpoints): the start
      is the top-left tile and the goal the bottom-right one. It is only called
      once a map has loaded, which leaves the map non-empty. */
  function Read(p: Planner): (r: Planner)
    requires p.tileMap.Valid() && !p.tileMap.IsEmpty()
    ensures Valid(r)
    ensures r.endpoints.startRow == 0 && r.endpoints.startColumn == 0
    ensures r.endpoints.goalRow == p.tileMap.RowCount() - 1 && r.endpoints.goalColumn == p.tileMap.columnCount - 1
    ensures r.endpoints.startTile == Some(p.tileMap.GetTile(0, 0))
    ensures r.endpoints.goalTile == Some(p.tileMap.GetTile(p.tileMap.RowCount() - 1, p.tileMap.columnCount - 1))
    ensures r.(endpoints := p.endpoints) == p
  {
    p.(endpoints := CornerEndpoints(p.tileMap))
  }

  /** `getInputCount`: the parameter list shows seven items. */
  function InputCount(): (n: int)
    ensures n == 7
  {
    7
  }

  /** What `_stscanf` with `%i` reports for the edited text: one converted value,
      no conversion (a return of 0), or end of input on empty text (a return of
      EOF, which is non-zero, and the target keeps its value). */
  datatype Scan = Converted(value: int) | NoConversion | EndOfText

  /** The value an endpoint item reads: the converted value, or the 0 the target
      was preset to when nothing was converted. */
  function ScannedValue(scan: Scan): int
  {
    if scan.Converted? then scan.value else 0
  }

  /** Whether `_stscanf`'s result is non-zero, which is what the endpoint items test. */
  predicate ScanSucceeded(scan: Scan)
  {
    !scan.NoConversion?
  }

  /** The endpoint items' clamp as written: start from the count, take the value if
      it is below the count, else one below the count. */
  function Clamped(value: int, count: int): int
  {
    if value < count then value else count - 1
  }

  /** `updateInput` for list item `item`, with the scan of its text. Items 0 to 3
      (start row, start column, goal row, goal column) go to `UpdateEndpoint`;
      items 4 to 6 store what was scanned into the time steps or the round count
      and return false; so does every other item, without a change. */
  function UpdateInput(p: Planner, item: int, scan: Scan): (Planner, bool)
    requires Valid(p)
  {
    if 0 <= item <= 3 then UpdateEndpoint(p, item, scan) else (UpdateParameter(p, item, scan), false)
  }

  /** The endpoint items of `updateInput`: a value that scanned, lies on the map
      and names a passable tile is taken, through the clamp, and the endpoint's
      tile is refreshed; the result says whether it was taken. */
  function UpdateEndpoint(p: Planner, item: int, scan: Scan): (Planner, bool)
    requires Valid(p) && 0 <= item <= 3
  {
    var v := ScannedValue(scan);
    var m := p.tileMap;
    var e := p.endpoints;
    if item == 0 then
      if ScanSucceeded(scan) && 0 <= v && v < m.RowCount() && m.GetTile(v, e.startColumn).weight != 0 then
        var row := Clamped(v, m.RowCount());
        (p.(endpoints := e.(startRow := row, startTile := Some(m.GetTile(row, e.startColumn)))), true)
      else (p, false)
    else if item == 1 then
      if ScanSucceeded(scan) && 0 <= v && v < m.columnCount && m.GetTile(e.startRow, v).weight != 0 then
        var column := Clamped(v, m.columnCount);
        (p.(endpoints := e.(startColumn := column, startTile := Some(m.GetTile(e.startRow, column)))), true)
      else (p, false)
    else if item == 2 then
      if ScanSucceeded(scan) && 0 <= v && v < m.RowCount() && m.GetTile(v, e.goalColumn).weight != 0 then
        var row := Clamped(v, m.RowCount());
        (p.(endpoints := e.(goalRow := row, goalTile := Some(m.GetTile(row, e.goalColumn)))), true)
      else (p, false)
    else
      if ScanSucceeded(scan) && 0 <= v && v < m.columnCount && m.GetTile(e.goalRow, v).weight != 0 then
        var column := Clamped(v, m.columnCount);
        (p.(endpoints := e.(goalColumn := column, goalTile := Some(m.GetTile(e.goalRow, column)))), true)
      else (p, false)
  }

  /** The other items of `updateInput`: 4, 5 and 6 store a converted value into
      the time step, the fast time step or the round count. */
  function UpdateParameter(p: Planner, item: int, scan: Scan): Planner
  {
    var a := p.parameters;
    if !scan.Converted? then p
    else if item == 4 then p.(parameters := a.(timeStep := AsUnsigned(scan.value)))
    else if item == 5 then p.(parameters := a.(fastTimeStep := AsUnsigned(scan.value)))
    else if item == 6 then p.(parameters := a.(numberOfRounds := AsUnsigned(scan.value)))
    else p
  }

  /** `resetSearch`: `exit` if the search was entered, then an empty solution, the
      counters zeroed, initializable again and no longer entered. */
  function ResetSearch(p: Planner): Planner
  {
    var search := if p.hasEntered then Hook(p.search, Exit) else p.search;
    p.(search := search, tempSolution := [], progress := Progress(0.0, 0),
       isInitializable := true, hasEntered := false)
  }

  /** `isInitializableByKey`. */
  predicate IsInitializableByKey(p: Planner)
  {
    p.isInitializable
  }

  /** `isRunnableByKey`: initialised and not done. */
  predicate IsRunnableByKey(p: Planner)
  {
    !p.isInitializable && !p.search.done
  }

  /** `shouldEnableRun`: the Run and Step buttons are enabled when either key guard holds. */
  predicate ShouldEnableRun(p: Planner)
  {
    IsInitializableByKey(p) || IsRunnableByKey(p)
  }

  /** `shouldEnableTimeRun` as `GroundUpPathSearch` overrides it. */
  predicate ShouldEnableTimeRun(p: Planner)
  {
    IsReady(p)
  }

  /** `needsFullRedraw`, which `GroundUpPathSearch` does not override. */
  predicate NeedsFullRedraw(p: Planner)
  {
    true
  }

  /** The `enter` call made from the current endpoints. */
  function EnterCall(e: Endpoints): Call
  {
    Enter(e.startRow, e.startColumn, e.goalRow, e.goalColumn)
  }

  /** `initializeSearch`: counters zeroed; `enter` with the endpoints only when
      this is not a timed search; initialised. */
  function InitializeSearch(p: Planner): Planner
  {
    var zeroed := p.(progress := Progress(0.0, 0));
    var entered :=
      if !p.timedSearch then
        zeroed.(search := Hook(p.search, EnterCall(p.endpoints)), hasEntered := true)
      else zeroed;
    entered.(isInitializable := false)
  }

  /** One tick of the search: unless it is done, one `update` with `budget` and one
      more iteration. */
  function Tick(p: Planner, budget: int): Planner
  {
    if !p.search.done then
      p.(search := Hook(p.search, Update(budget)),
         progress := p.progress.(iterationCount := Incremented(p.progress.iterationCount)))
    else p
  }

  /** `runSearch`: a tick whose budget is the regular time step. */
  function RunSearch(p: Planner): Planner
  {
    Tick(p, AsLong(p.parameters.timeStep))
  }

  /** `stepSearch`: a tick with a budget of 0. */
  function StepSearch(p: Planner): Planner
  {
    Tick(p, 0)
  }

  /** The checker's faults for `solution` against the planner's endpoints and tile radius. */
  function FaultsOf(p: Planner, solution: seq<Tile>): seq<Fault>
  {
    Faults(solution, p.endpoints.startTile, p.endpoints.goalTile, p.tileMap.radius)
  }

  /** `checkSolution`: once the algorithm is done, its solution is copied into
      `tempSolution` and checked, each problem raising a fault; before that it
      does nothing. */
  function CheckSolution(p: Planner): Planner
  {
    if p.search.done then
      p.(tempSolution := p.search.solution, faults := p.faults + FaultsOf(p, p.search.solution))
    else p
  }

  // ---------------------------------------------------------------------------
  // Properties of the transitions

  /** `resetSearch` makes exactly one call, an `exit`, when the search had been
      entered, and none otherwise. */
  lemma ResetSearchExitsIffEntered(p: Planner)
    ensures var r := ResetSearch(p);
            && |r.search.calls| == |p.search.calls| + (if p.hasEntered then 1 else 0)
            && r.search.calls[..|p.search.calls|] == p.search.calls
            && multiset(r.search.calls)[Exit] == multiset(p.search.calls)[Exit] + (if p.hasEntered then 1 else 0)
  {
    var r := ResetSearch(p);
    if p.hasEntered {
      assert r.search.calls == p.search.calls + [Exit];
      assert r.search.calls[..|p.search.calls|] == p.search.calls;
    }
  }

  /** After `resetSearch` the search is initializable, not entered, with zero
      counters and no solution, whatever it was before. */
  lemma ResetSearchLeavesFreshState(p: Planner)
    ensures var r := ResetSearch(p);
            && IsInitializableByKey(r) && !IsRunnableByKey(r) && ShouldEnableRun(r)
            && !r.hasEntered && r.progress.iterationCount == 0 && r.progress.elapsedTime == 0.0
            && r.tempSolution == []
            && r.tileMap == p.tileMap && r.faults == p.faults
            && r.endpoints == p.endpoints && r.parameters == p.parameters
  {
  }

  /** A second `resetSearch` makes no call and changes nothing. */
  lemma ResetSearchIdempotent(p: Planner)
    ensures ResetSearch(ResetSearch(p)) == ResetSearch(p)
    ensures ResetSearch(ResetSearch(p)).search.calls == ResetSearch(p).search.calls
  {
  }

  /** The two key guards never hold together, and the Run button is enabled
      exactly when the search is initializable or not yet done. */
  lemma GuardsExclusive(p: Planner)
    ensures !(IsInitializableByKey(p) && IsRunnableByKey(p))
    ensures ShouldEnableRun(p) <==> p.isInitializable || !p.search.done
  {
  }

  /** `initializeSearch` calls `enter`, with the current endpoints, exactly when the
      search is not timed; it leaves the counters at zero and the search no longer
      initializable, so it is runnable exactly when the algorithm is not done. */
  lemma InitializeSearchEntersIffNotTimed(p: Planner)
    ensures var r := InitializeSearch(p);
            var e := p.endpoints;
            && (!p.timedSearch ==> r.search.calls == p.search.calls + [Enter(e.startRow, e.startColumn, e.goalRow, e.goalColumn)]
                                   && r.hasEntered)
            && (p.timedSearch ==> r.search == p.search && r.hasEntered == p.hasEntered)
            && r.progress.iterationCount == 0 && r.progress.elapsedTime == 0.0
            && !IsInitializableByKey(r)
            && (IsRunnableByKey(r) <==> !r.search.done)
            && r.tempSolution == p.tempSolution && r.faults == p.faults
  {
  }

  /** A tick makes one `update` call and counts one iteration (modulo 2^32) exactly
      when the algorithm is not done; a done algorithm is left untouched. */
  lemma TickCountsIffNotDone(p: Planner, budget: int)
    ensures var r := Tick(p, budget);
            && (!p.search.done ==> r.search.calls == p.search.calls + [Update(budget)]
                                   && r.progress.iterationCount == (p.progress.iterationCount + 1) % TwoToThe32
                                   && r.progress.elapsedTime == p.progress.elapsedTime
                                   && r.(search := p.search, progress := p.progress) == p)
            && (p.search.done ==> r == p)
  {
  }

  /** `runSearch` spends the regular time step, `stepSearch` a budget of zero; both
      leave the key guards where they were unless the algorithm moved on. */
  lemma RunAndStepBudgets(p: Planner)
    requires !p.search.done
    ensures RunSearch(p).search.calls == p.search.calls + [Update(AsLong(p.parameters.timeStep))]
    ensures StepSearch(p).search.calls == p.search.calls + [Update(0)]
    ensures RunSearch(p).isInitializable == p.isInitializable
    ensures StepSearch(p).isInitializable == p.isInitializable
  {
    TickCountsIffNotDone(p, AsLong(p.parameters.timeStep));
    TickCountsIffNotDone(p, 0);
  }

  /** The endpoint items: a value is accepted exactly when it scanned, lies on the
      map and names a passable tile. On acceptance the coordinate is the value
      itself, so the clamp never changes it, the endpoint's tile is the tile at the
      new position, and nothing else changes. On rejection nothing changes. */
  lemma UpdateInputEndpoints(p: Planner, item: int, scan: Scan)
    requires Valid(p) && 0 <= item <= 3
    ensures var (r, accepted) := UpdateInput(p, item, scan);
            var v := ScannedValue(scan);
            var m := p.tileMap;
            var e := p.endpoints;
            var isRow := item == 0 || item == 2;
            var isStart := item <= 1;
            var row := if isRow then v else if isStart then e.startRow else e.goalRow;
            var column := if !isRow then v else if isStart then e.startColumn else e.goalColumn;
            && (accepted <==> ScanSucceeded(scan) && m.InRange(row, column) && m.GetTile(row, column).weight != 0)
            && (accepted && isStart ==>
                  r == p.(endpoints := e.(startRow := row, startColumn := column, startTile := Some(m.GetTile(row, column)))))
            && (accepted && !isStart ==>
                  r == p.(endpoints := e.(goalRow := row, goalColumn := column, goalTile := Some(m.GetTile(row, column)))))
            && (!accepted ==> r == p)
  {
  }

  /** The parameter items store the scanned value (as an `unsigned int`) and all
      items other than the endpoints return false. */
  lemma UpdateInputParameters(p: Planner, item: int, scan: Scan)
    requires Valid(p) && !(0 <= item <= 3)
    ensures var (r, accepted) := UpdateInput(p, item, scan);
            var a := p.parameters;
            && !accepted
            && (item == 4 && scan.Converted? ==> r == p.(parameters := a.(timeStep := AsUnsigned(scan.value))))
            && (item == 5 && scan.Converted? ==> r == p.(parameters := a.(fastTimeStep := AsUnsigned(scan.value))))
            && (item == 6 && scan.Converted? ==> r == p.(parameters := a.(numberOfRounds := AsUnsigned(scan.value))))
            && (!(4 <= item <= 6) || !scan.Converted? ==> r == p)
  {
  }

  /** The parameter list's item count bounds what `updateInput` acts on: an item
      outside the seven listed ones is refused and changes nothing, while every
      listed item can take a value. */
  lemma ItemsBeyondInputCount(p: Planner, item: int, scan: Scan)
    requires Valid(p)
    ensures !(0 <= item < InputCount()) ==> UpdateInput(p, item, scan) == (p, false)
    ensures 4 <= item < InputCount() && scan.Converted? ==>
              var stored := UpdateInput(p, item, scan).0.parameters;
              [stored.timeStep, stored.fastTimeStep, stored.numberOfRounds][item - 4] == AsUnsigned(scan.value)
  {
    if !(0 <= item <= 3) {
      UpdateInputParameters(p, item, scan);
    }
  }

  /** Editing never moves an endpoint off the map. */
  lemma UpdateInputPreservesValid(p: Planner, item: int, scan: Scan)
    requires Valid(p)
    ensures Valid(UpdateInput(p, item, scan).0)
  {
    if 0 <= item <= 3 {
      UpdateInputEndpoints(p, item, scan);
    } else {
      UpdateInputParameters(p, item, scan);
    }
  }

  /** The editor does not keep the start and the goal apart: moving the start onto
      the goal's passable tile is accepted. */
  lemma StartMayEqualGoal(p: Planner)
    requires Valid(p) && !p.tileMap.IsEmpty()
    requires p.endpoints.startColumn == p.endpoints.goalColumn
    requires p.tileMap.GetTile(p.endpoints.goalRow, p.endpoints.goalColumn).weight != 0
    ensures var (r, accepted) := UpdateInput(p, 0, Converted(p.endpoints.goalRow));
            accepted && r.endpoints.startRow == r.endpoints.goalRow
            && r.endpoints.startColumn == r.endpoints.goalColumn
  {
  }

  /** An empty text sets an endpoint coordinate to 0 when the tile there is passable. */
  lemma EmptyTextMeansZero(p: Planner)
    requires Valid(p) && !p.tileMap.IsEmpty()
    requires p.tileMap.GetTile(0, p.endpoints.startColumn).weight != 0
    ensures var (r, accepted) := UpdateInput(p, 0, EndOfText);
            accepted && r.endpoints.startRow == 0
  {
  }

  /** `checkSolution` leaves a search that is not done alone; on a done search it
      changes only `tempSolution`, which becomes the solution, and the faults, to
      which exactly the checker's faults for that solution are appended. */
  lemma CheckSolutionEffect(p: Planner)
    ensures var r := CheckSolution(p);
            && (!p.search.done ==> r == p)
            && (p.search.done ==>
                  && r.tempSolution == p.search.solution
                  && r.faults[..|p.faults|] == p.faults
                  && r.faults[|p.faults|..] == Faults(p.search.solution, p.endpoints.startTile, p.endpoints.goalTile, p.tileMap.radius)
                  && r.(tempSolution := p.tempSolution, faults := p.faults) == p)
  {
    var r := CheckSolution(p);
    if p.search.done {
      assert r.faults == p.faults + FaultsOf(p, p.search.solution);
    }
  }

  /** The transitions of the search keep the endpoints on the map. */
  lemma TransitionsPreserveValid(p: Planner, isTimed: bool)
    requires Valid(p)
    ensures Valid(ResetSearch(p)) && Valid(InitializeSearch(p)) && Valid(RunSearch(p))
    ensures Valid(StepSearch(p)) && Valid(CheckSolution(p)) && Valid(SetTimedSearch(p, isTimed))
    ensures Valid(ShutdownSearch(p)) && Valid(InitializeAlgorithm(p))
  {
  }
}
