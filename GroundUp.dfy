/** The planner object itself: `GroundUpPathSearch` with its fields updated in
    place. Every method is proved to move the object from one snapshot to the next
    exactly as the corresponding transition of `Session` (or `Benchmark`) says, so
    the properties proved there hold of the object. */
module GroundUp {
  import opened Algorithm
  import opened Validator
  import opened Session
  import Benchmark

  class GroundUpPathSearch {
    var search: PathSearch
    var tileMap: TileMap
    var endpoints: Endpoints
    var parameters: Parameters
    var progress: Progress
    var isInitializable: bool
    var timedSearch: bool
    var hasEntered: bool
    var tempSolution: seq<Tile>
    var faults: seq<Fault>

    /** The current values of the fields. */
    function State(): Planner
      reads this
    {
      Planner(search, tileMap, endpoints, parameters, progress, isInitializable, timedSearch, hasEntered,
              tempSolution, faults)
    }

    /** The constructor, with the defaults of its initialiser list; `hasEntered`
        is cleared by the base class and `timedSearch` is left unassigned. */
    constructor (tiles: TileMap, algorithm: PathSearch)
      requires tiles.Valid()
      ensures State() == Constructed(tiles, algorithm, timedSearch)
      ensures Valid(State())
    {
      search := algorithm;
      tileMap := tiles;
      endpoints := Endpoints(0, 0, 0, 0, None, None);
      parameters := Parameters(0, 5000, 1);
      progress := Progress(0.0, 0);
      isInitializable := true;
      hasEntered := false;
      tempSolution := [];
      faults := [];
    }

    method SetTimedSearch(isTimed: bool)
      modifies this
      ensures State() == Session.SetTimedSearch(old(State()), isTimed)
    {
      timedSearch := isTimed;
    }

    method ResetParameters()
      modifies this
      ensures State() == Session.ResetParameters(old(State()))
    {
      endpoints := Endpoints(0, 0, 0, 0, None, None);
      parameters := Parameters(0, 5000, 1);
    }

    method ShutdownSearch()
      modifies this
      ensures State() == Session.ShutdownSearch(old(State()))
    {
      search := Hook(search, Shutdown);
    }

    method Read() returns (ok: bool)
      requires tileMap.Valid() && !tileMap.IsEmpty()
      modifies this
      ensures ok
      ensures State() == Session.Read(old(State()))
    {
      var goalRow, goalColumn := tileMap.RowCount() - 1, tileMap.columnCount - 1;
      endpoints := Endpoints(0, 0, goalRow, goalColumn,
                             Some(tileMap.GetTile(0, 0)), Some(tileMap.GetTile(goalRow, goalColumn)));
      ok := true;
    }

    method Initialize()
      modifies this
      ensures State() == InitializeAlgorithm(old(State()))
    {
      search := Hook(search, Algorithm.Initialize);
    }

    /** `updateInput`. */
    method UpdateInput(item: int, scan: Scan) returns (accepted: bool)
      requires Valid(State())
      modifies this
      ensures (State(), accepted) == Session.UpdateInput(old(State()), item, scan)
      ensures Valid(State())
    {
      UpdateInputPreservesValid(State(), item, scan);
      if 0 <= item <= 3 {
        accepted := UpdateEndpoint(item, scan);
      } else {
        UpdateParameter(item, scan);
        accepted := false;
      }
    }

    /** The endpoint items, with the clamp written as `updateInput` writes it. */
    method UpdateEndpoint(item: int, scan: Scan) returns (accepted: bool)
      requires Valid(State()) && 0 <= item <= 3
      modifies this
      ensures (State(), accepted) == Session.UpdateEndpoint(old(State()), item, scan)
    {
      var value := ScannedValue(scan);
      var e := endpoints;
      var isRow := item == 0 || item == 2;
      var count := if isRow then tileMap.RowCount() else tileMap.columnCount;
      var row := if isRow then value else if item <= 1 then e.startRow else e.goalRow;
      var column := if isRow then (if item <= 1 then e.startColumn else e.goalColumn) else value;
      if ScanSucceeded(scan) && 0 <= value && value < count && tileMap.GetTile(row, column).weight != 0 {
        var clamped := count;
        if value < clamped {
          clamped := value;
        } else {
          clamped := clamped - 1;
        }
        if isRow {
          row := clamped;
        } else {
          column := clamped;
        }
        var tile := Some(tileMap.GetTile(row, column));
        if item <= 1 {
          endpoints := e.(startRow := row, startColumn := column, startTile := tile);
        } else {
          endpoints := e.(goalRow := row, goalColumn := column, goalTile := tile);
        }
        return true;
      }
      return false;
    }

    /** The parameter items. */
    method UpdateParameter(item: int, scan: Scan)
      modifies this
      ensures State() == Session.UpdateParameter(old(State()), item, scan)
    {
      if scan.Converted? {
        if item == 4 {
          parameters := parameters.(timeStep := AsUnsigned(scan.value));
        } else if item == 5 {
          parameters := parameters.(fastTimeStep := AsUnsigned(scan.value));
        } else if item == 6 {
          parameters := parameters.(numberOfRounds := AsUnsigned(scan.value));
        }
      }
    }

    method ResetSearch()
      modifies this
      ensures State() == Session.ResetSearch(old(State()))
    {
      if hasEntered {
        search := Hook(search, Exit);
      }
      tempSolution := [];
      progress := Progress(0.0, 0);
      isInitializable := true;
      hasEntered := false;
    }

    method InitializeSearch()
      modifies this
      ensures State() == Session.InitializeSearch(old(State()))
    {
      progress := Progress(0.0, 0);
      if !timedSearch {
        search := Hook(search, Enter(endpoints.startRow, endpoints.startColumn, endpoints.goalRow, endpoints.goalColumn));
        hasEntered := true;
      }
      isInitializable := false;
    }

    method RunSearch()
      modifies this
      ensures State() == Session.RunSearch(old(State()))
    {
      if !search.done {
        search := Hook(search, Update(AsLong(parameters.timeStep)));
        progress := progress.(iterationCount := Incremented(progress.iterationCount));
      }
    }

    method StepSearch()
      modifies this
      ensures State() == Session.StepSearch(old(State()))
    {
      if !search.done {
        search := Hook(search, Update(0));
        progress := progress.(iterationCount := Incremented(progress.iterationCount));
      }
    }

    /** `timeSearch`, with `measured` standing for the clock reading. */
    method TimeSearch(measured: real)
      modifies this
      ensures State() == Benchmark.TimeSearch(old(State()), measured)
    {
      timedSearch := true;
      InitializeSearch();
      tempSolution := [];
      hasEntered := true;
      ghost var prepared := State();
      assert prepared == Benchmark.Prepared(old(State()));
      RunRounds();
      assert State() == Benchmark.AfterRounds(prepared);
      hasEntered := false;
      progress := progress.(elapsedTime := measured);
      if search.done {
        var found := ValidateSolution(tempSolution, endpoints.startTile, endpoints.goalTile, tileMap.radius);
        faults := faults + found;
      } else {
        faults := faults + [Timeout];
        ResetSearch();
      }
    }

    /** The round loop of `timeSearch`: each round enters, updates once with the
        fast time step, reads the solution back and exits. */
    method RunRounds()
      modifies this
      ensures State() == Benchmark.AfterRounds(old(State()))
    {
      ghost var before := State();
      var budget := AsLong(parameters.fastTimeStep);
      for i := 0 to parameters.numberOfRounds
        invariant State() == before.(
          search := Benchmark.Rounds(before.search, i, endpoints, budget).0,
          tempSolution := if i == 0 then before.tempSolution else Benchmark.Rounds(before.search, i, endpoints, budget).1)
      {
        search := Hook(search, Enter(endpoints.startRow, endpoints.startColumn, endpoints.goalRow, endpoints.goalColumn));
        search := Hook(search, Update(budget));
        tempSolution := search.solution;
        search := Hook(search, Exit);
      }
    }

    method CheckSolution()
      modifies this
      ensures State() == Session.CheckSolution(old(State()))
    {
      if search.done {
        tempSolution := search.solution;
        var found := ValidateSolution(tempSolution, endpoints.startTile, endpoints.goalTile, tileMap.radius);
        faults := faults + found;
      }
    }
  }
}
