/** The application object `PathSearchApp` with its fields updated in place. It
    holds the planner and the process-wide settings as objects of their own, and
    every method is proved to move the three objects together exactly as the
    corresponding step of `Driver` says. */
module App {
  import opened Algorithm
  import opened Validator
  import opened Session
  import opened Flags
  import opened GroundUp
  import opened Driver

  class PathSearchApp {
    const globals: Globals
    const planner: GroundUpPathSearch
    var view: View
    var needsFullRender: bool
    var cannotCloseThreadHandle: bool
    var shouldStopThreadHandle: bool
    var paints: seq<Paint>

    /** The current values of the fields, with the planner's and the flags. */
    function Snapshot(): AppState
      reads this, planner, globals
    {
      AppState(planner.State(), globals.flags, view, needsFullRender, cannotCloseThreadHandle,
               shouldStopThreadHandle, paints)
    }

    /** The constructor: a planner around the application's default-constructed,
        empty tile map, and the fields of the initialiser list. */
    constructor (settings: Globals, tiles: TileMap, algorithm: PathSearch)
      requires tiles.Valid() && tiles.IsEmpty()
      ensures globals == settings && fresh(planner)
      ensures planner.State() == Constructed(tiles, algorithm, planner.timedSearch)
      ensures Snapshot() == Started(planner.State(), settings.flags)
    {
      globals := settings;
      planner := new GroundUpPathSearch(tiles, algorithm);
      view := View(0, 0, 0, 0);
      needsFullRender := false;
      cannotCloseThreadHandle := true;
      shouldStopThreadHandle := false;
      paints := [];
    }

    /** `renderFull_`. */
    method RenderFull()
      modifies this
      ensures Snapshot() == Driver.RenderFull(old(Snapshot()))
    {
      paints := paints + [PaintAll];
      needsFullRender := NeedsFullRedraw(planner.State());
    }

    /** `InvalidateRect` on the grid. */
    method Invalidate()
      modifies this
      ensures Snapshot() == Invalidated(old(Snapshot()))
    {
      paints := paints + [Paint.Invalidate];
    }

    /** One pass of the worker loop of `threadHandler`; false when it ends. */
    method Worker() returns (continues: bool)
      modifies this, planner, globals
      ensures (Snapshot(), continues) == Driver.Worker(old(Snapshot()))
      ensures globals.minRadius == old(globals.minRadius)
    {
      if shouldStopThreadHandle {
        cannotCloseThreadHandle := false;
        return false;
      }
      ghost var s := Snapshot();
      if globals.IsFlagOn(SHOW_SEARCH_RUNNING) != 0 {
        if IsRunnableByKey(planner.State()) {
          if needsFullRender {
            planner.RunSearch();
            RenderFull();
          } else {
            paints := paints + [BeginRedraw];
            planner.RunSearch();
            paints := paints + [EndRedraw];
          }
          assert Snapshot() == Driver.Worker(s).0;
        } else if IsInitializableByKey(planner.State()) {
          planner.SetTimedSearch(false);
          planner.InitializeSearch();
          planner.CheckSolution();
          RenderFull();
          assert Snapshot() == Driver.Worker(s).0;
        } else {
          globals.TurnOff(SHOW_SEARCH_RUNNING);
          planner.CheckSolution();
          Invalidate();
          assert Snapshot() == Driver.Worker(s).0;
        }
      }
      return true;
    }

    /** `reset_`. */
    method Reset()
      modifies this, planner, globals
      ensures Snapshot() == Driver.Reset(old(Snapshot()))
      ensures globals.minRadius == old(globals.minRadius)
    {
      globals.TurnOff(SHOW_SEARCH_RUNNING);
      planner.ResetSearch();
    }

    /** `onReset`. */
    method OnReset()
      modifies this, planner, globals
      ensures Snapshot() == Driver.OnReset(old(Snapshot()))
      ensures globals.minRadius == old(globals.minRadius)
    {
      Reset();
      Invalidate();
    }

    /** `resetByKey_`. */
    method ResetByKey()
      modifies this, planner, globals
      ensures Snapshot() == Driver.ResetByKey(old(Snapshot()))
      ensures globals.minRadius == old(globals.minRadius)
    {
      if IsReady(planner.State()) {
        OnReset();
      }
    }

    /** `run_`: true when it stopped a running search. */
    method RunToggle() returns (stopped: bool)
      modifies this, planner, globals
      ensures (Snapshot(), stopped) == Driver.RunToggle(old(Snapshot()))
      ensures globals.minRadius == old(globals.minRadius)
    {
      if globals.IsFlagOn(SHOW_SEARCH_RUNNING) != 0 {
        globals.TurnOff(SHOW_SEARCH_RUNNING);
        planner.CheckSolution();
        return true;
      } else {
        paints := paints + [PaintAll];
        globals.TurnOn(SHOW_SEARCH_RUNNING);
        return false;
      }
    }

    /** `onRun`. */
    method OnRun()
      modifies this, planner, globals
      ensures Snapshot() == Driver.OnRun(old(Snapshot()))
      ensures globals.minRadius == old(globals.minRadius)
    {
      var stopped := RunToggle();
      if stopped {
        Invalidate();
      }
    }

    /** `runByKey_`. */
    method RunByKey()
      modifies this, planner, globals
      ensures Snapshot() == Driver.RunByKey(old(Snapshot()))
      ensures globals.minRadius == old(globals.minRadius)
    {
      if IsReady(planner.State()) {
        if IsRunnableByKey(planner.State()) || IsInitializableByKey(planner.State()) {
          OnRun();
        }
      }
    }

    /** `step_`. */
    method Step()
      modifies this, planner, globals
      ensures Snapshot() == Driver.Step(old(Snapshot()))
      ensures globals.minRadius == old(globals.minRadius)
    {
      globals.TurnOff(SHOW_SEARCH_RUNNING);
      StepPlanner();
      planner.CheckSolution();
    }

    /** The planner part of `step_` before the check: initialise and step an
        initializable search, step a runnable one. */
    method StepPlanner()
      modifies planner
      ensures planner.State() == Stepped(old(planner.State()))
    {
      if IsInitializableByKey(planner.State()) {
        planner.SetTimedSearch(false);
        planner.InitializeSearch();
        planner.StepSearch();
      } else if IsRunnableByKey(planner.State()) {
        planner.StepSearch();
      }
    }

    /** `onStep`. */
    method OnStep()
      modifies this, planner, globals
      ensures Snapshot() == Driver.OnStep(old(Snapshot()))
      ensures globals.minRadius == old(globals.minRadius)
    {
      Step();
      Invalidate();
    }

    /** `stepByKey_`. */
    method StepByKey()
      modifies this, planner, globals
      ensures Snapshot() == Driver.StepByKey(old(Snapshot()))
      ensures globals.minRadius == old(globals.minRadius)
    {
      if IsReady(planner.State()) {
        OnStep();
      }
    }

    /** `timeRun_`, with `measured` standing for the clock reading. */
    method TimeRun(measured: real)
      modifies this, planner, globals
      ensures Snapshot() == Driver.TimeRun(old(Snapshot()), measured)
      ensures globals.minRadius == old(globals.minRadius)
    {
      globals.TurnOff(SHOW_SEARCH_RUNNING);
      planner.ResetSearch();
      planner.TimeSearch(measured);
    }

    /** `onTimeRun`. */
    method OnTimeRun(measured: real)
      modifies this, planner, globals
      ensures Snapshot() == Driver.OnTimeRun(old(Snapshot()), measured)
      ensures globals.minRadius == old(globals.minRadius)
    {
      TimeRun(measured);
      Invalidate();
    }

    /** `timeRunByKey_`. */
    method TimeRunByKey(measured: real)
      modifies this, planner, globals
      ensures Snapshot() == Driver.TimeRunByKey(old(Snapshot()), measured)
      ensures globals.minRadius == old(globals.minRadius)
    {
      if IsReady(planner.State()) {
        OnTimeRun(measured);
      }
    }

    /** `onKeyPress`: true when the key was handled. */
    method KeyPress(key: int, measured: real) returns (handled: bool)
      modifies this, planner, globals
      ensures (Snapshot(), handled) == Driver.KeyPress(old(Snapshot()), key, measured)
      ensures globals.minRadius == old(globals.minRadius)
    {
      if view.tileMapWidth != 0 && view.tileMapHeight != 0 {
        if key == VK_BACK {
          ResetByKey();
          return true;
        } else if key == VK_SPACE {
          RunByKey();
          return true;
        } else if key == VK_ADD {
          StepByKey();
          return true;
        } else if key == VK_TAB {
          TimeRunByKey(measured);
          return true;
        } else if key == KEY_S || key == KEY_G {
          return true;
        }
      }
      return false;
    }

    /** The end of `onHScroll`, given the scroll positions before and after. */
    method HScroll(oldPosition: int, newPosition: int)
      modifies this
      ensures Snapshot() == Driver.HScroll(old(Snapshot()), oldPosition, newPosition)
    {
      if oldPosition != newPosition {
        view := view.(offsetX := -newPosition);
        Rescroll();
      }
    }

    /** The end of `onVScroll`, given the scroll positions before and after. */
    method VScroll(oldPosition: int, newPosition: int)
      modifies this
      ensures Snapshot() == Driver.VScroll(old(Snapshot()), oldPosition, newPosition)
    {
      if oldPosition != newPosition {
        view := view.(offsetY := -newPosition);
        Rescroll();
      }
    }

    /** What a moved scroll bar asks for. */
    method Rescroll()
      modifies this
      ensures Snapshot() == Rescrolled(old(Snapshot()))
    {
      if globals.IsFlagOn(SHOW_SEARCH_RUNNING) != 0 {
        needsFullRender := true;
      } else {
        Invalidate();
      }
    }

    /** `openFile_`, given how opening and loading the file went. */
    method OpenFile(result: LoadResult)
      requires result.Loaded? ==> result.tiles.Valid() && !result.tiles.IsEmpty()
      modifies this, planner, globals
      ensures Snapshot() == Driver.OpenFile(old(Snapshot()), result)
      ensures globals.minRadius == old(globals.minRadius)
    {
      if result.Unopened? {
        return;
      }
      globals.TurnOff(SHOW_SEARCH_RUNNING);
      planner.ResetSearch();
      if result.Loaded? {
        planner.tileMap := result.tiles;
        planner.ShutdownSearch();
        var ok := planner.Read();
        planner.Initialize();
        view := view.(tileMapWidth := result.width, tileMapHeight := result.height);
      } else {
        planner.ResetParameters();
        planner.tileMap := planner.tileMap.Cleared();
        view := view.(tileMapWidth := 0, tileMapHeight := 0);
        planner.faults := planner.faults + [InvalidFile];
      }
      UpdateTileGrid();
    }

    /** `updateTileGrid_`: the scroll offset back at the origin, the grid invalidated. */
    method UpdateTileGrid()
      modifies this
      ensures Snapshot() == TileGridUpdated(old(Snapshot()))
    {
      view := view.(offsetX := 0, offsetY := 0);
      Invalidate();
    }
  }
}
