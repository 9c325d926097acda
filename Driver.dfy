/** The steps `PathSearchApp` takes on the planner: one pass of the worker loop,
    the Run, Step, Reset and Time Run commands and their keyboard variants, the
    end of the scroll handlers and the opening of a map file. Each step is a
    transition of one `AppState`; the locks around it are left implicit, so a step
    is atomic. Drawing is recorded only as the list of `Paint` actions a step
    asks for; button states and icons are not modelled. */
module Driver {
  import opened Algorithm
  import opened Validator
  import opened Session
  import Benchmark
  import opened Flags

  /** What a step asks of the screen. `PaintAll` clears the back buffer and
      repaints the whole grid; `BeginRedraw` and `EndRedraw` bracket an
      incremental redraw of the search progress; `Invalidate` asks Windows to
      repaint the grid later. */
  datatype Paint = PaintAll | BeginRedraw | EndRedraw | Invalidate

  /** The size of the drawn map in pixels (0 by 0 without a map) and the scroll
      offset of the grid, `tile_grid_offset_`. */
  datatype View = View(tileMapWidth: int, tileMapHeight: int, offsetX: int, offsetY: int)

  /** The state the steps read and write: the planner, the process-wide flags,
      the view, the three worker flags `needs_full_render_`,
      `cannot_close_thread_handle_` and `should_stop_thread_handle_`, and the
      paints asked for so far. */
  datatype AppState = AppState(
    planner: Planner,
    flags: bv32,
    view: View,
    needsFullRender: bool,
    cannotCloseThreadHandle: bool,
    shouldStopThreadHandle: bool,
    paints: seq<Paint>)

  /** Whether the worker keeps advancing the search. */
  predicate IsRunning(s: AppState)
  {
    s.flags & SHOW_SEARCH_RUNNING != 0
  }

  /** The state the constructor leaves around a freshly constructed planner and
      the process-wide flags: no map drawn, no offset, the worker allowed to run
      and no full render pending. */
  function Started(planner: Planner, flags: bv32): (s: AppState)
    ensures !s.needsFullRender && s.cannotCloseThreadHandle && !s.shouldStopThreadHandle
    ensures s.view.tileMapWidth == 0 && s.view.tileMapHeight == 0
  {
    AppState(planner, flags, View(0, 0, 0, 0), false, true, false, [])
  }

  /** The running flag cleared, every other bit kept. */
  function Stopped(s: AppState): (r: AppState)
    ensures !IsRunning(r)
    ensures r.(flags := s.flags) == s
  {
    s.(flags := TurnedOff(s.flags, SHOW_SEARCH_RUNNING))
  }

  /** `renderFull_`: the whole grid repainted, then `needs_full_render_` set to
      what the planner's `needsFullRedraw` says. */
  function RenderFull(s: AppState): (r: AppState)
    ensures r.needsFullRender
    ensures r.paints == s.paints + [PaintAll]
    ensures r.(paints := s.paints, needsFullRender := s.needsFullRender) == s
  {
    s.(paints := s.paints + [PaintAll], needsFullRender := NeedsFullRedraw(s.planner))
  }

  /** One pass of the worker loop in `threadHandler`, without the pause after it.
      The boolean is false when the loop ends. */
  function Worker(s: AppState): (AppState, bool)
  {
    var p := s.planner;
    if s.shouldStopThreadHandle then
      (s.(cannotCloseThreadHandle := false), false)
    else if !IsRunning(s) then
      (s, true)
    else if IsRunnableByKey(p) then
      if s.needsFullRender then
        (RenderFull(s.(planner := RunSearch(p))), true)
      else
        (s.(planner := RunSearch(p), paints := s.paints + [BeginRedraw, EndRedraw]), true)
    else if IsInitializableByKey(p) then
      (RenderFull(s.(planner := CheckSolution(InitializeSearch(SetTimedSearch(p, false))))), true)
    else
      (Stopped(s).(planner := CheckSolution(p), paints := s.paints + [Invalidate]), true)
  }

  /** `reset_`: the run stopped and the search reset. */
  function Reset(s: AppState): AppState
  {
    Stopped(s).(planner := ResetSearch(s.planner))
  }

  /** `onReset`: a reset, then the grid invalidated. */
  function OnReset(s: AppState): AppState
  {
    Invalidated(Reset(s))
  }

  /** The grid invalidated. */
  function Invalidated(s: AppState): (r: AppState)
    ensures r.paints == s.paints + [Invalidate]
    ensures r.(paints := s.paints) == s
  {
    s.(paints := s.paints + [Invalidate])
  }

  /** `resetByKey_`: a reset only when a map is loaded. */
  function ResetByKey(s: AppState): AppState
  {
    if IsReady(s.planner) then OnReset(s) else s
  }

  /** `run_`: a running search is stopped and its solution checked (the result
      is true); a stopped one is started after a full repaint (the result is
      false). */
  function RunToggle(s: AppState): (AppState, bool)
  {
    if IsRunning(s) then
      (Stopped(s).(planner := CheckSolution(s.planner)), true)
    else
      (s.(paints := s.paints + [PaintAll], flags := TurnedOn(s.flags, SHOW_SEARCH_RUNNING)), false)
  }

  /** `onRun`: the toggle, without a guard; the grid is invalidated when it stopped
      the search. */
  function OnRun(s: AppState): AppState
  {
    var (r, stopped) := RunToggle(s);
    if stopped then Invalidated(r) else r
  }

  /** `runByKey_`: the toggle only when a map is loaded and the search is either
      initializable or runnable. */
  function RunByKey(s: AppState): AppState
  {
    if IsReady(s.planner) && (IsRunnableByKey(s.planner) || IsInitializableByKey(s.planner)) then OnRun(s)
    else s
  }

  /** `step_`: the run stopped; an initializable search is initialised (untimed)
      and stepped, a runnable one stepped, any other left alone; then the solution
      is checked. */
  function Step(s: AppState): AppState
  {
    Stopped(s).(planner := CheckSolution(Stepped(s.planner)))
  }

  /** The planner part of `step_` before the check. */
  function Stepped(p: Planner): Planner
  {
    if IsInitializableByKey(p) then StepSearch(InitializeSearch(SetTimedSearch(p, false)))
    else if IsRunnableByKey(p) then StepSearch(p)
    else p
  }

  /** `onStep`: a step, then the grid invalidated. */
  function OnStep(s: AppState): AppState
  {
    Invalidated(Step(s))
  }

  /** `stepByKey_`: a step only when a map is loaded. */
  function StepByKey(s: AppState): AppState
  {
    if IsReady(s.planner) then OnStep(s) else s
  }

  /** `timeRun_`: the run stopped, the search reset and then benchmarked, with
      `measured` standing for the clock reading. The solution is not checked
      afterwards beyond what the benchmark itself checks. */
  function TimeRun(s: AppState, measured: real): AppState
  {
    Stopped(s).(planner := Benchmark.TimeSearch(ResetSearch(s.planner), measured))
  }

  /** `onTimeRun`: a timed run, then the grid invalidated. */
  function OnTimeRun(s: AppState, measured: real): AppState
  {
    Invalidated(TimeRun(s, measured))
  }

  /** `timeRunByKey_`: a timed run only when a map is loaded. */
  function TimeRunByKey(s: AppState, measured: real): AppState
  {
    if IsReady(s.planner) then OnTimeRun(s, measured) else s
  }

  const VK_BACK: int := 0x08
  const VK_TAB: int := 0x09
  const VK_SPACE: int := 0x20
  const VK_ADD: int := 0x6B
  const KEY_S: int := 0x53
  const KEY_G: int := 0x47

  /** `onKeyPress`: with a map drawn, Backspace resets, Space toggles the run, the
      keypad plus steps, Tab starts a timed run, and S and G ask the planner to
      update its start or goal, which this planner declines (its `updateStart`
      and `updateGoal` are the base class's, returning false) so nothing changes.
      The result says whether the key was handled. */
  function KeyPress(s: AppState, key: int, measured: real): (AppState, bool)
  {
    if s.view.tileMapWidth != 0 && s.view.tileMapHeight != 0 then
      if key == VK_BACK then (ResetByKey(s), true)
      else if key == VK_SPACE then (RunByKey(s), true)
      else if key == VK_ADD then (StepByKey(s), true)
      else if key == VK_TAB then (TimeRunByKey(s, measured), true)
      else if key == KEY_S || key == KEY_G then (s, true)
      else (s, false)
    else (s, false)
  }

  /** What a moved scroll bar asks for: a full render on the worker's next pass
      while the search runs, an invalidated grid otherwise. */
  function Rescrolled(s: AppState): AppState
  {
    if IsRunning(s) then s.(needsFullRender := true) else Invalidated(s)
  }

  /** The end of `onHScroll`: `oldPosition` and `newPosition` are the scroll
      positions before and after Windows clamped the request. */
  function HScroll(s: AppState, oldPosition: int, newPosition: int): AppState
  {
    if oldPosition != newPosition then Rescrolled(s.(view := s.view.(offsetX := -newPosition))) else s
  }

  /** The end of `onVScroll`, likewise for the vertical offset. */
  function VScroll(s: AppState, oldPosition: int, newPosition: int): AppState
  {
    if oldPosition != newPosition then Rescrolled(s.(view := s.view.(offsetY := -newPosition))) else s
  }

  /** How opening a map file went: the file could not be opened, it did not hold a
      map, or it held `tiles`, which are drawn `width` by `height` pixels. The
      tile radius in `tiles` and the pixel size are what the radius computation
      gives, which is not modelled. */
  datatype LoadResult = Unopened | Unloadable | Loaded(tiles: TileMap, width: int, height: int)

  /** `openFile_`. An unopened file changes nothing. Otherwise the run is stopped
      and the search reset; a loaded map replaces the planner's map, the
      algorithm is shut down, the planner reads its default endpoints and the
      algorithm is initialised with the new map; a failed load clears the
      parameters and the map and raises the "Invalid file." fault. Either way
      the tile grid is updated last. */
  function OpenFile(s: AppState, result: LoadResult): AppState
    requires result.Loaded? ==> result.tiles.Valid() && !result.tiles.IsEmpty()
  {
    if result.Unopened? then s
    else
      var reset := ResetSearch(s.planner);
      var stopped := Stopped(s);
      if result.Loaded? then
        var loaded := Read(ShutdownSearch(reset.(tileMap := result.tiles)));
        TileGridUpdated(stopped.(planner := InitializeAlgorithm(loaded),
                                 view := s.view.(tileMapWidth := result.width, tileMapHeight := result.height)))
      else
        var cleared := ResetParameters(reset).(tileMap := reset.tileMap.Cleared());
        TileGridUpdated(stopped.(planner := cleared.(faults := cleared.faults + [InvalidFile]),
                                 view := s.view.(tileMapWidth := 0, tileMapHeight := 0)))
  }

  /** `updateTileGrid_`: the scroll offset is reset to the origin and the grid
      invalidated; the map's pixel size and everything else are kept. */
  function TileGridUpdated(s: AppState): (r: AppState)
    ensures r.view.offsetX == 0 && r.view.offsetY == 0
    ensures r.view.tileMapWidth == s.view.tileMapWidth && r.view.tileMapHeight == s.view.tileMapHeight
    ensures r.paints == s.paints + [Invalidate]
    ensures r.(view := s.view, paints := s.paints) == s
  {
    Invalidated(s.(view := s.view.(offsetX := 0, offsetY := 0)))
  }

  // ---------------------------------------------------------------------------
  // Properties of the steps

  /** The worker's first two branches: a stop request ends the loop, clearing only
      `cannot_close_thread_handle_`; otherwise the loop goes on, and a stopped run
      changes nothing. */
  lemma WorkerStopsOrIdles(s: AppState)
    ensures var (r, continues) := Worker(s);
            && (continues <==> !s.shouldStopThreadHandle)
            && (s.shouldStopThreadHandle ==> r == s.(cannotCloseThreadHandle := false))
            && (!s.shouldStopThreadHandle && !IsRunning(s) ==> r == s)
            && (!s.shouldStopThreadHandle ==> r.cannotCloseThreadHandle == s.cannotCloseThreadHandle)
  {
  }

  /** A running, runnable search gets exactly one `update`, with the regular time
      step, followed by a full render when one is pending and bracketed by an
      incremental redraw otherwise; it keeps running. */
  lemma WorkerRunsRunnable(s: AppState)
    requires !s.shouldStopThreadHandle && IsRunning(s) && IsRunnableByKey(s.planner)
    ensures var (r, continues) := Worker(s);
            var p := s.planner;
            && continues
            && r.planner.search.calls == p.search.calls + [Update(AsLong(p.parameters.timeStep))]
            && r.planner == RunSearch(p)
            && IsRunning(r)
            && r.paints == s.paints + (if s.needsFullRender then [PaintAll] else [BeginRedraw, EndRedraw])
            && r.needsFullRender == s.needsFullRender
  {
    TickCountsIffNotDone(s.planner, AsLong(s.planner.parameters.timeStep));
  }

  /** A running, initializable search is initialised untimed, which enters it
      with the current endpoints, has its solution checked and is fully rendered;
      it keeps running. */
  lemma WorkerInitializes(s: AppState)
    requires !s.shouldStopThreadHandle && IsRunning(s) && IsInitializableByKey(s.planner)
    ensures var (r, continues) := Worker(s);
            var p := s.planner;
            var e := p.endpoints;
            && continues
            && r.planner.search.calls == p.search.calls + [Enter(e.startRow, e.startColumn, e.goalRow, e.goalColumn)]
            && !r.planner.timedSearch && r.planner.hasEntered && !IsInitializableByKey(r.planner)
            && r.planner == CheckSolution(InitializeSearch(SetTimedSearch(p, false)))
            && (r.planner.search.done ==> r.planner.tempSolution == r.planner.search.solution)
            && IsRunning(r) && r.needsFullRender && r.paints == s.paints + [PaintAll]
  {
    var p := s.planner;
    InitializeSearchEntersIffNotTimed(SetTimedSearch(p, false));
    CheckSolutionEffect(InitializeSearch(SetTimedSearch(p, false)));
  }

  /** A running search that is neither runnable nor initializable (it is done) has
      its run stopped and its solution checked, without any call to the algorithm. */
  lemma WorkerStopsDone(s: AppState)
    requires !s.shouldStopThreadHandle && IsRunning(s)
    requires !IsRunnableByKey(s.planner) && !IsInitializableByKey(s.planner)
    ensures var (r, continues) := Worker(s);
            && continues
            && !IsRunning(r) && r.planner == CheckSolution(s.planner)
            && r.planner.search == s.planner.search
            && r.paints == s.paints + [Invalidate]
  {
    CheckSolutionEffect(s.planner);
  }

  /** A pending full render is never cancelled by the worker: every pass keeps
      `needs_full_render_` set once it is set, because the planner always asks
      for a full redraw. */
  lemma FullRenderStaysPending(s: AppState)
    requires s.needsFullRender
    ensures Worker(s).0.needsFullRender
  {
  }

  /** Likewise for the keys. */
  lemma FullRenderStaysPendingOnKeys(s: AppState, key: int, measured: real)
    requires s.needsFullRender
    ensures KeyPress(s, key, measured).0.needsFullRender
  {
  }

  /** Likewise for the buttons. */
  lemma FullRenderStaysPendingOnButtons(s: AppState, measured: real)
    requires s.needsFullRender
    ensures OnRun(s).needsFullRender && OnStep(s).needsFullRender && OnReset(s).needsFullRender
    ensures OnTimeRun(s, measured).needsFullRender
  {
  }

  /** Likewise for the scroll bars, which set it while the search runs. */
  lemma FullRenderStaysPendingOnScroll(s: AppState, oldPosition: int, newPosition: int)
    requires s.needsFullRender
    ensures HScroll(s, oldPosition, newPosition).needsFullRender
    ensures VScroll(s, oldPosition, newPosition).needsFullRender
  {
  }

  /** Likewise for opening a file. */
  lemma FullRenderStaysPendingOnOpen(s: AppState, result: LoadResult)
    requires s.needsFullRender
    requires result.Loaded? ==> result.tiles.Valid() && !result.tiles.IsEmpty()
    ensures OpenFile(s, result).needsFullRender
  {
  }

  /** `run_` flips the running flag and touches no other bit; toggling twice gives
      the flags back. Stopping checks the solution and starting repaints. */
  lemma RunToggleFlips(s: AppState)
    ensures var (r, stopped) := RunToggle(s);
            && (stopped <==> IsRunning(s))
            && (IsRunning(r) <==> !IsRunning(s))
            && r.flags & !SHOW_SEARCH_RUNNING == s.flags & !SHOW_SEARCH_RUNNING
            && (stopped ==> r.planner == CheckSolution(s.planner) && r.paints == s.paints)
            && (!stopped ==> r.planner == s.planner && r.paints == s.paints + [PaintAll])
            && r.view == s.view && r.needsFullRender == s.needsFullRender
  {
  }

  /** Toggling twice gives the flags back. */
  lemma RunToggleTwiceRestoresFlags(s: AppState)
    ensures RunToggle(RunToggle(s).0).0.flags == s.flags
  {
    ToggleRestores(s.flags);
  }

  /** The keyboard variants change the state exactly when their guard holds, and
      when they do they act as the matching button. */
  lemma KeyGuards(s: AppState, measured: real)
    ensures ResetByKey(s) != s <==> IsReady(s.planner)
    ensures StepByKey(s) != s <==> IsReady(s.planner)
    ensures TimeRunByKey(s, measured) != s <==> IsReady(s.planner)
    ensures RunByKey(s) != s <==> IsReady(s.planner) && ShouldEnableRun(s.planner)
    ensures ResetByKey(s) != s ==> ResetByKey(s) == OnReset(s)
    ensures StepByKey(s) != s ==> StepByKey(s) == OnStep(s)
    ensures TimeRunByKey(s, measured) != s ==> TimeRunByKey(s, measured) == OnTimeRun(s, measured)
    ensures RunByKey(s) != s ==> RunByKey(s) == OnRun(s)
  {
    if IsReady(s.planner) && ShouldEnableRun(s.planner) {
      RunToggleFlips(s);
    }
  }

  /** `onRun` toggles whatever the state of the search, even with no map. */
  lemma OnRunIsUnguarded(s: AppState)
    ensures IsRunning(OnRun(s)) <==> !IsRunning(s)
  {
    RunToggleFlips(s);
  }

  /** `onKeyPress` handles a key exactly when a map is drawn and the key is one of
      the six it knows; an unhandled key changes nothing. */
  lemma KeyPressHandled(s: AppState, key: int, measured: real)
    ensures var (r, handled) := KeyPress(s, key, measured);
            && (handled <==> s.view.tileMapWidth != 0 && s.view.tileMapHeight != 0
                             && key in {VK_BACK, VK_SPACE, VK_ADD, VK_TAB, KEY_S, KEY_G})
            && (!handled ==> r == s)
            && (key == KEY_S || key == KEY_G ==> r == s)
  {
  }

  /** After `step_` the run is stopped. An initializable search is entered and
      then gets one `update` with a budget of 0 unless the `enter` already
      finished it; a runnable search gets one such `update`; any other search
      gets no call. */
  lemma StepCalls(s: AppState)
    ensures var r := Step(s);
            var p := s.planner;
            var e := p.endpoints;
            && !IsRunning(r)
            && (IsInitializableByKey(p) && !InitializeSearch(SetTimedSearch(p, false)).search.done ==>
                  r.planner.search.calls == p.search.calls + [Enter(e.startRow, e.startColumn, e.goalRow, e.goalColumn), Update(0)])
            && (IsInitializableByKey(p) && InitializeSearch(SetTimedSearch(p, false)).search.done ==>
                  r.planner.search.calls == p.search.calls + [Enter(e.startRow, e.startColumn, e.goalRow, e.goalColumn)])
            && (IsRunnableByKey(p) ==> r.planner.search.calls == p.search.calls + [Update(0)])
            && (!IsInitializableByKey(p) && !IsRunnableByKey(p) ==> r.planner.search == p.search)
            && !IsInitializableByKey(r.planner)
  {
    var p := s.planner;
    if IsInitializableByKey(p) {
      var initialized := InitializeSearch(SetTimedSearch(p, false));
      InitializeSearchEntersIffNotTimed(SetTimedSearch(p, false));
      TickCountsIffNotDone(initialized, 0);
      CheckSolutionEffect(StepSearch(initialized));
    } else if IsRunnableByKey(p) {
      TickCountsIffNotDone(p, 0);
      CheckSolutionEffect(StepSearch(p));
    } else {
      CheckSolutionEffect(p);
    }
  }

  /** A reset by button or key leaves the run stopped and the search fresh, with
      an `exit` exactly when the search had been entered. */
  lemma ResetEffect(s: AppState)
    ensures var r := OnReset(s);
            && !IsRunning(r)
            && IsInitializableByKey(r.planner) && !r.planner.hasEntered && r.planner.tempSolution == []
            && r.planner == ResetSearch(s.planner)
            && r.paints == s.paints + [Invalidate]
  {
    ResetSearchLeavesFreshState(s.planner);
  }

  /** A timed run makes, after the `exit` of a search that had been entered,
      exactly the benchmark's round calls, and leaves the run stopped. */
  lemma TimeRunCalls(s: AppState, measured: real)
    ensures var r := TimeRun(s, measured);
            var p := s.planner;
            && !IsRunning(r)
            && r.planner.search.calls
               == ResetSearch(p).search.calls
                  + Benchmark.RoundCalls(p.parameters.numberOfRounds, p.endpoints, AsLong(p.parameters.fastTimeStep))
            && !r.planner.hasEntered
  {
    var reset := ResetSearch(s.planner);
    Benchmark.TimeSearchCalls(reset, measured);
    Benchmark.TimeSearchOutcome(reset, measured);
  }

  /** A moved scroll bar sets the offset to the negated position and asks for a
      full render while running or an invalidated grid otherwise; an unmoved one
      changes nothing. The planner and the flags are never touched. */
  lemma ScrollEffect(s: AppState, oldPosition: int, newPosition: int)
    ensures var r := HScroll(s, oldPosition, newPosition);
            && (oldPosition == newPosition ==> r == s)
            && (oldPosition != newPosition ==>
                  && r.view == s.view.(offsetX := -newPosition)
                  && (IsRunning(s) ==> r.needsFullRender && r.paints == s.paints)
                  && (!IsRunning(s) ==> r.needsFullRender == s.needsFullRender && r.paints == s.paints + [Invalidate]))
            && r.planner == s.planner && r.flags == s.flags
    ensures var r := VScroll(s, oldPosition, newPosition);
            && (oldPosition == newPosition ==> r == s)
            && (oldPosition != newPosition ==>
                  && r.view == s.view.(offsetY := -newPosition)
                  && (IsRunning(s) ==> r.needsFullRender && r.paints == s.paints)
                  && (!IsRunning(s) ==> r.needsFullRender == s.needsFullRender && r.paints == s.paints + [Invalidate]))
            && r.planner == s.planner && r.flags == s.flags
  {
  }

  /** After a loaded map the planner is ready, its endpoints are the corners of
      the new map and the algorithm was shut down and initialised in that order
      (after an `exit` if the search had been entered); after a failed load there
      is no map and the parameters are the defaults. Either way the run is
      stopped, the search is initializable, and the grid is scrolled back to the
      origin and invalidated. */
  lemma OpenFileEffect(s: AppState, result: LoadResult)
    requires result.Loaded? ==> result.tiles.Valid() && !result.tiles.IsEmpty()
    ensures var r := OpenFile(s, result);
            && (result.Unopened? ==> r == s)
            && (!result.Unopened? ==> !IsRunning(r) && IsInitializableByKey(r.planner) && !r.planner.hasEntered)
            && (result.Loaded? ==>
                  && IsReady(r.planner) && Valid(r.planner)
                  && r.planner.tileMap == result.tiles
                  && r.planner.endpoints == CornerEndpoints(result.tiles)
                  && r.planner.search.calls == ResetSearch(s.planner).search.calls + [Shutdown, Initialize])
            && (result.Unloadable? ==>
                  && !IsReady(r.planner) && Valid(r.planner)
                  && r.planner.endpoints == NoEndpoints && r.planner.parameters == DefaultParameters
                  && r.planner.faults == s.planner.faults + [InvalidFile]
                  && r.view.tileMapWidth == 0 && r.view.tileMapHeight == 0)
    ensures var r := OpenFile(s, result);
            !result.Unopened? ==>
              && r.view.offsetX == 0 && r.view.offsetY == 0
              && r.paints == s.paints + [Invalidate]
              && r.needsFullRender == s.needsFullRender
              && r.cannotCloseThreadHandle == s.cannotCloseThreadHandle
              && r.shouldStopThreadHandle == s.shouldStopThreadHandle
              && (result.Loaded? ==> r.view.tileMapWidth == result.width && r.view.tileMapHeight == result.height)
  {
  }
}
