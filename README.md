# PathSearch driver, modelled in Dafny

PathSearch is a Win32 application that loads a hexagonal tile map and drives a
path-search algorithm over it, showing its progress in a window. This project models
the sequential driver behind the window, from `Project/Application/PathSearchApp.cpp`
and `Project/Application/PathSearchApp.h`:

- **`PathSearchGlobals`** (`Flags.dfy`): the process-wide minimum tile radius and the
  flag word. `SHOW_SEARCH_RUNNING` is the flag that keeps the worker advancing the
  search. The class updates its fields in place; the bit operations are functions
  with their own properties.
- **The algorithm and the tile map** (`Algorithm.dfy`). They live in a library that
  is not part of this model. The algorithm is opaque. Every hook call (`initialize`,
  `enter`, `update`, `exit`, `shutdown`) is logged, and afterwards the algorithm
  shows the next scripted `(isDone, getSolution)` observation. Any behaviour of the
  real algorithm is therefore one choice of script.
- **The solution checker** (`Validator.dfy`): `checkSolution` and its copy inside
  `timeSearch`.
  - Each message box becomes a `Fault` value.
  - `Faults` is the specification.
  - `ValidateSolution` is the `while (--i)` loop, proved against it.
- **The planner `GroundUpPathSearch`**:
  - `Session.dfy`: its transitions as functions over a snapshot `Planner` of its
    fields, with their properties.
  - `Benchmark.dfy`: the timed benchmark `timeSearch`.
  - `GroundUp.dfy`: the class itself. Its methods update the fields in place, and
    each is proved to follow the matching transition.
- **The viewport culler `setBounds`** (`Culler.dfy`): a pure function. The C++
  truncating conversions and divisions are written out.
- **The application `PathSearchApp`**:
  - `Driver.dfy`: the worker-loop pass, the Run, Step, Reset and Time Run commands
    with their keyboard variants, `onKeyPress`, the end of the scroll handlers and
    `openFile_`, as transitions of one `AppState`.
  - `App.dfy`: the class that performs them in place on itself, the planner object
    and the globals object.

The planner's separate C++ fields are grouped into three records:

- `Endpoints`: `start_row_`, `start_column_`, `goal_row_`, `goal_column_`,
  `start_tile_`, `goal_tile_`.
- `Parameters`: `myTimeStep`, `myFastTimeStep`, `myNumberofRounds`.
- `Progress`: `elapsed_time_`, `iteration_count_`.

A method that assigns one of these fields replaces the record with one whose other
components are unchanged.

Tile pointers are compared by identity in the program. Here a tile is a value that
carries its own row and column, and a null pointer is `None`. Doubles are idealised
as exact reals. `sqrt(3.0)` is the exact value of the double it evaluates to.
`unsigned int` fields are integers in [0, 2^32). The conversions that happen when
they are stored and read back are written out: `AsUnsigned` for a scanned `int`
stored into one, `AsLong` for `static_cast<long>` with a 32-bit `long`, and
`Incremented` for `++` with wrap-around.

Where the code does something a reader might not expect, the model follows the code:

- `updateInput` does not reject a start equal to the goal (`Session.StartMayEqualGoal`).
- The endpoint items' clamp can never change an accepted value
  (`Session.UpdateInputEndpoints`).
- An empty edit is read as 0, because `_stscanf` returns EOF, which is non-zero.
- Items 4 to 6 store what was scanned even though `updateInput` then returns false.
- `mybTimeSearch` is never initialised by the constructor. The constructor's
  contract leaves it at whatever value it holds.
- The worker's initializable branch also checks the solution and renders in full
  (`PathSearchApp.cpp:1966-1973`). `timeRun_` does not check the solution afterwards.
- `timeSearch` reads `isDone()` after the last round's `exit`. It checks the solution
  read before that `exit`. Its time-out path calls `resetSearch`, which makes no
  `exit` because `mybHasEntered` is already false, and empties `tempSolution`.
- `updateStart`/`updateGoal` are not overridden by `GroundUpPathSearch`. The S and G
  keys are therefore handled but change nothing.

## Model

| member | source | states |
|---|---|---|
| Flags.TurnedOn | Project/Application/PathSearchApp.h:80-83 | `flags_ \|= flag` sets every bit of the flag and keeps every other bit |
| Flags.TurnedOff | Project/Application/PathSearchApp.h:85-88 | `flags_ &= ~flag` clears every bit of the flag and keeps every other bit |
| Flags.TurnOnOffIdempotent | Project/Application/PathSearchApp.h:80-88 | turning a flag on twice is the same as once; likewise off |
| Flags.ToggleRestores | Project/Application/PathSearchApp.h:80-88 | for the running flag, turning it on then off restores a word where it was off; off then on restores one where it was on |
| Flags.Globals.constructor | Project/Application/PathSearchApp.cpp:33 | the globals start with minimum radius 4.0 and no flag on |
| Flags.Globals.SetMinTileRadius | Project/Application/PathSearchApp.h:65-73 | `getMinTileRadius` afterwards returns the radius just set; the flags are untouched |
| Flags.Globals.TurnOn | Project/Application/PathSearchApp.h:75-83 | afterwards `isFlagOn(flag)` returns the whole flag, so a nonzero flag tests on; no other bit and not the radius changes |
| Flags.Globals.TurnOff | Project/Application/PathSearchApp.h:75-88 | afterwards `isFlagOn(flag)` returns 0; no other bit and not the radius changes |
| Algorithm.Hook | Project/Application/PathSearchApp.h:226 | a hook call on `search_` is recorded after all earlier calls and consumes one scripted observation |
| Algorithm.TileMap.Cleared | Project/Application/PathSearchApp.cpp:1447 | `reset()` leaves a well-formed map with no tiles |
| Validator.ValidateSolution | Project/Application/PathSearchApp.cpp:752-799 | the checking loop raises exactly the faults `Faults` specifies, in the same order |
| Validator.PairFaultsStep | Project/Application/PathSearchApp.cpp:775-792 | one turn of `while (--i)` moves pair `i` from the faults still to come to the faults raised |
| Validator.FaultsOfEmptySolution | Project/Application/PathSearchApp.cpp:794-799 | a done search with an empty solution raises exactly one empty-solution box |
| Validator.FaultsEndpointCounts | Project/Application/PathSearchApp.cpp:752-765 | a non-empty solution raises one start box exactly when its back is not the start tile and one goal box exactly when its front is not the goal tile, independently; never the empty-solution or time-out box |
| Validator.FaultsAdjacency | Project/Application/PathSearchApp.cpp:767-792 | a non-empty solution raises an adjacency box for pair `i` exactly when `1 <= i < size` and the squared centre distance of tiles `i - 1` and `i` lies outside `[(2r)^2 - 1e-5, (2r)^2 + 1e-5]` |
| Validator.PairFaultsSound | Project/Application/PathSearchApp.cpp:775-792 | every adjacency box names a non-adjacent pair the loop visits |
| Validator.PairFaultsComplete | Project/Application/PathSearchApp.cpp:775-792 | every non-adjacent pair the loop visits is named by a box |
| Validator.PairFaultsDescending | Project/Application/PathSearchApp.cpp:775-792 | the boxes come from the back of the solution to its front, each pair at most once |
| Validator.PairFaultsExact | Project/Application/PathSearchApp.cpp:775-792 | soundness, completeness and order together |
| Validator.PairFaultsOfAdjacentPairs | Project/Application/PathSearchApp.cpp:775-792 | a chain of neighbours raises no adjacency box |
| Validator.PairFaultsAreAdjacencyOnly | Project/Application/PathSearchApp.cpp:775-792 | the loop raises only adjacency boxes |
| Validator.CorrectSolutionPasses | Project/Application/PathSearchApp.cpp:747-802 | a solution from the goal tile to the start tile through neighbouring tiles raises nothing |
| Validator.TwoRadiiApartIsAdjacent | Project/Application/PathSearchApp.cpp:769-773 | centres exactly one diameter apart pass the adjacency band |
| Validator.ThreeRadiiApartIsNotAdjacent | Project/Application/PathSearchApp.cpp:769-773 | centres three radii apart fail it for any radius of at least 0.01 |
| Validator.Adjacent | Project/Application/PathSearchApp.cpp:767-773 | the adjacency band; `Validator.TwoRadiiApartIsAdjacent` and `Validator.ThreeRadiiApartIsNotAdjacent` show neighbours pass and non-neighbours fail |
| Validator.EndpointFaults | Project/Application/PathSearchApp.cpp:754-765 | the start and goal boxes (`Validator.FaultsEndpointCounts`) |
| Validator.PairFaults | Project/Application/PathSearchApp.cpp:775-792 | the adjacency boxes of the loop; `Validator.PairFaultsExact` characterises them independently of the recursion |
| Validator.Faults | Project/Application/PathSearchApp.cpp:752-799 | every box the checker raises, in order; `Validator.ValidateSolution` proves the loop raises exactly these |
| Culler.Truncate | Project/Application/PathSearchApp.cpp:70 | `static_cast<int>` of a double rounds toward zero |
| Culler.Quotient | Project/Application/PathSearchApp.cpp:70 | int `/` truncates toward zero for negative dividends too |
| Culler.HalfDown | Project/Application/PathSearchApp.cpp:71 | `>> 1` on an int is the floor of half |
| Culler.SetBounds | Project/Application/PathSearchApp.cpp:64-91 | the column start is never negative; the row end and column end never exceed the row and column counts; the row start is never negative when the grid is not scrolled below the top |
| Culler.UnscrolledSmallMap | Project/Application/PathSearchApp.cpp:64-91 | an unscrolled 10 by 10 map seen through 200 by 200 pixels gives rows and columns 0 to 10; the first row is 0 because -1 / 3 truncates toward zero |
| Culler.LargerAreaCoversMore | Project/Application/PathSearchApp.cpp:64-91 | a larger drawing area keeps the starts and never lowers the ends |
| Culler.RowEndMonotonic | Project/Application/PathSearchApp.cpp:78-83 | a taller area never ends the rows earlier |
| Culler.ColumnEndMonotonic | Project/Application/PathSearchApp.cpp:85-90 | a wider area never ends the columns earlier |
| Culler.RowStart | Project/Application/PathSearchApp.cpp:70 | the first row drawn; `Culler.SetBounds` states it is never negative when not scrolled below the top |
| Culler.ColumnStart | Project/Application/PathSearchApp.cpp:71-76 | the first column drawn, clamped at 0 (`Culler.SetBounds`) |
| Culler.RowEnd | Project/Application/PathSearchApp.cpp:78-83 | one past the last row drawn, at most the row count (`Culler.SetBounds`, `Culler.RowEndMonotonic`) |
| Culler.ColumnEnd | Project/Application/PathSearchApp.cpp:85-90 | one past the last column drawn, at most the column count (`Culler.SetBounds`, `Culler.ColumnEndMonotonic`) |
| Session.AsUnsigned | Project/Application/PathSearchApp.cpp:575-591 | a scanned `int` stored into an `unsigned int` is congruent to it modulo 2^32 and equal to it when in range |
| Session.AsLong | Project/Application/PathSearchApp.cpp:634-641 | `static_cast<long>` of an `unsigned int` is the 32-bit signed value congruent to it |
| Session.Incremented | Project/Application/PathSearchApp.cpp:634-650 | `++iteration_count_` adds one, wrapping to 0 only from 2^32 - 1 |
| Session.Constructed | Project/Application/PathSearchApp.cpp:293-299 | a new planner is valid, not entered, initializable, with zero iterations, no endpoint tiles, fast time step 5000 and one round |
| Session.SetTimedSearch | Project/Application/PathSearchApp.h:98 | `setTimedSearch` sets the timed flag and nothing else |
| Session.ResetParameters | Project/Application/PathSearchApp.cpp:306-312 | the endpoints are back at (0, 0) with null tiles, the time steps at 0 and 5000 and the rounds at 1; nothing else changes |
| Session.ShutdownSearch | Project/Application/PathSearchApp.cpp:314-317 | exactly one `shutdown` call and nothing else |
| Session.InitializeAlgorithm | Project/Application/PathSearchApp.cpp:337-340 | exactly one `initialize` call and nothing else |
| Session.CornerEndpoints | Project/Application/PathSearchApp.cpp:328-332 | the default endpoints of a non-empty map lie on it |
| Session.Read | Project/Application/PathSearchApp.cpp:319-335 | the start becomes the top-left tile and the goal the bottom-right tile, both on the map; nothing else changes |
| Session.IsReady | Project/Application/PathSearchApp.cpp:301-304 | `isReady`: a map with rows and columns is loaded; it guards every key command (`Driver.KeyGuards`) |
| Session.IsInitializableByKey | Project/Application/PathSearchApp.cpp:611-614 | `isInitializableByKey`: not initialised since the last reset; never together with `IsRunnableByKey` (`Session.GuardsExclusive`) |
| Session.IsRunnableByKey | Project/Application/PathSearchApp.cpp:629-632 | `isRunnableByKey`: initialised and the algorithm not done (`Session.GuardsExclusive`) |
| Session.ShouldEnableRun | Project/Application/PathSearchApp.cpp:257-267 | Run is enabled exactly when one of the two key guards holds (`Session.GuardsExclusive`) |
| Session.ShouldEnableTimeRun | Project/Application/PathSearchApp.cpp:652-655 | Time Run is enabled exactly when a map is loaded, as the override says |
| Session.NeedsFullRedraw | Project/Application/PathSearchApp.cpp:282-285 | the planner always asks for a full redraw, so a pending full render is never cleared (`Driver.FullRenderStaysPending`) |
| Session.ResetSearch | Project/Application/PathSearchApp.cpp:597-609 | the `resetSearch` transition; `Session.ResetSearchExitsIffEntered`, `Session.ResetSearchLeavesFreshState` and `Session.ResetSearchIdempotent` state its effect |
| Session.InitializeSearch | Project/Application/PathSearchApp.cpp:616-627 | the `initializeSearch` transition; `Session.InitializeSearchEntersIffNotTimed` states its effect |
| Session.Tick | Project/Application/PathSearchApp.cpp:634-650 | the shared body of `runSearch` and `stepSearch`; `Session.TickCountsIffNotDone` states its effect |
| Session.RunSearch | Project/Application/PathSearchApp.cpp:634-641 | `runSearch`: a tick with the regular time step (`Session.RunAndStepBudgets`) |
| Session.StepSearch | Project/Application/PathSearchApp.cpp:643-650 | `stepSearch`: a tick with a budget of 0 (`Session.RunAndStepBudgets`) |
| Session.CheckSolution | Project/Application/PathSearchApp.cpp:747-802 | the `checkSolution` transition; `Session.CheckSolutionEffect` states its effect |
| Session.UpdateInput | Project/Application/PathSearchApp.cpp:453-595 | the `updateInput` transition; `Session.UpdateInputEndpoints`, `Session.UpdateInputParameters`, `Session.UpdateInputPreservesValid` and `Session.ItemsBeyondInputCount` state its effect |
| Session.UpdateEndpoint | Project/Application/PathSearchApp.cpp:459-573 | the endpoint items 0 to 3; `Session.UpdateInputEndpoints` states when they accept and what they store |
| Session.UpdateParameter | Project/Application/PathSearchApp.cpp:575-591 | the parameter items 4 to 6; `Session.UpdateInputParameters` states what they store |
| Session.InputCount | Project/Application/PathSearchApp.cpp:342-345 | the parameter list has seven items; `Session.ItemsBeyondInputCount` states what the count means for `updateInput` |
| Session.ItemsBeyondInputCount | Project/Application/PathSearchApp.cpp:453-595 | an item outside the seven the list shows is refused by `updateInput` and changes nothing; each listed parameter item stores a converted value |
| Session.ResetSearchExitsIffEntered | Project/Application/PathSearchApp.cpp:597-609 | `resetSearch` calls `exit` once exactly when the search had been entered and makes no other call |
| Session.ResetSearchLeavesFreshState | Project/Application/PathSearchApp.cpp:597-609 | after a reset the search is initializable, not runnable, not entered, with zero counters and an empty `tempSolution`; endpoints, parameters, map and faults are kept |
| Session.ResetSearchIdempotent | Project/Application/PathSearchApp.cpp:597-609 | a second reset changes nothing and calls nothing |
| Session.GuardsExclusive | Project/Application/PathSearchApp.cpp:257-267 | the two key guards never hold together; Run is enabled exactly when the search is initializable or not done |
| Session.InitializeSearchEntersIffNotTimed | Project/Application/PathSearchApp.cpp:616-627 | `enter` with the current endpoints is called and the search marked entered exactly when the search is not timed; the counters are zeroed; afterwards the search is not initializable and is runnable exactly when not done |
| Session.TickCountsIffNotDone | Project/Application/PathSearchApp.cpp:634-650 | one `update` and one more iteration exactly when the algorithm is not done; otherwise nothing changes |
| Session.RunAndStepBudgets | Project/Application/PathSearchApp.cpp:634-650 | `runSearch` passes the regular time step and `stepSearch` passes 0 |
| Session.UpdateInputEndpoints | Project/Application/PathSearchApp.cpp:459-573 | an endpoint item is accepted exactly when it scanned, lies on the map and names a passable tile; the accepted coordinate is the value itself and the endpoint tile is refreshed; on rejection nothing changes |
| Session.UpdateInputParameters | Project/Application/PathSearchApp.cpp:575-594 | items 4 to 6 store a converted value into their parameter; every non-endpoint item returns false |
| Session.UpdateInputPreservesValid | Project/Application/PathSearchApp.cpp:453-595 | editing never moves an endpoint off the map |
| Session.StartMayEqualGoal | Project/Application/PathSearchApp.cpp:459-486 | moving the start onto the goal's passable tile is accepted |
| Session.EmptyTextMeansZero | Project/Application/PathSearchApp.cpp:461-467 | empty text sets the start row to 0 when that tile is passable |
| Session.CheckSolutionEffect | Project/Application/PathSearchApp.cpp:747-802 | a search that is not done is left alone; a done one gets `tempSolution` set to its solution and exactly the checker's faults appended; nothing else changes |
| Session.TransitionsPreserveValid | Project/Application/PathSearchApp.cpp:597-650 | the search transitions keep the endpoints on the map |
| Benchmark.RoundsCalls | Project/Application/PathSearchApp.cpp:670-676 | the round loop makes exactly `enter`, `update`, `exit` once per round, after the earlier calls |
| Benchmark.RoundCallsShape | Project/Application/PathSearchApp.cpp:670-676 | the calls are the triple enter, update, exit repeated, in that order, 3 calls per round |
| Benchmark.RoundCallsCounts | Project/Application/PathSearchApp.cpp:670-676 | exactly R enters, R updates and R exits, all from the same endpoints and with the fast time step |
| Benchmark.RoundsSolution | Project/Application/PathSearchApp.cpp:670-676 | `tempSolution` is what the last round read before its `exit`, and empty without rounds |
| Benchmark.TimeSearchCalls | Project/Application/PathSearchApp.cpp:658-745 | over the whole benchmark the algorithm sees exactly the round calls: no `enter` from the initialisation and no `exit` from the time-out reset |
| Benchmark.TimeSearchOutcome | Project/Application/PathSearchApp.cpp:658-745 | the search ends timed and not entered; if done, the last solution is checked and kept; if not, one time-out fault is raised and the search reset with `tempSolution` emptied |
| Benchmark.TimeSearchWithoutRounds | Project/Application/PathSearchApp.cpp:670-676 | with no rounds nothing is called and `tempSolution` is empty |
| Benchmark.Round | Project/Application/PathSearchApp.cpp:670-676 | one turn of the round loop: `enter`, `update` with the fast time step, the solution read, `exit` (`Benchmark.RoundCallsShape`) |
| Benchmark.Rounds | Project/Application/PathSearchApp.cpp:670-676 | the round loop; `Benchmark.RoundsCalls` and `Benchmark.RoundsSolution` state its calls and the solution it leaves, and `GroundUp.GroundUpPathSearch.RunRounds` performs it in place |
| Benchmark.RoundCalls | Project/Application/PathSearchApp.cpp:670-676 | an independent description of the calls of the rounds, which `Benchmark.RoundsCalls` and `Benchmark.RoundCallsCounts` relate to the loop |
| Benchmark.Prepared | Project/Application/PathSearchApp.cpp:663-668 | before the rounds: timed, initialised without an `enter`, no solution, marked as entered (`Benchmark.TimeSearchCalls`) |
| Benchmark.AfterRounds | Project/Application/PathSearchApp.cpp:670-676 | the planner after the rounds (`Benchmark.RoundsSolution`) |
| Benchmark.Concluded | Project/Application/PathSearchApp.cpp:678-745 | after the rounds: the done check, the solution check or the time-out and reset (`Benchmark.TimeSearchOutcome`) |
| Benchmark.TimeSearch | Project/Application/PathSearchApp.cpp:658-745 | the `timeSearch` transition; `Benchmark.TimeSearchCalls` and `Benchmark.TimeSearchOutcome` state its effect |
| GroundUp.GroundUpPathSearch.constructor | Project/Application/PathSearchApp.cpp:293-299 | the fields start as `Session.Constructed` says |
| GroundUp.GroundUpPathSearch.SetTimedSearch | Project/Application/PathSearchApp.h:98 | the fields change as `Session.SetTimedSearch` says |
| GroundUp.GroundUpPathSearch.ResetParameters | Project/Application/PathSearchApp.cpp:306-312 | the fields change as `Session.ResetParameters` says |
| GroundUp.GroundUpPathSearch.ShutdownSearch | Project/Application/PathSearchApp.cpp:314-317 | the fields change as `Session.ShutdownSearch` says |
| GroundUp.GroundUpPathSearch.Read | Project/Application/PathSearchApp.cpp:319-335 | `read` returns true and the fields change as `Session.Read` says |
| GroundUp.GroundUpPathSearch.Initialize | Project/Application/PathSearchApp.cpp:337-340 | the fields change as `Session.InitializeAlgorithm` says |
| GroundUp.GroundUpPathSearch.UpdateInput | Project/Application/PathSearchApp.cpp:453-595 | result and fields as `Session.UpdateInput` says; the endpoints stay on the map |
| GroundUp.GroundUpPathSearch.UpdateEndpoint | Project/Application/PathSearchApp.cpp:459-573 | the clamp as written, proved to give `Session.UpdateEndpoint` |
| GroundUp.GroundUpPathSearch.UpdateParameter | Project/Application/PathSearchApp.cpp:575-591 | the fields change as `Session.UpdateParameter` says |
| GroundUp.GroundUpPathSearch.ResetSearch | Project/Application/PathSearchApp.cpp:597-609 | the fields change as `Session.ResetSearch` says |
| GroundUp.GroundUpPathSearch.InitializeSearch | Project/Application/PathSearchApp.cpp:616-627 | the fields change as `Session.InitializeSearch` says |
| GroundUp.GroundUpPathSearch.RunSearch | Project/Application/PathSearchApp.cpp:634-641 | the fields change as `Session.RunSearch` says |
| GroundUp.GroundUpPathSearch.StepSearch | Project/Application/PathSearchApp.cpp:643-650 | the fields change as `Session.StepSearch` says |
| GroundUp.GroundUpPathSearch.TimeSearch | Project/Application/PathSearchApp.cpp:658-745 | the fields change as `Benchmark.TimeSearch` says |
| GroundUp.GroundUpPathSearch.RunRounds | Project/Application/PathSearchApp.cpp:670-676 | the round loop, proved by its invariant to give `Benchmark.AfterRounds` |
| GroundUp.GroundUpPathSearch.CheckSolution | Project/Application/PathSearchApp.cpp:747-802 | the fields change as `Session.CheckSolution` says |
| Driver.Started | Project/Application/PathSearchApp.cpp:1214-1220 | the application starts with no map drawn, the worker allowed to run, no stop request and no full render pending |
| Driver.Stopped | Project/Application/PathSearchApp.h:85-88 | turning the running flag off stops the run and changes nothing else |
| Driver.RenderFull | Project/Application/PathSearchApp.cpp:1904-1919 | `renderFull_` repaints everything and leaves a full render pending, since `needsFullRedraw` is true; nothing else changes |
| Driver.Invalidated | Project/Application/PathSearchApp.cpp:2007 | invalidating the grid only asks for a repaint |
| Driver.WorkerStopsOrIdles | Project/Application/PathSearchApp.cpp:1926-1991 | a stop request ends the loop and clears only `cannot_close_thread_handle_`; a stopped run changes nothing |
| Driver.WorkerRunsRunnable | Project/Application/PathSearchApp.cpp:1943-1965 | a running, runnable search gets exactly one `update` with the regular time step, then a full render if one is pending, or otherwise a begin/end redraw around the update |
| Driver.WorkerInitializes | Project/Application/PathSearchApp.cpp:1966-1973 | a running, initializable search is made untimed and initialised, so it is entered with the current endpoints; its solution is then checked (`CheckSolution` of the initialised planner, so a done search keeps its solution in `tempSolution`), and the grid is fully rendered |
| Driver.WorkerStopsDone | Project/Application/PathSearchApp.cpp:1974-1982 | a running search that is neither runnable nor initializable has its run stopped and its solution checked, with no algorithm call |
| Driver.FullRenderStaysPending | Project/Application/PathSearchApp.cpp:1918 | no worker pass clears a pending full render |
| Driver.FullRenderStaysPendingOnKeys | Project/Application/PathSearchApp.cpp:2224-2269 | no key press clears a pending full render |
| Driver.FullRenderStaysPendingOnButtons | Project/Application/PathSearchApp.cpp:1994-2206 | no button command clears a pending full render |
| Driver.FullRenderStaysPendingOnScroll | Project/Application/PathSearchApp.cpp:2495-2510 | no scroll clears a pending full render |
| Driver.FullRenderStaysPendingOnOpen | Project/Application/PathSearchApp.cpp:1384-1465 | opening a file does not clear a pending full render |
| Driver.RunToggleFlips | Project/Application/PathSearchApp.cpp:2056-2086 | `run_` flips the running flag and touches no other bit; it returns true exactly when it stopped the run, which also checks the solution; starting repaints everything |
| Driver.RunToggleTwiceRestoresFlags | Project/Application/PathSearchApp.cpp:2056-2086 | toggling twice gives the flag word back |
| Driver.OnRunIsUnguarded | Project/Application/PathSearchApp.cpp:2088-2107 | the Run button toggles whatever state the search is in |
| Driver.KeyGuards | Project/Application/PathSearchApp.cpp:2010-2222 | each keyboard variant changes the state exactly when its guard holds (`isReady`, and for Run also one of the two key guards), and when it does it acts as the matching button |
| Driver.KeyPressHandled | Project/Application/PathSearchApp.cpp:2224-2269 | a key is handled exactly when a map is drawn and the key is Backspace, Space, keypad plus, Tab, S or G; an unhandled key, S and G change nothing |
| Driver.StepCalls | Project/Application/PathSearchApp.cpp:2140-2159 | `step_` stops the run; an initializable search gets `enter` and then `update(0)`, or `enter` alone when the `enter` finished it; a runnable one gets `update(0)`; any other search gets no call; afterwards the search is not initializable |
| Driver.ResetEffect | Project/Application/PathSearchApp.cpp:1994-2008 | Reset stops the run, resets the search and invalidates the grid |
| Driver.TimeRunCalls | Project/Application/PathSearchApp.cpp:2185-2198 | a timed run stops the run, resets the search and then makes exactly the benchmark's round calls, ending not entered |
| Driver.ScrollEffect | Project/Application/PathSearchApp.cpp:2495-2510 | a moved scroll bar sets the offset to the negated position and then asks for a full render while running or an invalidated grid otherwise; an unmoved one changes nothing; the planner and flags are never touched |
| Driver.OpenFileEffect | Project/Application/PathSearchApp.cpp:1384-1465 | an unopened file changes nothing; a loaded map is ready, with corner endpoints and its pixel size, after `shutdown` and `initialize` calls; a failed load leaves no map, default parameters and one "Invalid file." fault; either way the run is stopped, the search initializable, the scroll offset back at the origin and the grid invalidated |
| Driver.Worker | Project/Application/PathSearchApp.cpp:1926-1991 | one pass of the worker loop; `Driver.WorkerStopsOrIdles`, `Driver.WorkerRunsRunnable`, `Driver.WorkerInitializes` and `Driver.WorkerStopsDone` state each branch |
| Driver.Reset | Project/Application/PathSearchApp.cpp:1994-2000 | `reset_`; `Driver.ResetEffect` states its effect |
| Driver.OnReset | Project/Application/PathSearchApp.cpp:2002-2008 | `onReset`; `Driver.ResetEffect` states its effect |
| Driver.ResetByKey | Project/Application/PathSearchApp.cpp:2010-2024 | `resetByKey_`; `Driver.KeyGuards` states when it acts |
| Driver.RunToggle | Project/Application/PathSearchApp.cpp:2056-2086 | `run_`; `Driver.RunToggleFlips` and `Driver.RunToggleTwiceRestoresFlags` state its effect |
| Driver.OnRun | Project/Application/PathSearchApp.cpp:2088-2107 | `onRun`; `Driver.OnRunIsUnguarded` states it acts in every state |
| Driver.RunByKey | Project/Application/PathSearchApp.cpp:2109-2138 | `runByKey_`; `Driver.KeyGuards` states when it acts |
| Driver.Step | Project/Application/PathSearchApp.cpp:2140-2159 | `step_`; `Driver.StepCalls` states its effect |
| Driver.Stepped | Project/Application/PathSearchApp.cpp:2144-2154 | the planner part of `step_` (`Driver.StepCalls`) |
| Driver.OnStep | Project/Application/PathSearchApp.cpp:2161-2167 | `onStep`: `step_` then an invalidated grid (`Driver.FullRenderStaysPendingOnButtons`) |
| Driver.StepByKey | Project/Application/PathSearchApp.cpp:2169-2183 | `stepByKey_`; `Driver.KeyGuards` states when it acts |
| Driver.TimeRun | Project/Application/PathSearchApp.cpp:2185-2198 | `timeRun_`; `Driver.TimeRunCalls` states its calls |
| Driver.OnTimeRun | Project/Application/PathSearchApp.cpp:2200-2206 | `onTimeRun`: `timeRun_` then an invalidated grid |
| Driver.TimeRunByKey | Project/Application/PathSearchApp.cpp:2208-2222 | `timeRunByKey_`; `Driver.KeyGuards` states when it acts |
| Driver.KeyPress | Project/Application/PathSearchApp.cpp:2224-2269 | `onKeyPress`; `Driver.KeyPressHandled` states which keys it handles |
| Driver.Rescrolled | Project/Application/PathSearchApp.cpp:2500-2509 | what a moved scroll bar asks for (`Driver.ScrollEffect`) |
| Driver.HScroll | Project/Application/PathSearchApp.cpp:2495-2510 | the end of `onHScroll` (`Driver.ScrollEffect`) |
| Driver.VScroll | Project/Application/PathSearchApp.cpp:2556-2571 | the end of `onVScroll` (`Driver.ScrollEffect`) |
| Driver.OpenFile | Project/Application/PathSearchApp.cpp:1384-1465 | `openFile_`; `Driver.OpenFileEffect` states its effect |
| Driver.TileGridUpdated | Project/Application/PathSearchApp.cpp:1361-1382 | `updateTileGrid_` puts the scroll offset back at the origin and invalidates the grid, keeping the map size and everything else |
| App.PathSearchApp.constructor | Project/Application/PathSearchApp.cpp:1191-1251 | a fresh planner around the empty map and the state `Driver.Started` |
| App.PathSearchApp.RenderFull | Project/Application/PathSearchApp.cpp:1904-1919 | the objects change as `Driver.RenderFull` says |
| App.PathSearchApp.Worker | Project/Application/PathSearchApp.cpp:1926-1991 | the objects change as `Driver.Worker` says; the minimum tile radius is kept |
| App.PathSearchApp.Reset | Project/Application/PathSearchApp.cpp:1994-2000 | the objects change as `Driver.Reset` says; the minimum tile radius is kept |
| App.PathSearchApp.OnReset | Project/Application/PathSearchApp.cpp:2002-2008 | the objects change as `Driver.OnReset` says; the minimum tile radius is kept |
| App.PathSearchApp.ResetByKey | Project/Application/PathSearchApp.cpp:2010-2024 | the objects change as `Driver.ResetByKey` says; the minimum tile radius is kept |
| App.PathSearchApp.RunToggle | Project/Application/PathSearchApp.cpp:2056-2086 | the objects change as `Driver.RunToggle` says; the minimum tile radius is kept |
| App.PathSearchApp.OnRun | Project/Application/PathSearchApp.cpp:2088-2107 | the objects change as `Driver.OnRun` says; the minimum tile radius is kept |
| App.PathSearchApp.RunByKey | Project/Application/PathSearchApp.cpp:2109-2138 | the objects change as `Driver.RunByKey` says; the minimum tile radius is kept |
| App.PathSearchApp.Step | Project/Application/PathSearchApp.cpp:2140-2159 | the objects change as `Driver.Step` says; the minimum tile radius is kept |
| App.PathSearchApp.StepPlanner | Project/Application/PathSearchApp.cpp:2144-2154 | the planner changes as `Driver.Stepped` says |
| App.PathSearchApp.OnStep | Project/Application/PathSearchApp.cpp:2161-2167 | the objects change as `Driver.OnStep` says; the minimum tile radius is kept |
| App.PathSearchApp.StepByKey | Project/Application/PathSearchApp.cpp:2169-2183 | the objects change as `Driver.StepByKey` says; the minimum tile radius is kept |
| App.PathSearchApp.TimeRun | Project/Application/PathSearchApp.cpp:2185-2198 | the objects change as `Driver.TimeRun` says; the minimum tile radius is kept |
| App.PathSearchApp.OnTimeRun | Project/Application/PathSearchApp.cpp:2200-2206 | the objects change as `Driver.OnTimeRun` says; the minimum tile radius is kept |
| App.PathSearchApp.TimeRunByKey | Project/Application/PathSearchApp.cpp:2208-2222 | the objects change as `Driver.TimeRunByKey` says; the minimum tile radius is kept |
| App.PathSearchApp.KeyPress | Project/Application/PathSearchApp.cpp:2224-2269 | result and objects as `Driver.KeyPress` says; the minimum tile radius is kept |
| App.PathSearchApp.HScroll | Project/Application/PathSearchApp.cpp:2495-2510 | the objects change as `Driver.HScroll` says |
| App.PathSearchApp.VScroll | Project/Application/PathSearchApp.cpp:2556-2571 | the objects change as `Driver.VScroll` says |
| App.PathSearchApp.Rescroll | Project/Application/PathSearchApp.cpp:2500-2509 | the objects change as `Driver.Rescrolled` says |
| App.PathSearchApp.Invalidate | Project/Application/PathSearchApp.cpp:2007 | the objects change as `Driver.Invalidated` says |
| App.PathSearchApp.OpenFile | Project/Application/PathSearchApp.cpp:1384-1465 | the objects change as `Driver.OpenFile` says; the minimum tile radius is kept |
| App.PathSearchApp.UpdateTileGrid | Project/Application/PathSearchApp.cpp:1361-1382 | the objects change as `Driver.TileGridUpdated` says |

## Left out

- Win32 user interface:
  - window, button and list-view creation, and message routing;
  - `displayInput` and the parameter list view;
  - enabling buttons and swapping icons (`showRunStopped_`, `updateRunButtons_`, `updateButtons_`, the pause icon).
- GDI painting: `drawGrid`, `displaySearchProgress`, the double buffering and `BitBlt` calls. A step records only the `Paint` actions it asks for, and `needs_full_render_`.
- `resetTileDrawing`, which only concerns drawing, is not modelled as part of `resetSearch`.
- Concurrency: the two locks, the worker thread and its `Sleep(25)` cadence, the destructor's polling loop and the `volatile` qualifiers. Each locked section is one atomic step. The worker's `for (;;)` loop is modelled one pass at a time (`Driver.Worker`).
- Timing: `QueryPerformanceCounter` and `QueryPerformanceFrequency`, and the printed average, which divides by the round count. The measured time is a parameter of `timeSearch`.
- The search algorithm and `TileMap`/`Tile` are not part of this model; the algorithm is a scripted observer (see above).
- File input: reading the file and `load()`. The result of opening and loading is a parameter of `openFile_`.
- The radius computation in `openFile_` ("VISUAL HACK") and the pixel size of the map: floating point. The loaded map comes with its radius and its pixel size as inputs.
- `Driver.OpenFile` requires a loaded map to be non-empty, because `read` on an empty map would ask for tile (-1, -1), which the tile map (not part of this model) leaves undefined.
- Text scanning: `_stscanf` is a library call. Its outcome is a parameter (`Scan`), and an overflow inside it is not modelled.
- The scroll-bar clamping inside `SetScrollInfo`/`GetScrollInfo`: the positions before and after are parameters.
- The singletons `getInstance`/`deleteInstance` are replaced by explicit objects.
- `OVERRIDE_DEFAULT_STARTING_DATA`: the build without it is modelled.
- `Project/platform.h` holds macros only and is not part of this model.
- Doubles are exact reals, so rounding in the adjacency test and in `setBounds` is not modelled.
