/** `timeSearch`, the timed benchmark: the search is run from scratch a number of
    rounds in a row, each round entering, updating once with the fast time step
    and exiting, and the last round's solution is then checked. The clock is not
    modelled: the measured time is a parameter. */
module Benchmark {
  import opened Algorithm
  import opened Validator
  import opened Session

  /** One round: `enter` from the endpoints, one `update` with `budget`, the
      solution read back, `exit`. */
  function Round(a: PathSearch, e: Endpoints, budget: int): (PathSearch, seq<Tile>)
  {
    var updated := Hook(Hook(a, EnterCall(e)), Update(budget));
    (Hook(updated, Exit), updated.solution)
  }

  /** `n` rounds from `a`: the algorithm afterwards and the solution read in the
      last round (none when there were no rounds). */
  function Rounds(a: PathSearch, n: nat, e: Endpoints, budget: int): (PathSearch, seq<Tile>)
  {
    if n == 0 then (a, [])
    else Round(Rounds(a, n - 1, e, budget).0, e, budget)
  }

  /** The calls `n` rounds make, as an independent description: the triple
      enter, update, exit, `n` times. */
  function RoundCalls(n: nat, e: Endpoints, budget: int): seq<Call>
  {
    if n == 0 then []
    else RoundCalls(n - 1, e, budget)
         + [EnterCall(e), Update(budget), Exit]
  }

  /** `timeSearch`, with `measured` standing for the clock reading it stores: the
      preparation, the rounds and the check of their outcome. */
  function TimeSearch(p: Planner, measured: real): Planner
  {
    Concluded(AfterRounds(Prepared(p)), measured)
  }

  /** Before the rounds: timed, initialised (which then makes no `enter`), no
      solution yet and marked as entered. */
  function Prepared(p: Planner): Planner
  {
    InitializeSearch(p.(timedSearch := true)).(tempSolution := [], hasEntered := true)
  }

  /** The rounds, with the fast time step: the algorithm's calls and the solution
      read in the last round (empty when there were none). */
  function AfterRounds(p: Planner): Planner
  {
    var rounds := Rounds(p.search, p.parameters.numberOfRounds, p.endpoints, AsLong(p.parameters.fastTimeStep));
    p.(search := rounds.0, tempSolution := if p.parameters.numberOfRounds == 0 then p.tempSolution else rounds.1)
  }

  /** After the rounds: no longer entered, the measured time stored; then the
      solution of a done algorithm is checked, and otherwise a time-out is raised
      and the search reset. */
  function Concluded(p: Planner, measured: real): Planner
  {
    var ran := p.(hasEntered := false, progress := p.progress.(elapsedTime := measured));
    if ran.search.done then
      ran.(faults := ran.faults + FaultsOf(ran, ran.tempSolution))
    else
      ResetSearch(ran.(faults := ran.faults + [Timeout]))
  }

  // ---------------------------------------------------------------------------
  // Properties

  /** The rounds make exactly the calls `RoundCalls` describes, after the calls
      made before them. */
  lemma {:induction false} RoundsCalls(a: PathSearch, n: nat, e: Endpoints, budget: int)
    ensures Rounds(a, n, e, budget).0.calls
            == a.calls + RoundCalls(n, e, budget)
  {
    if n > 0 {
      RoundsCalls(a, n - 1, e, budget);
      var before := Rounds(a, n - 1, e, budget).0;
      var earlier := RoundCalls(n - 1, e, budget);
      var triple := [EnterCall(e), Update(budget), Exit];
      assert Rounds(a, n, e, budget).0.calls == before.calls + triple;
      assert a.calls + earlier + triple == a.calls + (earlier + triple);
    }
  }

  /** The round calls are the triple enter, update, exit repeated: call `k` is
      the `k % 3`-th element of the triple. */
  lemma {:induction false} RoundCallsShape(n: nat, e: Endpoints, budget: int)
    ensures var calls := RoundCalls(n, e, budget);
            && |calls| == 3 * n
            && forall k :: 0 <= k < |calls| ==>
                 calls[k] == [EnterCall(e), Update(budget), Exit][k % 3]
  {
    if n > 0 {
      RoundCallsShape(n - 1, e, budget);
      var earlier := RoundCalls(n - 1, e, budget);
      var triple := [EnterCall(e), Update(budget), Exit];
      var calls := RoundCalls(n, e, budget);
      assert calls == earlier + triple;
      forall k | 0 <= k < |calls|
        ensures calls[k] == triple[k % 3]
      {
        if k >= |earlier| {
          assert k - 3 * (n - 1) == k % 3;
        }
      }
    }
  }

  /** Exactly `n` of the round calls are `enter`, `n` are `update` and `n` are `exit`. */
  lemma {:induction false} RoundCallsCounts(n: nat, e: Endpoints, budget: int)
    ensures var calls := multiset(RoundCalls(n, e, budget));
            && calls[EnterCall(e)] == n
            && calls[Update(budget)] == n
            && calls[Exit] == n
            && |calls| == 3 * n
  {
    if n > 0 {
      RoundCallsCounts(n - 1, e, budget);
      var earlier := RoundCalls(n - 1, e, budget);
      var triple := [EnterCall(e), Update(budget), Exit];
      assert multiset(earlier + triple) == multiset(earlier) + multiset(triple);
    }
  }

  /** The solution left behind is the one read in the last round; without rounds
      there is none. */
  lemma RoundsSolution(a: PathSearch, n: nat, e: Endpoints, budget: int)
    ensures n == 0 ==> Rounds(a, n, e, budget) == (a, [])
    ensures n > 0 ==>
              var before := Rounds(a, n - 1, e, budget).0;
              Rounds(a, n, e, budget).1
                == Hook(Hook(before, EnterCall(e)), Update(budget)).solution
  {
  }

  /** Over the whole benchmark the algorithm sees exactly the round calls: the
      initialisation makes no `enter` because the timed flag is set first, and the
      reset after a time-out makes no `exit` because the search is no longer
      marked as entered. */
  lemma TimeSearchCalls(p: Planner, measured: real)
    ensures TimeSearch(p, measured).search.calls
            == p.search.calls + RoundCalls(p.parameters.numberOfRounds, p.endpoints, AsLong(p.parameters.fastTimeStep))
  {
    var initialized := InitializeSearch(p.(timedSearch := true));
    assert initialized.search == p.search;
    RoundsCalls(p.search, p.parameters.numberOfRounds, p.endpoints, AsLong(p.parameters.fastTimeStep));
  }

  /** How the benchmark ends. The search is no longer entered, timed and with the
      measured time. If the algorithm is done the last round's solution stays in
      `tempSolution`, the search is not initializable and the checker's faults for
      that solution are raised. Otherwise a single time-out fault is raised and
      the search is reset, which empties `tempSolution`. */
  lemma TimeSearchOutcome(p: Planner, measured: real)
    ensures var r := TimeSearch(p, measured);
            var rounds := Rounds(p.search, p.parameters.numberOfRounds, p.endpoints, AsLong(p.parameters.fastTimeStep));
            && !r.hasEntered && r.timedSearch
            && r.search == rounds.0
            && r.progress.iterationCount == 0
            && (rounds.0.done ==>
                  && r.tempSolution == rounds.1
                  && r.progress.elapsedTime == measured
                  && !r.isInitializable
                  && r.faults == p.faults + FaultsOf(p, rounds.1))
            && (!rounds.0.done ==>
                  && r.tempSolution == []
                  && r.progress.elapsedTime == 0.0
                  && r.isInitializable
                  && r.faults == p.faults + [Timeout])
            && r.endpoints == p.endpoints && r.parameters == p.parameters
            && r.tileMap == p.tileMap
  {
  }

  /** Without rounds nothing is called and no solution is left to check. */
  lemma TimeSearchWithoutRounds(p: Planner, measured: real)
    requires p.parameters.numberOfRounds == 0
    ensures TimeSearch(p, measured).search.calls == p.search.calls
    ensures TimeSearch(p, measured).tempSolution == []
  {
  }
}
