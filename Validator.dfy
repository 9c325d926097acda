/** The solution checker of `GroundUpPathSearch` (`checkSolution`, and its copy
    inside `timeSearch`). Each message box it would raise is a `Fault` value here;
    the checker never changes the algorithm. */
module Validator {
  import opened Algorithm

  /** One message box of the solution checker, the benchmark's time-out box and the
      application's "Invalid file." box. `NotAdjacent(i)` is raised for the
      consecutive pair at indexes `i - 1` and `i`. */
  datatype Fault =
    | StartMismatch
    | GoalMismatch
    | NotAdjacent(pair: nat)
    | EmptySolution
    | Timeout
    | InvalidFile

  /** Half-width of the band around (2r)^2 that a squared centre distance must fall in. */
  const Tolerance: real := 0.00001

  function SquaredDistance(a: Tile, b: Tile): real
  {
    (a.x - b.x) * (a.x - b.x) + (a.y - b.y) * (a.y - b.y)
  }

  /** The square of a hexagon's diameter, the squared distance between the
      centres of two neighbouring hexagons. */
  function SquaredDiameter(radius: real): real
  {
    (radius * 2.0) * (radius * 2.0)
  }

  /** Two hexagons of radius `radius` are neighbours when their centres are
      `2 * radius` apart, up to the tolerance on the squared distance. */
  predicate Adjacent(a: Tile, b: Tile, radius: real)
  {
    SquaredDiameter(radius) - Tolerance <= SquaredDistance(a, b) <= SquaredDiameter(radius) + Tolerance
  }

  /** The adjacency faults for the pairs ending at indexes `k`, `k - 1`, ..., 1,
      in the order the checker's loop visits them. */
  function PairFaults(solution: seq<Tile>, radius: real, k: nat): seq<Fault>
    requires k < |solution|
  {
    if k == 0 then []
    else
      (if Adjacent(solution[k - 1], solution[k], radius) then [] else [NotAdjacent(k)])
      + PairFaults(solution, radius, k - 1)
  }

  /** Every fault that checking a finished search's `solution` raises, in order.
      The solution runs from the goal (front) to the start (back). */
  function Faults(solution: seq<Tile>, startTile: Option<Tile>, goalTile: Option<Tile>, radius: real): seq<Fault>
  {
    if |solution| == 0 then [EmptySolution]
    else EndpointFaults(solution, startTile, goalTile) + PairFaults(solution, radius, |solution| - 1)
  }

  /** The two endpoint boxes: the back must be the start tile, the front the goal tile. */
  function EndpointFaults(solution: seq<Tile>, startTile: Option<Tile>, goalTile: Option<Tile>): seq<Fault>
    requires solution != []
  {
    (if Some(solution[|solution| - 1]) != startTile then [StartMismatch] else [])
    + (if Some(solution[0]) != goalTile then [GoalMismatch] else [])
  }

  predicate IsPairFault(f: Fault, solution: seq<Tile>, radius: real, k: nat)
    requires k < |solution|
  {
    f.NotAdjacent? && 1 <= f.pair <= k && !Adjacent(solution[f.pair - 1], solution[f.pair], radius)
  }

  /** The faults name pairs in strictly decreasing order, from the back of the
      solution towards its front. */
  predicate Descending(faults: seq<Fault>)
  {
    forall j, j' :: 0 <= j < j' < |faults| ==> NamesLaterPair(faults[j], faults[j'])
  }

  /** Both faults are adjacency faults and the first names the later pair. */
  predicate NamesLaterPair(f: Fault, g: Fault)
  {
    f.NotAdjacent? && g.NotAdjacent? && f.pair > g.pair
  }

  /** Each adjacency fault names a non-adjacent pair at or below `k`. */
  lemma {:induction false} PairFaultsSound(solution: seq<Tile>, radius: real, k: nat)
    requires k < |solution|
    ensures forall f :: f in PairFaults(solution, radius, k) ==> IsPairFault(f, solution, radius, k)
  {
    if k > 0 {
      PairFaultsSound(solution, radius, k - 1);
    }
  }

  /** Each non-adjacent pair at or below `k` is named by an adjacency fault. */
  lemma {:induction false} PairFaultsComplete(solution: seq<Tile>, radius: real, k: nat)
    requires k < |solution|
    ensures forall i :: 1 <= i <= k && !Adjacent(solution[i - 1], solution[i], radius) ==>
              NotAdjacent(i) in PairFaults(solution, radius, k)
  {
    if k > 0 {
      PairFaultsComplete(solution, radius, k - 1);
    }
  }

  /** The adjacency faults come in strictly decreasing pair order, so no pair is
      named twice. */
  lemma {:induction false} PairFaultsDescending(solution: seq<Tile>, radius: real, k: nat)
    requires k < |solution|
    ensures Descending(PairFaults(solution, radius, k))
  {
    if k > 0 {
      PairFaultsDescending(solution, radius, k - 1);
      PairFaultsSound(solution, radius, k - 1);
      var rest := PairFaults(solution, radius, k - 1);
      var step: seq<Fault> := if Adjacent(solution[k - 1], solution[k], radius) then [] else [NotAdjacent(k)];
      var all := PairFaults(solution, radius, k);
      assert all == step + rest;
      forall j, j' | 0 <= j < j' < |all|
        ensures NamesLaterPair(all[j], all[j'])
      {
        var r' := j' - |step|;
        assert all[j'] == rest[r'];
        assert IsPairFault(rest[r'], solution, radius, k - 1) by { assert rest[r'] in rest; }
        if j >= |step| {
          assert all[j] == rest[j - |step|];
          assert NamesLaterPair(rest[j - |step|], rest[r']);
        } else {
          assert all[j] == NotAdjacent(k);
        }
      }
    }
  }

  /** The three facts together: the adjacency faults are exactly one per
      non-adjacent pair. */
  lemma PairFaultsExact(solution: seq<Tile>, radius: real, k: nat)
    requires k < |solution|
    ensures forall f :: f in PairFaults(solution, radius, k) ==> IsPairFault(f, solution, radius, k)
    ensures forall i :: 1 <= i <= k && !Adjacent(solution[i - 1], solution[i], radius) ==>
              NotAdjacent(i) in PairFaults(solution, radius, k)
    ensures Descending(PairFaults(solution, radius, k))
  {
    PairFaultsSound(solution, radius, k);
    PairFaultsComplete(solution, radius, k);
    PairFaultsDescending(solution, radius, k);
  }

  /** When every consecutive pair up to `k` is adjacent the loop raises nothing. */
  lemma {:induction false} PairFaultsOfAdjacentPairs(solution: seq<Tile>, radius: real, k: nat)
    requires k < |solution|
    requires forall i :: 1 <= i <= k ==> Adjacent(solution[i - 1], solution[i], radius)
    ensures PairFaults(solution, radius, k) == []
  {
    if k > 0 {
      PairFaultsOfAdjacentPairs(solution, radius, k - 1);
    }
  }

  /** An empty solution raises the empty-solution box and nothing else. */
  lemma FaultsOfEmptySolution(startTile: Option<Tile>, goalTile: Option<Tile>, radius: real)
    ensures Faults([], startTile, goalTile, radius) == [EmptySolution]
  {
  }

  /** Only the adjacency loop contributes to the faults of a non-empty solution
      beyond its endpoint boxes. */
  lemma PairFaultsAreAdjacencyOnly(solution: seq<Tile>, radius: real, k: nat)
    requires k < |solution|
    ensures forall f :: f in PairFaults(solution, radius, k) ==> f.NotAdjacent?
  {
    PairFaultsSound(solution, radius, k);
  }

  /** For a non-empty solution the endpoint boxes are independent of each other
      and of the adjacency boxes: one start box exactly when the back is not the
      start tile, one goal box exactly when the front is not the goal tile, never
      the empty-solution box. */
  lemma FaultsEndpointCounts(solution: seq<Tile>, startTile: Option<Tile>, goalTile: Option<Tile>, radius: real)
    requires solution != []
    ensures EmptySolution !in Faults(solution, startTile, goalTile, radius)
    ensures Timeout !in Faults(solution, startTile, goalTile, radius)
    ensures multiset(Faults(solution, startTile, goalTile, radius))[StartMismatch]
              == if Some(solution[|solution| - 1]) != startTile then 1 else 0
    ensures multiset(Faults(solution, startTile, goalTile, radius))[GoalMismatch]
              == if Some(solution[0]) != goalTile then 1 else 0
  {
    var pairs := PairFaults(solution, radius, |solution| - 1);
    var start: seq<Fault> := if Some(solution[|solution| - 1]) != startTile then [StartMismatch] else [];
    var goal: seq<Fault> := if Some(solution[0]) != goalTile then [GoalMismatch] else [];
    assert EndpointFaults(solution, startTile, goalTile) == start + goal;
    PairFaultsAreAdjacencyOnly(solution, radius, |solution| - 1);
    assert StartMismatch !in pairs && GoalMismatch !in pairs && EmptySolution !in pairs && Timeout !in pairs;
    assert multiset(pairs)[StartMismatch] == 0 && multiset(pairs)[GoalMismatch] == 0;
    assert multiset(start + goal + pairs) == multiset(start) + multiset(goal) + multiset(pairs);
  }

  /** A non-empty solution raises an adjacency box for pair `i` exactly when the
      tiles at `i - 1` and `i` are not neighbours. */
  lemma FaultsAdjacency(solution: seq<Tile>, startTile: Option<Tile>, goalTile: Option<Tile>, radius: real)
    requires solution != []
    ensures forall i: nat :: (NotAdjacent(i) in Faults(solution, startTile, goalTile, radius)) <==>
              1 <= i < |solution| && !Adjacent(solution[i - 1], solution[i], radius)
  {
    var k := |solution| - 1;
    PairFaultsExact(solution, radius, k);
    var pairs := PairFaults(solution, radius, k);
    var start: seq<Fault> := if Some(solution[|solution| - 1]) != startTile then [StartMismatch] else [];
    var goal: seq<Fault> := if Some(solution[0]) != goalTile then [GoalMismatch] else [];
    assert EndpointFaults(solution, startTile, goalTile) == start + goal;
    forall i: nat
      ensures (NotAdjacent(i) in start + goal + pairs) <==> NotAdjacent(i) in pairs
    {
    }
    forall i: nat | NotAdjacent(i) in pairs
      ensures 1 <= i < |solution| && !Adjacent(solution[i - 1], solution[i], radius)
    {
      assert IsPairFault(NotAdjacent(i), solution, radius, k);
    }
  }

  /** A solution that runs from the goal tile to the start tile through neighbouring
      tiles raises no fault. */
  lemma CorrectSolutionPasses(solution: seq<Tile>, startTile: Option<Tile>, goalTile: Option<Tile>, radius: real)
    requires solution != []
    requires Some(solution[|solution| - 1]) == startTile && Some(solution[0]) == goalTile
    requires forall i :: 1 <= i < |solution| ==> Adjacent(solution[i - 1], solution[i], radius)
    ensures Faults(solution, startTile, goalTile, radius) == []
  {
    PairFaultsOfAdjacentPairs(solution, radius, |solution| - 1);
  }

  /** Centres exactly two radii apart pass the adjacency test. */
  lemma TwoRadiiApartIsAdjacent(a: Tile, b: Tile, radius: real)
    requires b.x == a.x + 2.0 * radius && b.y == a.y
    ensures Adjacent(a, b, radius)
  {
  }

  /** Centres three radii apart fail it, for any radius that is not minute (the
      application never uses a radius below 4.0). */
  lemma ThreeRadiiApartIsNotAdjacent(a: Tile, b: Tile, radius: real)
    requires radius >= 0.01
    requires b.x == a.x + 3.0 * radius && b.y == a.y
    ensures !Adjacent(a, b, radius)
  {
    assert SquaredDistance(a, b) == 9.0 * (radius * radius);
    assert (radius * 2.0) * (radius * 2.0) == 4.0 * (radius * radius);
    assert radius * radius >= 0.0001;
  }

  /** The checking done once the algorithm reports that it is done, as `checkSolution`
      does it: the two endpoint tests, then the `while (--i)` loop over the pairs
      from the back of the solution to its front. */
  method ValidateSolution(solution: seq<Tile>, startTile: Option<Tile>, goalTile: Option<Tile>, radius: real)
    returns (faults: seq<Fault>)
    ensures faults == Faults(solution, startTile, goalTile, radius)
  {
    if |solution| == 0 {
      return [EmptySolution];
    }
    faults := [];
    if Some(solution[|solution| - 1]) != startTile {
      faults := faults + [StartMismatch];
    }
    if Some(solution[0]) != goalTile {
      faults := faults + [GoalMismatch];
    }
    var upper := SquaredDiameter(radius);
    assert faults == EndpointFaults(solution, startTile, goalTile);
    var lower := upper;
    upper := lower + Tolerance;
    lower := lower - Tolerance;
    var i := |solution| - 1;
    while i != 0
      invariant 0 <= i < |solution|
      invariant faults + PairFaults(solution, radius, i) == Faults(solution, startTile, goalTile, radius)
    {
      ghost var before := faults;
      var squared := SquaredDistance(solution[i - 1], solution[i]);
      if upper < squared || squared < lower {
        faults := faults + [NotAdjacent(i)];
      }
      PairFaultsStep(solution, radius, i, before, faults);
      i := i - 1;
    }
  }

  /** One turn of the checker's loop: appending pair `i`'s fault, if any, to what
      was raised before leaves the remaining pairs' faults to come. */
  lemma PairFaultsStep(solution: seq<Tile>, radius: real, i: nat, before: seq<Fault>, after: seq<Fault>)
    requires 0 < i < |solution|
    requires after == before + (if Adjacent(solution[i - 1], solution[i], radius) then [] else [NotAdjacent(i)])
    ensures after + PairFaults(solution, radius, i - 1) == before + PairFaults(solution, radius, i)
  {
    var step: seq<Fault> := if Adjacent(solution[i - 1], solution[i], radius) then [] else [NotAdjacent(i)];
    assert PairFaults(solution, radius, i) == step + PairFaults(solution, radius, i - 1);
    assert after + PairFaults(solution, radius, i - 1) == before + (step + PairFaults(solution, radius, i - 1));
  }
}
