/** The odds search: a breadth-first exploration of (day, planet, fuel)
    states from Tatooine, with dominance pruning, that returns the best
    probability of reaching Endor on or before the countdown without being
    captured by bounty hunters. */
module Odds {
  import opened Errors
  import opened Network

  const Start: Planet := "Tatooine"
  const Goal: Planet := "Endor"

  /** Survival factor for a day spent on a planet where hunters are present. */
  const HunterSurvival: real := 0.9

  /** A search state, the unit of memoization. */
  datatype State = State(day: int, planet: Planet, fuel: int)

  /** One transition out of a state: where it leads and the probability of
      not being captured on arrival. */
  datatype Move = Move(next: State, survival: real)

  /** One queue element: a state and the probability of having reached it. */
  datatype Entry = Entry(state: State, probability: real)

  /** Per planet, the days on which bounty hunters are present. */
  type Hunters = map<Planet, set<int>>

  /** Everything one search depends on. */
  datatype Mission = Mission(autonomy: int, graph: Graph, countdown: int, hunters: Hunters)

  ghost predicate PositiveGraph(graph: Graph)
  {
    forall p, e :: p in graph && e in graph[p] ==> e.travelTime > 0
  }

  function HazardDays(hunters: Hunters, p: Planet): set<int>
  {
    if p in hunters then hunters[p] else {}
  }

  /** Probability of NOT being captured on `planet` on `day`: 0.9 when
      hunters are there that day (however many), 1 otherwise. */
  function CaptureProbability(planet: Planet, day: int, hunters: Hunters): (r: real)
    ensures r == HunterSurvival <==> day in HazardDays(hunters, planet)
    ensures r == 1.0 <==> day !in HazardDays(hunters, planet)
    ensures 0.0 < r <= 1.0
  {
    if day in HazardDays(hunters, planet) then HunterSurvival else 1.0
  }

  function StartState(m: Mission): State
  {
    State(0, Start, m.autonomy)
  }

  /** Reaching Endor on or before the countdown ends a branch successfully. */
  predicate IsGoal(m: Mission, s: State)
  {
    s.planet == Goal && s.day <= m.countdown
  }

  /** Fuel and day bounds of every state the search creates: fuel is either
      full or within [0, autonomy), and a state past the countdown has full
      fuel and is either the start or exactly one day past the countdown. */
  predicate WellFormed(m: Mission, s: State)
  {
    0 <= s.day &&
    (s.fuel == m.autonomy || 0 <= s.fuel < m.autonomy) &&
    (s.day > m.countdown ==> s.fuel == m.autonomy && (s.day == 0 || s.day == m.countdown + 1))
  }

  /** A termination measure: every move lowers it. */
  function Rank(m: Mission, s: State): nat
  {
    if s.day <= m.countdown then m.countdown - s.day + 2
    else if s.fuel < m.autonomy then 1
    else 0
  }

  /** What every move out of `s` satisfies: time moves forward, the rank
      drops, the survival factor is the hunters' factor at the arrival
      planet and day, and the state bounds are kept. */
  ghost predicate Advances(m: Mission, s: State, mv: Move)
  {
    s.day < mv.next.day &&
    Rank(m, mv.next) < Rank(m, s) &&
    mv.survival == CaptureProbability(mv.next.planet, mv.next.day, m.hunters) &&
    (WellFormed(m, s) ==> WellFormed(m, mv.next))
  }

  /** Refuel in place: offered when the tank is not full; takes a day. */
  function RefuelMoves(m: Mission, s: State): seq<Move>
  {
    if s.fuel < m.autonomy then
      [Move(State(s.day + 1, s.planet, m.autonomy), CaptureProbability(s.planet, s.day + 1, m.hunters))]
    else []
  }

  /** Wait in place: offered when the next day is within the countdown. */
  function WaitMoves(m: Mission, s: State): seq<Move>
  {
    if s.day + 1 <= m.countdown then
      [Move(State(s.day + 1, s.planet, s.fuel), CaptureProbability(s.planet, s.day + 1, m.hunters))]
    else []
  }

  /** Travel along one edge: offered with enough fuel and an arrival within
      the countdown. */
  function TravelMove(m: Mission, s: State, e: Edge): seq<Move>
  {
    var arrival := s.day + e.travelTime;
    if s.fuel >= e.travelTime && arrival <= m.countdown then
      [Move(State(arrival, e.neighbour, s.fuel - e.travelTime), CaptureProbability(e.neighbour, arrival, m.hunters))]
    else []
  }

  /** Travel moves along `edges`, in edge order. */
  function TravelMoves(m: Mission, s: State, edges: seq<Edge>): (moves: seq<Move>)
    ensures |moves| <= |edges|
    ensures (forall e :: e in edges ==> e.travelTime > 0) ==>
      forall mv :: mv in moves ==> Advances(m, s, mv)
  {
    if edges == [] then []
    else TravelMoves(m, s, edges[..|edges| - 1]) + TravelMove(m, s, edges[|edges| - 1])
  }

  /** All moves out of `s`, in the order the search enqueues them: refuel,
      wait, then travel along each neighbour of the current planet. */
  function Successors(m: Mission, s: State): (moves: seq<Move>)
    ensures |moves| <= 2 + |Lookup(m.graph, s.planet)|
    ensures PositiveGraph(m.graph) ==> forall mv :: mv in moves ==> Advances(m, s, mv)
  {
    RefuelMoves(m, s) + WaitMoves(m, s) + TravelMoves(m, s, Lookup(m.graph, s.planet))
  }

  predicate Refuels(m: Mission, s: State, mv: Move)
  {
    s.fuel < m.autonomy && mv.next == State(s.day + 1, s.planet, m.autonomy)
  }

  predicate Waits(m: Mission, s: State, mv: Move)
  {
    s.day + 1 <= m.countdown && mv.next == State(s.day + 1, s.planet, s.fuel)
  }

  predicate TravelsAlong(m: Mission, s: State, e: Edge, mv: Move)
  {
    s.fuel >= e.travelTime && s.day + e.travelTime <= m.countdown &&
    mv.next == State(s.day + e.travelTime, e.neighbour, s.fuel - e.travelTime)
  }

  /** A move is a successor exactly when it is an eligible refuel, wait or
      travel along an edge of the current planet, with the hunters' factor
      at its arrival. */
  lemma {:induction false} SuccessorsExactly(m: Mission, s: State, mv: Move)
    ensures mv in Successors(m, s) <==>
      mv.survival == CaptureProbability(mv.next.planet, mv.next.day, m.hunters) &&
      (Refuels(m, s, mv) || Waits(m, s, mv) ||
       exists e :: e in Lookup(m.graph, s.planet) && TravelsAlong(m, s, e, mv))
  {
    TravelMovesExactly(m, s, Lookup(m.graph, s.planet), mv);
  }

  /** The eligible travel moves along `edges` are exactly those along one
      of the edges, each with the hunters' factor at its arrival. */
  lemma {:induction false} TravelMovesExactly(m: Mission, s: State, edges: seq<Edge>, mv: Move)
    ensures mv in TravelMoves(m, s, edges) <==>
      mv.survival == CaptureProbability(mv.next.planet, mv.next.day, m.hunters) &&
      exists e :: e in edges && TravelsAlong(m, s, e, mv)
    decreases |edges|
  {
    if edges != [] {
      var prefix := edges[..|edges| - 1];
      var last := edges[|edges| - 1];
      TravelMovesExactly(m, s, prefix, mv);
      assert edges == prefix + [last];
      assert mv in TravelMove(m, s, last) <==>
        mv.survival == CaptureProbability(mv.next.planet, mv.next.day, m.hunters) &&
        TravelsAlong(m, s, last, mv);
      assert TravelMoves(m, s, edges) == TravelMoves(m, s, prefix) + TravelMove(m, s, last);
      if exists e :: e in edges && TravelsAlong(m, s, e, mv) {
        var e :| e in edges && TravelsAlong(m, s, e, mv);
        if e != last {
          assert e in prefix;
        }
      }
      if exists e :: e in prefix && TravelsAlong(m, s, e, mv) {
        var e :| e in prefix && TravelsAlong(m, s, e, mv);
        assert e in edges;
      }
    }
  }

  /** Real multiplication behind a name, so that equal arguments give equal
      products without arithmetic reasoning. */
  function Mul(a: real, b: real): real
  {
    a * b
  }

  /** The bounds every move keeps: time moves forward; from a well-formed
      state the fuel stays full or within [0, autonomy) and the day at most
      one past the countdown, only a refuel may pass the countdown, and the
      survival factor is 0.9 or 1. */
  lemma MoveBounds(m: Mission, s: State, mv: Move)
    requires PositiveGraph(m.graph)
    requires WellFormed(m, s) && mv in Successors(m, s)
    ensures s.day < mv.next.day <= m.countdown + 1
    ensures mv.next.fuel == m.autonomy || 0 <= mv.next.fuel < m.autonomy
    ensures mv.next.day > m.countdown ==> Refuels(m, s, mv)
    ensures mv.survival == HunterSurvival || mv.survival == 1.0
  {
    SuccessorsExactly(m, s, mv);
    if !Refuels(m, s, mv) && !Waits(m, s, mv) {
      var e :| e in Lookup(m.graph, s.planet) && TravelsAlong(m, s, e, mv);
      assert e.travelTime > 0;
    }
  }

  function Max(a: real, b: real): (r: real)
    ensures r >= a && r >= b && (r == a || r == b)
  {
    if a >= b then a else b
  }

  lemma ProductBounds(a: real, b: real)
    requires 0.0 <= a <= 1.0 && 0.0 <= b <= 1.0
    ensures 0.0 <= a * b <= b && a * b <= 1.0
  {
  }

  lemma ProductPositive(a: real, b: real)
    requires 0.0 <= a && 0.0 <= b
    ensures 0.0 <= a * b
    ensures a * b > 0.0 <==> a > 0.0 && b > 0.0
  {
  }

  lemma MulMonotone(c: real, a: real, b: real)
    requires 0.0 <= c && a <= b
    ensures c * a <= c * b
  {
  }

  /** The reference definition of the answer: the best probability of
      surviving to Endor from `s`, choosing the best move at every step. */
  function Opt(m: Mission, s: State): (r: real)
    requires PositiveGraph(m.graph)
    ensures 0.0 <= r <= 1.0
    decreases Rank(m, s), 1
  {
    if IsGoal(m, s) then 1.0 else BestOf(m, s, Successors(m, s))
  }

  /** The best of `moves` out of `s`: a move's value is its survival factor
      times the best odds from where it leads; 0 when there is no move. */
  function BestOf(m: Mission, s: State, moves: seq<Move>): (r: real)
    requires PositiveGraph(m.graph)
    requires forall mv :: mv in moves ==> Advances(m, s, mv)
    ensures 0.0 <= r <= 1.0
    decreases Rank(m, s), 0, |moves|
  {
    if moves == [] then 0.0
    else
      assert moves[0] in moves;
      assert Advances(m, s, moves[0]);
      assert Rank(m, moves[0].next) < Rank(m, s);
      ProductBounds(moves[0].survival, Opt(m, moves[0].next));
      Max(Mul(moves[0].survival, Opt(m, moves[0].next)), BestOf(m, s, moves[1..]))
  }

  lemma BestOfCons(m: Mission, s: State, moves: seq<Move>)
    requires PositiveGraph(m.graph)
    requires forall mv :: mv in moves ==> Advances(m, s, mv)
    requires moves != []
    ensures BestOf(m, s, moves) == Max(Mul(moves[0].survival, Opt(m, moves[0].next)), BestOf(m, s, moves[1..]))
  {
  }

  /** No move out of `s` promises more than the best odds from `s`. */
  lemma {:induction false} BestOfUpper(m: Mission, s: State, moves: seq<Move>, mv: Move)
    requires PositiveGraph(m.graph)
    requires forall x :: x in moves ==> Advances(m, s, x)
    requires mv in moves
    ensures Mul(mv.survival, Opt(m, mv.next)) <= BestOf(m, s, moves)
    decreases |moves|
  {
    if moves[0] != mv {
      BestOfUpper(m, s, moves[1..], mv);
    }
  }

  lemma SuccessorUpper(m: Mission, s: State, mv: Move)
    requires PositiveGraph(m.graph)
    requires !IsGoal(m, s) && mv in Successors(m, s)
    ensures Mul(mv.survival, Opt(m, mv.next)) <= Opt(m, s)
  {
    BestOfUpper(m, s, Successors(m, s), mv);
  }

  /** Some move attains a positive best. */
  lemma {:induction false} BestOfAttained(m: Mission, s: State, moves: seq<Move>) returns (mv: Move)
    requires PositiveGraph(m.graph)
    requires forall x :: x in moves ==> Advances(m, s, x)
    requires BestOf(m, s, moves) > 0.0
    ensures mv in moves && Mul(mv.survival, Opt(m, mv.next)) == BestOf(m, s, moves)
    ensures Opt(m, mv.next) > 0.0
    decreases |moves|
  {
    var x, rest := moves[0], moves[1..];
    assert x in moves;
    assert forall y :: y in rest ==> Advances(m, s, y) by {
      forall y | y in rest ensures Advances(m, s, y) {
        assert y in moves;
      }
    }
    var o := Opt(m, x.next);
    var head := Mul(x.survival, o);
    assert Advances(m, s, x);
    ProductPositive(x.survival, o);
    assert BestOf(m, s, moves) == Max(head, BestOf(m, s, rest));
    if head >= BestOf(m, s, rest) {
      mv := x;
    } else {
      mv := BestOfAttained(m, s, rest);
    }
  }

  /** Endor can be reached from `s` on or before the countdown. */
  ghost predicate CanReach(m: Mission, s: State)
    requires PositiveGraph(m.graph)
    decreases Rank(m, s), 1
  {
    IsGoal(m, s) || CanReachVia(m, s, Successors(m, s))
  }

  ghost predicate CanReachVia(m: Mission, s: State, moves: seq<Move>)
    requires PositiveGraph(m.graph)
    requires forall mv :: mv in moves ==> Advances(m, s, mv)
    decreases Rank(m, s), 0, |moves|
  {
    moves != [] &&
    (assert moves[0] in moves && Advances(m, s, moves[0]);
     CanReach(m, moves[0].next) || CanReachVia(m, s, moves[1..]))
  }

  /** The best odds are zero exactly when Endor cannot be reached in time. */
  lemma {:induction false} OptPositive(m: Mission, s: State)
    requires PositiveGraph(m.graph)
    ensures Opt(m, s) > 0.0 <==> CanReach(m, s)
    decreases Rank(m, s), 1
  {
    if !IsGoal(m, s) {
      OptPositiveVia(m, s, Successors(m, s));
    }
  }

  lemma {:induction false} OptPositiveVia(m: Mission, s: State, moves: seq<Move>)
    requires PositiveGraph(m.graph)
    requires forall mv :: mv in moves ==> Advances(m, s, mv)
    ensures BestOf(m, s, moves) > 0.0 <==> CanReachVia(m, s, moves)
    decreases Rank(m, s), 0, |moves|
  {
    if moves != [] {
      var mv := moves[0];
      assert mv in moves;
      OptPositive(m, mv.next);
      OptPositiveVia(m, s, moves[1..]);
      var o := Opt(m, mv.next);
      if o > 0.0 {
        assert Mul(mv.survival, o) > 0.0;
      } else {
        assert Mul(mv.survival, o) == 0.0;
      }
    }
  }

  /** A plan: a sequence of moves from `s` through non-goal states that
      ends at the goal. */
  ghost predicate IsPlan(m: Mission, s: State, plan: seq<Move>)
    decreases |plan|
  {
    if plan == [] then IsGoal(m, s)
    else !IsGoal(m, s) && plan[0] in Successors(m, s) && IsPlan(m, plan[0].next, plan[1..])
  }

  /** The probability of surviving every step of a plan. */
  function PlanProbability(plan: seq<Move>): real
  {
    if plan == [] then 1.0 else plan[0].survival * PlanProbability(plan[1..])
  }

  /** No plan does better than the best odds. */
  lemma {:induction false} PlanAtMostOpt(m: Mission, s: State, plan: seq<Move>)
    requires PositiveGraph(m.graph)
    requires IsPlan(m, s, plan)
    ensures PlanProbability(plan) <= Opt(m, s)
    decreases |plan|
  {
    if plan != [] {
      var mv := plan[0];
      PlanAtMostOpt(m, mv.next, plan[1..]);
      assert mv.survival > 0.0 by {
        assert Advances(m, s, mv);
      }
      MulMonotone(mv.survival, PlanProbability(plan[1..]), Opt(m, mv.next));
      SuccessorUpper(m, s, mv);
    }
  }

  /** When Endor can be reached, some plan achieves the best odds. */
  lemma {:induction false} OptimalPlan(m: Mission, s: State) returns (plan: seq<Move>)
    requires PositiveGraph(m.graph)
    requires CanReach(m, s)
    ensures IsPlan(m, s, plan) && PlanProbability(plan) == Opt(m, s)
    decreases Rank(m, s)
  {
    if IsGoal(m, s) {
      plan := [];
    } else {
      OptPositive(m, s);
      var mv := BestOfAttained(m, s, Successors(m, s));
      assert Rank(m, mv.next) < Rank(m, s);
      OptPositive(m, mv.next);
      var rest := OptimalPlan(m, mv.next);
      plan := [mv] + rest;
      assert plan[0] == mv && plan[1..] == rest;
      assert IsPlan(m, s, plan);
    }
  }

  // ---------------------------------------------------------------------
  // The breadth-first search

  /** Dominance check and update of the visited map: `None` when a stored
      probability for the same state is at least `p` (the branch is
      pruned), otherwise the map with `p` stored for `s`. */
  function Record(visited: map<State, real>, s: State, p: real): (r: Option<map<State, real>>)
    ensures r.None? <==> s in visited && visited[s] >= p
    ensures r.Some? ==> s in r.value && r.value[s] == p && r.value.Keys == visited.Keys + {s}
    ensures r.Some? ==> Extends(r.value, visited) && r.value == visited[s := p]
  {
    if s in visited && visited[s] >= p then None else Some(visited[s := p])
  }

  /** Stored probabilities never decrease and no state is forgotten. */
  ghost predicate Extends(after: map<State, real>, before: map<State, real>)
  {
    forall t :: t in before ==> t in after && after[t] >= before[t]
  }

  /** The probability of having taken move `mv` from a state reached with
      probability `p`. */
  function After(p: real, mv: Move): real
  {
    p * mv.survival
  }

  /** Queue entries obtained by applying `moves` to a state reached with
      probability `p`. */
  function Scale(moves: seq<Move>, p: real): (entries: seq<Entry>)
    ensures |entries| == |moves|
  {
    seq(|moves|, k requires 0 <= k < |moves| => Entry(moves[k].next, After(p, moves[k])))
  }

  lemma ScaleAppend(a: seq<Move>, b: seq<Move>, p: real)
    ensures Scale(a + b, p) == Scale(a, p) + Scale(b, p)
  {
    var x, y := Scale(a + b, p), Scale(a, p) + Scale(b, p);
    forall k | 0 <= k < |x|
      ensures x[k] == y[k]
    {
      if k < |a| {
        assert (a + b)[k] == a[k];
      } else {
        assert (a + b)[k] == b[k - |a|];
      }
    }
  }

  lemma ScaleHas(front: seq<Entry>, moves: seq<Move>, p: real, mv: Move)
    requires mv in moves
    ensures Entry(mv.next, After(p, mv)) in front + Scale(moves, p)
  {
    var k :| 0 <= k < |moves| && moves[k] == mv;
    assert (front + Scale(moves, p))[|front| + k] == Entry(mv.next, After(p, mv));
  }

  /** `p` to state `t` is accounted for: either stored in `visited` with at
      least that probability, or still waiting in the queue. */
  ghost predicate Covered(visited: map<State, real>, queue: seq<Entry>, t: State, p: real)
  {
    (t in visited && visited[t] >= p) || Entry(t, p) in queue
  }

  /** Every expanded state has had its consequences recorded: a goal state's
      probability is in the running best, and every successor is covered. */
  ghost predicate Closed(m: Mission, visited: map<State, real>, queue: seq<Entry>, best: real)
  {
    forall t {:trigger ClosedAt(m, visited, queue, best, t)} :: t in visited ==> ClosedAt(m, visited, queue, best, t)
  }

  ghost predicate ClosedAt(m: Mission, visited: map<State, real>, queue: seq<Entry>, best: real, t: State)
    requires t in visited
  {
    if IsGoal(m, t) then visited[t] <= best
    else forall mv :: mv in Successors(m, t) ==> Covered(visited, queue, mv.next, After(visited[t], mv))
  }

  /** A queue entry is well formed, a probability, and no better than the
      best odds from the start allow. */
  ghost predicate Sound(m: Mission, e: Entry)
  {
    PositiveGraph(m.graph) &&
    WellFormed(m, e.state) && 0.0 <= e.probability <= 1.0 &&
    Mul(e.probability, Opt(m, e.state)) <= Opt(m, StartState(m))
  }

  lemma CoveredStays(visited: map<State, real>, queue: seq<Entry>, visited': map<State, real>, rest: seq<Entry>, t: State, p: real)
    requires queue != []
    requires Extends(visited', visited)
    requires queue[0].state in visited' && visited'[queue[0].state] >= queue[0].probability
    requires forall x :: x in queue[1..] ==> x in rest
    requires Covered(visited, queue, t, p)
    ensures Covered(visited', rest, t, p)
  {
    if !(t in visited && visited[t] >= p) && Entry(t, p) != queue[0] {
      var i :| 0 <= i < |queue| && queue[i] == Entry(t, p);
      assert queue[1..][i - 1] == Entry(t, p);
    }
  }

  /** Dropping a dominated head keeps the visited map closed. */
  lemma ClosedAfterPrune(m: Mission, visited: map<State, real>, queue: seq<Entry>, best: real)
    requires queue != [] && queue[0].state in visited && visited[queue[0].state] >= queue[0].probability
    requires Closed(m, visited, queue, best)
    ensures Closed(m, visited, queue[1..], best)
  {
    forall t | t in visited
      ensures ClosedAt(m, visited, queue[1..], best, t)
    {
      assert ClosedAt(m, visited, queue, best, t);
      if !IsGoal(m, t) {
        forall mv | mv in Successors(m, t)
          ensures Covered(visited, queue[1..], mv.next, After(visited[t], mv))
        {
          CoveredStays(visited, queue, visited, queue[1..], mv.next, After(visited[t], mv));
        }
      }
    }
  }

  /** Expanding the head keeps the visited map closed: a goal raises the
      running best, any other state has its successors queued. */
  lemma ClosedAfterExpand(m: Mission, visited: map<State, real>, queue: seq<Entry>, best: real,
                          rest: seq<Entry>, best': real)
    requires queue != []
    requires !(queue[0].state in visited && visited[queue[0].state] >= queue[0].probability)
    requires Closed(m, visited, queue, best)
    requires best' >= best
    requires IsGoal(m, queue[0].state) ==> best' >= queue[0].probability && rest == queue[1..]
    requires !IsGoal(m, queue[0].state) ==>
      rest == queue[1..] + Scale(Successors(m, queue[0].state), queue[0].probability)
    ensures Closed(m, visited[queue[0].state := queue[0].probability], rest, best')
  {
    var s, p := queue[0].state, queue[0].probability;
    var visited' := visited[s := p];
    forall t | t in visited'
      ensures ClosedAt(m, visited', rest, best', t)
    {
      if t == s {
        ClosedAtExpanded(m, visited', queue, rest, best');
      } else {
        assert ClosedAt(m, visited, queue, best, t);
        ClosedAtOther(m, visited, queue, best, rest, best', t);
      }
    }
  }

  /** The expanded state itself is closed once its successors are queued. */
  lemma ClosedAtExpanded(m: Mission, visited': map<State, real>, queue: seq<Entry>, rest: seq<Entry>, best': real)
    requires queue != []
    requires queue[0].state in visited' && visited'[queue[0].state] == queue[0].probability
    requires IsGoal(m, queue[0].state) ==> best' >= queue[0].probability
    requires !IsGoal(m, queue[0].state) ==>
      rest == queue[1..] + Scale(Successors(m, queue[0].state), queue[0].probability)
    ensures ClosedAt(m, visited', rest, best', queue[0].state)
  {
    var s, p := queue[0].state, queue[0].probability;
    if !IsGoal(m, s) {
      var moves := Successors(m, s);
      forall mv | mv in moves
        ensures Covered(visited', rest, mv.next, After(visited'[s], mv))
      {
        ScaleHas(queue[1..], moves, p, mv);
      }
    }
  }

  /** Any other expanded state stays closed: what covered its successors
      before still covers them. */
  lemma ClosedAtOther(m: Mission, visited: map<State, real>, queue: seq<Entry>, best: real,
                      rest: seq<Entry>, best': real, t: State)
    requires queue != []
    requires !(queue[0].state in visited && visited[queue[0].state] >= queue[0].probability)
    requires t in visited && t != queue[0].state
    requires ClosedAt(m, visited, queue, best, t)
    requires best' >= best
    requires forall x :: x in queue[1..] ==> x in rest
    ensures ClosedAt(m, visited[queue[0].state := queue[0].probability], rest, best', t)
  {
    var visited' := visited[queue[0].state := queue[0].probability];
    assert Extends(visited', visited);
    assert visited'[t] == visited[t];
    if !IsGoal(m, t) {
      forall mv | mv in Successors(m, t)
        ensures Covered(visited', rest, mv.next, After(visited'[t], mv))
      {
        assert Covered(visited, queue, mv.next, After(visited[t], mv));
        CoveredStays(visited, queue, visited', rest, mv.next, After(visited[t], mv));
      }
    }
  }

  /** One step of the soundness chain, on plain numbers: `p` reaches a
      state whose best is `os`, move `mv` leads to a state whose best is
      `o`, and `mv.survival * o <= os`. */
  lemma ChainStep(p: real, mv: Move, o: real, os: real, ostart: real)
    requires 0.0 <= p <= 1.0 && 0.0 <= mv.survival <= 1.0 && 0.0 <= o
    requires Mul(mv.survival, o) <= os && Mul(p, os) <= ostart
    ensures 0.0 <= After(p, mv) <= 1.0
    ensures Mul(After(p, mv), o) <= ostart
  {
    var f := mv.survival;
    ProductBounds(p, f);
    assert (p * f) * o == p * (f * o);
    assert p * (f * o) <= p * os;
  }

  /** The successor entry of a sound entry is sound. */
  lemma SoundMove(m: Mission, s: State, p: real, mv: Move)
    requires Sound(m, Entry(s, p)) && !IsGoal(m, s)
    requires mv in Successors(m, s)
    ensures Sound(m, Entry(mv.next, After(p, mv)))
  {
    assert Advances(m, s, mv);
    SuccessorUpper(m, s, mv);
    ChainStep(p, mv, Opt(m, mv.next), Opt(m, s), Opt(m, StartState(m)));
  }

  /** Successors of a sound entry are sound: each move's factor times the
      best odds from where it leads is at most the best odds from `s`. */
  lemma SoundSuccessors(m: Mission, s: State, p: real)
    requires Sound(m, Entry(s, p)) && !IsGoal(m, s)
    ensures forall e :: e in Scale(Successors(m, s), p) ==> Sound(m, e)
  {
    var moves := Successors(m, s);
    forall e | e in Scale(moves, p)
      ensures Sound(m, e)
    {
      var k :| 0 <= k < |moves| && Scale(moves, p)[k] == e;
      assert moves[k] in moves;
      SoundMove(m, s, p, moves[k]);
    }
  }

  /** The closing step on plain numbers: `v` reaches a state, move `mv`
      leads to a state stored with `vn >= After(v, mv)` whose best is `o`,
      and `vn * o <= best`. */
  lemma CloseStep(v: real, mv: Move, o: real, vn: real, best: real)
    requires 0.0 <= v && 0.0 <= o && After(v, mv) <= vn && Mul(vn, o) <= best
    ensures Mul(v, Mul(mv.survival, o)) <= best
  {
    var f := mv.survival;
    assert v * (f * o) == (v * f) * o;
    assert (v * f) * o <= vn * o;
  }

  lemma MulZero(v: real)
    ensures Mul(v, 0.0) == 0.0
  {
  }

  /** A bound on both arguments bounds their maximum. */
  lemma MaxStep(v: real, a: real, b: real, best: real)
    requires Mul(v, a) <= best && Mul(v, b) <= best
    ensures Mul(v, Max(a, b)) <= best
  {
  }

  /** Once the queue is empty, closure bounds the running best from below
      by every stored probability times the best odds from that state. */
  lemma {:induction false} ClosedBound(m: Mission, visited: map<State, real>, best: real, t: State)
    requires PositiveGraph(m.graph)
    requires Closed(m, visited, [], best)
    requires forall u :: u in visited ==> 0.0 <= visited[u]
    requires 0.0 <= best
    requires t in visited
    ensures Mul(visited[t], Opt(m, t)) <= best
    decreases Rank(m, t), 1
  {
    assert ClosedAt(m, visited, [], best, t);
    if !IsGoal(m, t) {
      assert forall mv :: mv in Successors(m, t) ==> Advances(m, t, mv);
      ClosedBoundVia(m, visited, best, t, Successors(m, t));
    }
  }

  lemma {:induction false} ClosedBoundVia(m: Mission, visited: map<State, real>, best: real, t: State, moves: seq<Move>)
    requires PositiveGraph(m.graph)
    requires Closed(m, visited, [], best)
    requires forall u :: u in visited ==> 0.0 <= visited[u]
    requires 0.0 <= best
    requires t in visited && !IsGoal(m, t)
    requires forall mv :: mv in moves ==> mv in Successors(m, t) && Advances(m, t, mv)
    ensures Mul(visited[t], BestOf(m, t, moves)) <= best
    decreases Rank(m, t), 0, |moves|
  {
    if moves == [] {
      MulZero(visited[t]);
    } else {
      TailMoves(m, t, moves);
      StoredSuccessor(m, visited, best, t, moves[0]);
      ClosedBound(m, visited, best, moves[0].next);
      ClosedBoundVia(m, visited, best, t, moves[1..]);
      BestOfStep(m, t, moves, visited[t], visited[moves[0].next], best);
    }
  }

  lemma TailMoves(m: Mission, t: State, moves: seq<Move>)
    requires PositiveGraph(m.graph)
    requires moves != [] && forall mv :: mv in moves ==> mv in Successors(m, t) && Advances(m, t, mv)
    ensures moves[0] in Successors(m, t) && Advances(m, t, moves[0])
    ensures forall mv :: mv in moves[1..] ==> mv in Successors(m, t) && Advances(m, t, mv)
  {
    assert moves[0] in moves;
    forall x | x in moves[1..] ensures x in Successors(m, t) && Advances(m, t, x) {
      assert x in moves;
    }
  }

  /** In a closed map, every successor of an expanded non-goal state is
      stored with at least the probability of getting there through it. */
  lemma StoredSuccessor(m: Mission, visited: map<State, real>, best: real, t: State, mv: Move)
    requires Closed(m, visited, [], best)
    requires t in visited && !IsGoal(m, t) && mv in Successors(m, t)
    ensures mv.next in visited && After(visited[t], mv) <= visited[mv.next]
  {
    assert ClosedAt(m, visited, [], best, t);
    assert Covered(visited, [], mv.next, After(visited[t], mv));
  }

  /** The bound for the best of `moves` from the bounds for its first move
      and for the rest. */
  lemma BestOfStep(m: Mission, t: State, moves: seq<Move>, v: real, vn: real, best: real)
    requires PositiveGraph(m.graph)
    requires moves != [] && forall mv :: mv in moves ==> Advances(m, t, mv)
    requires 0.0 <= v && After(v, moves[0]) <= vn
    requires Mul(vn, Opt(m, moves[0].next)) <= best
    requires Mul(v, BestOf(m, t, moves[1..])) <= best
    ensures Mul(v, BestOf(m, t, moves)) <= best
  {
    BestOfCons(m, t, moves);
    CloseStep(v, moves[0], Opt(m, moves[0].next), vn, best);
    MaxStep(v, Mul(moves[0].survival, Opt(m, moves[0].next)), BestOf(m, t, moves[1..]), best);
  }

  // ---------------------------------------------------------------------
  // Termination of the search

  /** `n` copies of `x` added up; keeps the weight arithmetic linear. */
  function Times(n: nat, x: nat): nat
  {
    if n == 0 then 0 else x + Times(n - 1, x)
  }

  lemma {:induction false} TimesLess(n: nat, n': nat, x: nat)
    requires n < n' && x >= 1
    ensures Times(n, x) < Times(n', x)
    decreases n'
  {
    if n < n' - 1 {
      TimesLess(n, n' - 1, x);
    }
  }

  lemma TimesAtLeast(n: nat, x: nat)
    requires n >= 1
    ensures Times(n, x) >= x
  {
  }

  function Pow(b: nat, k: nat): (r: nat)
    ensures b >= 1 ==> r >= 1
  {
    if k == 0 then 1 else Times(b, Pow(b, k - 1))
  }

  lemma {:induction false} PowMonotone(b: nat, j: nat, k: nat)
    requires b >= 1 && j <= k
    ensures Pow(b, j) <= Pow(b, k)
    decreases k
  {
    if j < k {
      PowMonotone(b, j, k - 1);
      TimesAtLeast(b, Pow(b, k - 1));
    }
  }

  /** The weight of a queue: every entry weighs `b` to the power of its
      state's rank, so an entry outweighs fewer than `b` entries of lower
      rank. */
  ghost function Weight(m: Mission, queue: seq<Entry>, b: nat): nat
  {
    if queue == [] then 0 else Pow(b, Rank(m, queue[0].state)) + Weight(m, queue[1..], b)
  }

  lemma {:induction false} WeightAppend(m: Mission, a: seq<Entry>, c: seq<Entry>, b: nat)
    ensures Weight(m, a + c, b) == Weight(m, a, b) + Weight(m, c, b)
    decreases |a|
  {
    if a == [] {
      assert a + c == c;
    } else {
      assert (a + c)[0] == a[0] && (a + c)[1..] == a[1..] + c;
      WeightAppend(m, a[1..], c, b);
    }
  }

  lemma {:induction false} WeightOfScale(m: Mission, moves: seq<Move>, p: real, b: nat, x: nat)
    requires forall mv :: mv in moves ==> Pow(b, Rank(m, mv.next)) <= x
    ensures Weight(m, Scale(moves, p), b) <= Times(|moves|, x)
    decreases |moves|
  {
    if moves != [] {
      var entries := Scale(moves, p);
      assert entries[0].state == moves[0].next;
      assert entries[1..] == Scale(moves[1..], p);
      assert moves[0] in moves;
      assert forall mv :: mv in moves[1..] ==> mv in moves;
      WeightOfScale(m, moves[1..], p, b, x);
    }
  }

  /** The successors of a state weigh less than the state itself. */
  lemma SuccessorsWeighLess(m: Mission, s: State, p: real, b: nat)
    requires PositiveGraph(m.graph)
    requires |Successors(m, s)| < b
    ensures Weight(m, Scale(Successors(m, s), p), b) < Pow(b, Rank(m, s))
  {
    var moves := Successors(m, s);
    if moves == [] {
      assert Scale(moves, p) == [];
    } else {
      assert moves[0] in moves;
      var r := Rank(m, s) - 1;
      forall mv | mv in moves
        ensures Pow(b, Rank(m, mv.next)) <= Pow(b, r)
      {
        PowMonotone(b, Rank(m, mv.next), r);
      }
      WeightOfScale(m, moves, p, b, Pow(b, r));
      TimesLess(|moves|, b, Pow(b, r));
    }
  }

  /** A bound on the length of every neighbour list. */
  ghost function MaxDegree(graph: Graph): (d: nat)
    ensures forall p :: |Lookup(graph, p)| <= d
    decreases |graph.Keys|
  {
    if graph.Keys == {} then 0
    else
      var p :| p in graph.Keys;
      var rest := graph - {p};
      assert rest.Keys == graph.Keys - {p};
      var d := MaxDegree(rest);
      assert forall q :: q != p ==> Lookup(rest, q) == Lookup(graph, q);
      if |graph[p]| > d then |graph[p]| else d
  }

  /** Appends the entries for every move out of `s`, reached with
      probability `p`: refuel when the tank is not full, wait when the next
      day is within the countdown, then travel along each neighbour edge
      with enough fuel and an arrival within the countdown. */
  method PushSuccessors(m: Mission, s: State, p: real, queue: seq<Entry>) returns (queue': seq<Entry>)
    ensures queue' == queue + Scale(Successors(m, s), p)
  {
    queue' := queue;
    if s.fuel < m.autonomy {
      var refuel := Move(State(s.day + 1, s.planet, m.autonomy), CaptureProbability(s.planet, s.day + 1, m.hunters));
      queue' := queue' + [Entry(refuel.next, After(p, refuel))];
    }
    var refuelled := queue';
    if s.day + 1 <= m.countdown {
      var wait := Move(State(s.day + 1, s.planet, s.fuel), CaptureProbability(s.planet, s.day + 1, m.hunters));
      queue' := queue' + [Entry(wait.next, After(p, wait))];
    }
    var waited := queue';
    queue' := PushTravels(m, s, p, Lookup(m.graph, s.planet), queue');
    SuccessorEntries(m, s, p, queue, refuelled, waited, queue');
  }

  /** The three stages of `PushSuccessors` together append the entries of
      all successors. */
  lemma SuccessorEntries(m: Mission, s: State, p: real, queue: seq<Entry>, refuelled: seq<Entry>,
                         waited: seq<Entry>, pushed: seq<Entry>)
    requires refuelled == queue + Scale(RefuelMoves(m, s), p)
    requires waited == refuelled + Scale(WaitMoves(m, s), p)
    requires pushed == waited + Scale(TravelMoves(m, s, Lookup(m.graph, s.planet)), p)
    ensures pushed == queue + Scale(Successors(m, s), p)
  {
    var r, w, t := RefuelMoves(m, s), WaitMoves(m, s), TravelMoves(m, s, Lookup(m.graph, s.planet));
    ScaleAppend(r, w, p);
    ScaleAppend(r + w, t, p);
  }

  /** Appends the entries for travelling along each of `edges` in order,
      skipping an edge when the fuel does not cover its travel time or the
      arrival would be after the countdown. */
  method PushTravels(m: Mission, s: State, p: real, edges: seq<Edge>, queue: seq<Entry>) returns (queue': seq<Entry>)
    ensures queue' == queue + Scale(TravelMoves(m, s, edges), p)
  {
    queue' := queue;
    assert Scale(TravelMoves(m, s, edges[..0]), p) == [];
    for i := 0 to |edges|
      invariant queue' == queue + Scale(TravelMoves(m, s, edges[..i]), p)
    {
      var e := edges[i];
      TravelStep(m, s, p, edges, i, queue, queue');
      TravelEntry(m, s, p, e);
      if s.fuel >= e.travelTime && s.day + e.travelTime <= m.countdown {
        var travel := Move(State(s.day + e.travelTime, e.neighbour, s.fuel - e.travelTime),
                           CaptureProbability(e.neighbour, s.day + e.travelTime, m.hunters));
        queue' := queue' + [Entry(travel.next, After(p, travel))];
      }
    }
    assert edges[..|edges|] == edges;
  }

  /** One edge of `PushTravels`: appending the entries of that edge's
      travel move extends the entries of the edges before it. */
  lemma TravelStep(m: Mission, s: State, p: real, edges: seq<Edge>, i: nat, queue: seq<Entry>, pushed: seq<Entry>)
    requires i < |edges|
    requires pushed == queue + Scale(TravelMoves(m, s, edges[..i]), p)
    ensures pushed + Scale(TravelMove(m, s, edges[i]), p) == queue + Scale(TravelMoves(m, s, edges[..i + 1]), p)
  {
    var before, e := edges[..i], edges[i];
    assert edges[..i + 1][..i] == before;
    assert TravelMoves(m, s, edges[..i + 1]) == TravelMoves(m, s, before) + TravelMove(m, s, e);
    ScaleAppend(TravelMoves(m, s, before), TravelMove(m, s, e), p);
  }

  /** The entry one edge contributes: the travel move's arrival state with
      the probability scaled by the hunters' factor there, exactly when the
      fuel covers the travel time and the arrival is within the countdown. */
  lemma TravelEntry(m: Mission, s: State, p: real, e: Edge)
    ensures var travel := Move(State(s.day + e.travelTime, e.neighbour, s.fuel - e.travelTime),
                               CaptureProbability(e.neighbour, s.day + e.travelTime, m.hunters));
      Scale(TravelMove(m, s, e), p) ==
        if s.fuel >= e.travelTime && s.day + e.travelTime <= m.countdown
        then [Entry(travel.next, After(p, travel))] else []
  {
    var travel := Move(State(s.day + e.travelTime, e.neighbour, s.fuel - e.travelTime),
                       CaptureProbability(e.neighbour, s.day + e.travelTime, m.hunters));
    if s.fuel >= e.travelTime && s.day + e.travelTime <= m.countdown {
      assert TravelMove(m, s, e) == [travel];
      assert Scale([travel], p)[0] == Entry(travel.next, After(p, travel));
    } else {
      assert TravelMove(m, s, e) == [];
    }
  }

  /** What holds of the search between two dequeues: every queued entry is
      sound, stored probabilities are probabilities of well-formed states,
      the running best is attainable, the start is accounted for, and the
      visited map is closed. */
  ghost predicate Explored(m: Mission, visited: map<State, real>, queue: seq<Entry>, best: real)
  {
    PositiveGraph(m.graph) &&
    (forall e :: e in queue ==> Sound(m, e)) &&
    (forall t :: t in visited ==> 0.0 <= visited[t] <= 1.0 && WellFormed(m, t)) &&
    0.0 <= best <= Opt(m, StartState(m)) &&
    Covered(visited, queue, StartState(m), 1.0) &&
    Closed(m, visited, queue, best)
  }

  /** The search starts from Tatooine on day 0 with a full tank. */
  lemma ExploredInitially(m: Mission)
    requires PositiveGraph(m.graph)
    ensures Explored(m, map[], [Entry(StartState(m), 1.0)], 0.0)
  {
    MulOne(Opt(m, StartState(m)));
  }

  lemma MulOne(x: real)
    ensures Mul(1.0, x) == x
  {
  }

  /** Skipping a dominated head keeps the invariant. */
  lemma PruneStep(m: Mission, visited: map<State, real>, queue: seq<Entry>, best: real)
    requires Explored(m, visited, queue, best)
    requires queue != [] && Record(visited, queue[0].state, queue[0].probability).None?
    ensures Explored(m, visited, queue[1..], best)
  {
    assert forall x :: x in queue[1..] ==> x in queue;
    ClosedAfterPrune(m, visited, queue, best);
    CoveredStays(visited, queue, visited, queue[1..], StartState(m), 1.0);
  }

  /** Reaching Endor in time raises the running best and keeps the
      invariant. */
  lemma GoalStep(m: Mission, visited: map<State, real>, queue: seq<Entry>, best: real)
    requires Explored(m, visited, queue, best)
    requires queue != [] && Record(visited, queue[0].state, queue[0].probability).Some?
    requires IsGoal(m, queue[0].state)
    ensures Explored(m, visited[queue[0].state := queue[0].probability], queue[1..], Max(best, queue[0].probability))
  {
    var s, p := queue[0].state, queue[0].probability;
    assert queue[0] in queue;
    assert forall x :: x in queue[1..] ==> x in queue;
    assert Sound(m, Entry(s, p));
    MulOneRight(p);
    ClosedAfterExpand(m, visited, queue, best, queue[1..], Max(best, p));
    CoveredStays(visited, queue, visited[s := p], queue[1..], StartState(m), 1.0);
  }

  lemma MulOneRight(x: real)
    ensures Mul(x, 1.0) == x
  {
  }

  /** Queueing the successors of any other state keeps the invariant. */
  lemma ExpandStep(m: Mission, visited: map<State, real>, queue: seq<Entry>, best: real)
    requires Explored(m, visited, queue, best)
    requires queue != [] && Record(visited, queue[0].state, queue[0].probability).Some?
    requires !IsGoal(m, queue[0].state)
    ensures Explored(m, visited[queue[0].state := queue[0].probability],
                     queue[1..] + Scale(Successors(m, queue[0].state), queue[0].probability), best)
  {
    var s, p := queue[0].state, queue[0].probability;
    var rest := queue[1..] + Scale(Successors(m, s), p);
    assert queue[0] in queue;
    assert forall x :: x in queue[1..] ==> x in rest by {
      forall x | x in queue[1..] ensures x in rest {
        assert x in queue;
      }
    }
    assert Sound(m, Entry(s, p));
    SoundSuccessors(m, s, p);
    ClosedAfterExpand(m, visited, queue, best, rest, best);
    CoveredStays(visited, queue, visited[s := p], rest, StartState(m), 1.0);
  }

  /** Every step of the search lowers the weight of the queue. */
  lemma WeightDrops(m: Mission, queue: seq<Entry>, next: seq<Entry>, b: nat)
    requires PositiveGraph(m.graph) && queue != []
    requires |Successors(m, queue[0].state)| < b
    requires next == queue[1..] || next == queue[1..] + Scale(Successors(m, queue[0].state), queue[0].probability)
    ensures Weight(m, next, b) < Weight(m, queue, b)
  {
    var s, p := queue[0].state, queue[0].probability;
    if next != queue[1..] {
      WeightAppend(m, queue[1..], Scale(Successors(m, s), p), b);
      SuccessorsWeighLess(m, s, p, b);
    }
  }

  /** The search: a FIFO queue of entries starting from Tatooine on day 0
      with a full tank; a dequeued state is skipped when its stored
      probability is at least as good, a goal state updates the best odds,
      and any other state enqueues its refuel, wait and travel moves.
      The result is exactly the best odds from the start. */
  method Search(m: Mission) returns (best: real)
    requires PositiveGraph(m.graph)
    ensures best == Opt(m, StartState(m))
    ensures 0.0 <= best <= 1.0
  {
    var queue := [Entry(StartState(m), 1.0)];
    var visited: map<State, real> := map[];
    best := 0.0;
    ghost var base := MaxDegree(m.graph) + 3;
    ExploredInitially(m);
    while queue != []
      invariant Explored(m, visited, queue, best)
      decreases Weight(m, queue, base)
    {
      ghost var before, visitedBefore, bestBefore := queue, visited, best;
      var head := queue[0];
      queue := queue[1..];
      var s, p := head.state, head.probability;

      var stored := Record(visited, s, p);
      if stored.None? {
        PruneStep(m, visitedBefore, before, bestBefore);
        WeightDrops(m, before, queue, base);
        continue;
      }
      visited := stored.value;

      if IsGoal(m, s) {
        best := Max(best, p);
        GoalStep(m, visitedBefore, before, bestBefore);
        WeightDrops(m, before, queue, base);
        continue;
      }

      queue := PushSuccessors(m, s, p, queue);
      ExpandStep(m, visitedBefore, before, bestBefore);
      WeightDrops(m, before, queue, base);
    }
    ClosedBound(m, visited, best, StartState(m));
    MulOne(Opt(m, StartState(m)));
  }

  /** A direct six-day route from Tatooine to Endor, autonomy 6 and
      countdown 7, with hunters only on Hoth. */
  function DirectRoute(): Mission
  {
    Mission(6, map[Start := [Edge(Goal, 6)], Goal := [Edge(Start, 6)]], 7, map["Hoth" := {6}])
  }

  /** On the direct route the Falcon flies straight to Endor and arrives on
      day 6, unhunted: the odds are 1. */
  lemma DirectRouteOdds()
    ensures PositiveGraph(DirectRoute().graph)
    ensures Opt(DirectRoute(), StartState(DirectRoute())) == 1.0
  {
    var m := DirectRoute();
    var start := StartState(m);
    var fly := Move(State(6, Goal, 0), 1.0);
    assert Lookup(m.graph, Start) == [Edge(Goal, 6)];
    assert TravelMoves(m, start, [Edge(Goal, 6)]) == [fly] by {
      assert [Edge(Goal, 6)][..0] == [];
    }
    assert fly in Successors(m, start);
    assert IsPlan(m, start, [fly]) by {
      assert [fly][1..] == [];
    }
    PlanAtMostOpt(m, start, [fly]);
  }

  /** No edge of positive travel time can be taken from a state on or past
      the countdown. */
  lemma {:induction false} NoTravelAfterCountdown(m: Mission, s: State, edges: seq<Edge>)
    requires s.day >= m.countdown
    requires forall e :: e in edges ==> e.travelTime > 0
    ensures TravelMoves(m, s, edges) == []
  {
    if edges != [] {
      NoTravelAfterCountdown(m, s, edges[..|edges| - 1]);
      assert edges[|edges| - 1] in edges;
    }
  }

  /** A negative countdown is accepted, and the odds are then 0: the start
      is already past the deadline and no move leaves it. */
  lemma NegativeCountdown(m: Mission)
    requires PositiveGraph(m.graph)
    requires m.countdown < 0
    ensures Opt(m, StartState(m)) == 0.0
    ensures !CanReach(m, StartState(m))
  {
    var start := StartState(m);
    NoTravelAfterCountdown(m, start, Lookup(m.graph, start.planet));
    assert Successors(m, start) == [];
  }
}
