# C3PO odds of reaching Endor — a verified Dafny model

The Millennium Falcon must fly from Tatooine and reach Endor on or before
day `countdown`, the Death Star's deadline; an arrival on day `countdown`
itself counts. Each route between two planets takes some days of travel,
and the Falcon can travel at most `autonomy` days
before it must spend a day refuelling. Bounty hunters are present on some
planets on some days. Each move (refuel, wait or travel) that brings the
Falcon onto such a planet on such a day is survived with probability 0.9.
The start, day 0 at Tatooine, is never charged.

The C3PO service does two things:
- it validates the Falcon data and builds an adjacency map of the routes;
- for given Empire data (countdown and bounty-hunter sightings), it runs a
  breadth-first search over (day, planet, fuel) states and returns the best
  probability of arriving at Endor on time.

The search branches into three kinds of move:
- **refuel**, when the tank is not full;
- **wait**, when the next day is within the countdown;
- **travel along a route**, when the fuel covers the travel time and the
  arrival is within the countdown.

It prunes a state when a probability at least as good has already been
recorded for it.

The model has four modules.

- `Errors` (`errors.dfy`) models the application error and the
  "JSON file not found" error:
  - how the message is rendered;
  - that rendering can be inverted;
  - the fixed default message of the file-not-found error.
- `Network` (`network.dfy`) models the route graph:
  - `BuildGraph` is the construction loop, proved against a specification
    function `NeighboursOf`;
  - lemmas state that both directions are added, that route order is kept,
    that the adjacency is symmetric, that isolated planets have no
    neighbours, and that edges are exactly those given by routes.
- `Odds` (`odds.dfy`) models the moves and the search:
  - `CaptureProbability` is the survival factor, and `Successors` gives the
    moves in the order the search enqueues them.
  - `Opt` is an independent reference definition of the answer: a backward
    recursion that takes the best move at every step.
  - Lemmas relate `Opt` to explicit plans. No plan does better, an optimal
    plan exists, and `Opt` is zero exactly when Endor is unreachable.
  - `Search` is the imperative FIFO search with its `visited` map. It is
    proved to return exactly `Opt` of the start state, and proved to
    terminate.
- `C3PO` (`c3po.dfy`) models the service class:
  - validation of the Falcon data;
  - grouping the bounty-hunter sightings per planet;
  - `GiveMeTheOdds`, whose result is `Opt` of the start state, or the
    Empire-data error.

The proof that the search is correct rests on two loop invariants, bundled
in `Explored`:
- **Soundness.** Every queued entry with probability `q` for state `t`
  satisfies `q * Opt(t) <= Opt(start)`.
- **Closure.** Every expanded non-goal state has each successor either
  recorded with at least the probability of reaching it through that state,
  or still waiting in the queue. Every expanded goal state is at most the
  running best.

When the queue is empty, induction on the state rank (`ClosedBound`) turns
closure into `Opt(start) <= best`.

Termination uses a weight on the queue. Each entry weighs `B^rank`, where
`B` is larger than the number of successors of any state.

Probabilities are exact reals, and every survival factor is 0.9 or 1.

The model follows the code as written:
- **Autonomy.** Construction rejects only an autonomy that is absent or 0
  (`not self.autonomy`). A negative autonomy is accepted.
- **Countdown.** Only an absent countdown is rejected
  (`countdown is None`). A negative countdown is accepted, and the odds
  are then 0 (`NegativeCountdown`).
- **Refuel.** A refuel move has no deadline check, so a state can be one
  day past the countdown.
- **Empire data.** An empty list of sightings is an error ("Invalid Empire
  data"), because the grouped sightings are then empty.

## Model

| member | source | states |
|---|---|---|
| Errors.ApplicationError.GetMessage | src/domain/exceptions/application_error.py:31-32 | the message is the default message alone exactly when the additional message is empty; otherwise it is the default message followed by ": " and the additional message |
| Errors.ApplicationError.ToString | src/domain/exceptions/application_error.py:28-29 | string conversion is always the rendered message |
| Errors.MessageRoundTrip | src/domain/exceptions/application_error.py:31-32 | the additional message can be recovered from the rendered message and the default message |
| Errors.MessageInjective | src/domain/exceptions/application_error.py:31-32 | two errors with the same default message render alike only when their additional messages are equal |
| Errors.PathText | src/domain/exceptions/file_not_found.py:30 | the text of an optional path is the path itself, or "None" when absent |
| Errors.NewJsonFileNotFound | src/domain/exceptions/file_not_found.py:29-30 | the default message is always "Json File Not Found "; the additional message is never empty; the rendered message is the default message, ": ", the given message, a space and the path text |
| Errors.DefaultJsonFileNotFoundMessage | src/domain/exceptions/file_not_found.py:29-30 | with no arguments the message renders as "Json File Not Found :  None" |
| Network.Lookup | src/application/C3PO/C3POService.py:54 | a planet that is not a key of the graph has an empty neighbour list (default-dictionary semantics) |
| Network.BuildGraph | src/application/C3PO/C3POService.py:53-57 | every planet's list in the built map is `NeighboursOf(routes, p)`, and the keys are exactly the planets named by some route |
| Network.RegisterRoute | src/application/C3PO/C3POService.py:55-57 | appending one route to both endpoints' lists extends each planet's list from the first `i` routes to the first `i + 1` |
| Network.RegisterRouteKeys | src/application/C3PO/C3POService.py:55-57 | the same step adds exactly the route's two endpoints to the keys |
| Network.NeighboursOfAppend | src/application/C3PO/C3POService.py:55-57 | registering two route lists in turn concatenates each planet's neighbours in that order, so route order is kept |
| Network.SingleRoute | src/application/C3PO/C3POService.py:56-57 | one route gives its origin the destination first, then gives its destination the origin, with the same travel time |
| Network.NeighbourMembership | src/application/C3PO/C3POService.py:55-57 | an edge is in a planet's list if and only if some route joins the two planets, in either direction, with that travel time |
| Network.Symmetric | src/application/C3PO/C3POService.py:56-57 | `q` lists `p` with time `t` exactly when `p` lists `q` with time `t` |
| Network.IsolatedPlanet | src/application/C3PO/C3POService.py:54-57 | a planet's neighbour list is empty exactly when no route names it |
| Network.DegreeBound | src/application/C3PO/C3POService.py:55-57 | each route adds at most two edges to a planet's list |
| Network.PositiveEdges | src/application/C3PO/C3POService.py:56-57 | positive route times give positive edge times |
| Odds.CaptureProbability | src/application/C3PO/C3POService.py:127-135 | the factor is 0.9 exactly when the day is among the planet's hunter days, 1 exactly when it is not, and always in (0, 1] |
| Odds.TravelMoves | src/application/C3PO/C3POService.py:116-122 | at most one travel move per edge; with positive edge times every travel move advances time, lowers the rank and keeps the state bounds |
| Odds.Successors | src/application/C3PO/C3POService.py:101-122 | at most two moves plus one per neighbour edge, and every move advances time, lowers the rank and keeps the state bounds |
| Odds.SuccessorsExactly | src/application/C3PO/C3POService.py:101-122 | a move is a successor exactly when it is an eligible refuel, wait or travel along an edge of the current planet, with the hunters' factor at the arrival |
| Odds.TravelMovesExactly | src/application/C3PO/C3POService.py:116-122 | the travel moves are exactly the eligible moves along one of the edges |
| Odds.MoveBounds | src/application/C3PO/C3POService.py:102-122 | from a well-formed state, time moves forward and the day stays at most one past the countdown; fuel stays full or within [0, autonomy); only a refuel passes the countdown; the factor is 0.9 or 1 |
| Odds.Max | src/application/C3PO/C3POService.py:98 | the maximum is at least both arguments and equals one of them |
| Odds.Opt | src/application/C3PO/C3POService.py:76-125 | the reference best odds from a state lie in [0, 1] |
| Odds.BestOfUpper | src/application/C3PO/C3POService.py:101-122 | no move promises more than the best of the moves |
| Odds.SuccessorUpper | src/application/C3PO/C3POService.py:101-122 | a successor's factor times its best odds is at most the best odds of the state |
| Odds.BestOfAttained | src/application/C3PO/C3POService.py:101-122 | a positive best is attained by some move whose target has positive odds |
| Odds.OptPositive | src/application/C3PO/C3POService.py:81-99 | the best odds are positive if and only if Endor can be reached by the countdown, and zero otherwise |
| Odds.PlanAtMostOpt | src/application/C3PO/C3POService.py:96-122 | the survival probability of any plan reaching Endor is at most the best odds |
| Odds.OptimalPlan | src/application/C3PO/C3POService.py:96-122 | when Endor is reachable, some plan achieves exactly the best odds |
| Odds.Record | src/application/C3PO/C3POService.py:89-93 | the state is pruned exactly when a stored probability for it is at least the new one; otherwise the new probability is stored, no other entry changes, and stored values never decrease |
| Odds.PushSuccessors | src/application/C3PO/C3POService.py:101-122 | the queue grows by the entries of all successors, in refuel, wait, travel order, each with the probability times the survival factor |
| Odds.PushTravels | src/application/C3PO/C3POService.py:115-122 | the queue grows by the entries of the eligible travel moves, in edge order |
| Odds.TravelStep | src/application/C3PO/C3POService.py:116-122 | handling one more edge extends the queue from the entries of the edges before it to the entries of the edges up to it, in edge order |
| Odds.TravelEntry | src/application/C3PO/C3POService.py:117-122 | one edge adds exactly one entry, for its arrival state with the probability scaled by the hunters' factor there, exactly when the fuel covers its travel time and the arrival is within the countdown; otherwise it adds none |
| Odds.SuccessorEntries | src/application/C3PO/C3POService.py:101-122 | refuel entries, then wait entries, then travel entries are together the entries of all successors |
| Odds.ExploredInitially | src/application/C3PO/C3POService.py:78-81 | the search starts on day 0 at Tatooine with a full tank, probability 1 and best 0, and the invariant holds |
| Odds.PruneStep | src/application/C3PO/C3POService.py:88-92 | skipping a dominated state keeps the search invariant |
| Odds.GoalStep | src/application/C3PO/C3POService.py:95-99 | reaching Endor by the countdown raises the running maximum, adds no successors, and keeps the invariant |
| Odds.ExpandStep | src/application/C3PO/C3POService.py:93-122 | storing a state and queueing its successors keeps the invariant |
| Odds.SoundSuccessors | src/application/C3PO/C3POService.py:101-122 | the successors of a sound entry are sound: their probabilities stay in [0, 1] and promise no more than the best odds from the start |
| Odds.ClosedBound | src/application/C3PO/C3POService.py:83-122 | once the queue is empty, every stored probability times the best odds from its state is at most the running maximum |
| Odds.WeightDrops | src/application/C3PO/C3POService.py:83-122 | every iteration lowers the queue's weight, so the search terminates |
| Odds.SuccessorsWeighLess | src/application/C3PO/C3POService.py:101-122 | the successors of a state weigh less than the state |
| Odds.Search | src/application/C3PO/C3POService.py:76-125 | the search returns exactly the best odds from the start state, a value in [0, 1] |
| Odds.DirectRouteOdds | src/application/C3PO/C3POService.py:96-122 | with a direct six-day route, autonomy 6, countdown 7 and no hunters on the way, the odds are 1 |
| Odds.NoTravelAfterCountdown | src/application/C3PO/C3POService.py:116-119 | with positive travel times no edge can be taken from a state on or past the countdown |
| Odds.NegativeCountdown | src/application/C3PO/C3POService.py:73-122 | with a negative countdown the odds are 0 and Endor cannot be reached |
| C3PO.HazardDaysOfSightings | src/application/C3PO/C3POService.py:69-71 | a day is a hunter day of a planet exactly when some sighting names that planet and day |
| C3PO.DuplicateSighting | src/application/C3PO/C3POService.py:69-71 | repeating a sighting leaves the grouped hunters unchanged (set semantics) |
| C3PO.HunterMapEmpty | src/application/C3PO/C3POService.py:69-74 | the grouped hunters are empty exactly when there are no sightings |
| C3PO.CollectBountyHunters | src/application/C3PO/C3POService.py:69-71 | the loop builds the sightings grouped by planet |
| C3PO.C3POService.constructor | src/application/C3PO/C3POService.py:47-57 | stores autonomy and routes and builds the adjacency map of the routes |
| C3PO.C3POService.Create | src/application/C3PO/C3POService.py:47-57 | construction fails with "Invalid Falcon data" exactly when autonomy is absent or 0 or the routes are absent or empty; otherwise it yields a valid service with those fields |
| C3PO.C3POService.GraphPositive | src/application/C3PO/C3POService.py:55-57 | positive route times give a graph with positive edge times |
| C3PO.C3POService.GiveMeTheOdds | src/application/C3PO/C3POService.py:59-125 | fails with "Invalid Empire data" exactly when the countdown is absent or there are no sightings; otherwise returns the best odds of reaching Endor, which lie in [0, 1] and are positive exactly when Endor can be reached in time |

## Left out

- Reading the JSON files and the exception wrapping around it (C3POService.py:38-44, 61-67). This is file I/O. The inputs are taken as parsed values. `None` stands for a JSON `null`. A missing key, which raises `KeyError` in the source, is not modelled. A JSON `null` for `bounty_hunters` makes the source's grouping loop raise `TypeError` (C3POService.py:70) before the validation at line 73. The model's list of sightings cannot be null, so that case is not modelled.
- Logging (`self.logger.debug`) and the logger service: side effects with no influence on results.
- `round(max_success_probability, 6)` and floating-point arithmetic. The model returns the exact real probability.
- C3PO.C3POService.GiveMeTheOdds: requires positive travel times, as does Odds.Search. The reference definition `Opt` is ranked by the day, so zero travel times are not modelled. In the source they end by pruning. With a negative travel time on a route the search uses, the source's search can run forever: each use lowers the day and raises the fuel, so no state repeats and none is pruned. Inputs whose negative routes the search never takes (unreachable from Tatooine, reachable only through Endor, or failing the fuel test) are excluded too, although the source ends on them.
- C3PO.C3POService.Create: Python truthiness is modelled only as "absent or 0" for autonomy and "absent or empty" for routes. Other falsy or ill-typed values are not modelled.
- The default dictionaries gain empty entries as a side effect of `self.graph[current_planet]` and `bounty_hunters[planet]`. `Lookup` and `HazardDays` read without inserting. This has no effect on the result.
- The exception class hierarchy (`JsonFileNotFound` is a subclass) appears only as a second constructor of the same error datatype. `isinstance` checks are not modelled.
- Errors.PathText: `str(file_path)` is modelled for a string path or `None` only.
- src/Containers.py, src/main.py and the abstract service interfaces are not part of this model. They are wiring, a command-line entry point and declarations without behaviour.
