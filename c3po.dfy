/** The C3PO service: validates the Millennium Falcon data, builds the route
    graph once, and answers the odds of reaching Endor for given Empire
    data (countdown and bounty hunter sightings). */
module C3PO {
  import opened Errors
  import opened Network
  import opened Odds

  /** One bounty hunter sighting: a planet and a day. */
  datatype Hunter = Hunter(planet: Planet, day: int)

  const InvalidFalconData: ApplicationError :=
    ApplicationError("Invalid Falcon data", "Missing 'autonomy' or 'routes' in the JSON file.")

  const InvalidEmpireData: ApplicationError :=
    ApplicationError("Invalid Empire data", "Missing 'countdown' or 'bounty_hunters' in the JSON file.")

  /** The planets with at least one sighting. */
  function HunterPlanets(hunters: seq<Hunter>): set<Planet>
  {
    set h | h in hunters :: h.planet
  }

  /** The days on which hunters are sighted on `p`. */
  function DaysOn(hunters: seq<Hunter>, p: Planet): set<int>
  {
    set h | h in hunters && h.planet == p :: h.day
  }

  /** The sightings grouped by planet. */
  function HunterMap(hunters: seq<Hunter>): Hunters
  {
    map p | p in HunterPlanets(hunters) :: DaysOn(hunters, p)
  }

  /** A day is hazardous on a planet exactly when some sighting names that
      planet and day. */
  lemma HazardDaysOfSightings(hunters: seq<Hunter>, p: Planet, d: int)
    ensures d in HazardDays(HunterMap(hunters), p) <==> Hunter(p, d) in hunters
  {
    if Hunter(p, d) in hunters {
      assert p in HunterPlanets(hunters);
    }
  }

  /** Sightings have set semantics: repeating a sighting changes nothing. */
  lemma DuplicateSighting(hunters: seq<Hunter>, h: Hunter)
    requires h in hunters
    ensures HunterMap(hunters + [h]) == HunterMap(hunters)
  {
    var more := hunters + [h];
    assert forall x :: x in more <==> x in hunters;
    assert HunterPlanets(more) == HunterPlanets(hunters);
    forall p | p in HunterPlanets(hunters)
      ensures DaysOn(more, p) == DaysOn(hunters, p)
    {
    }
  }

  /** The grouped sightings are empty exactly when there are no sightings. */
  lemma HunterMapEmpty(hunters: seq<Hunter>)
    ensures HunterMap(hunters) == map[] <==> hunters == []
  {
    if hunters != [] {
      assert hunters[0].planet in HunterPlanets(hunters);
      assert hunters[0].planet in HunterMap(hunters);
    }
  }

  /** Groups the sightings by planet, adding each day to its planet's set. */
  method CollectBountyHunters(hunters: seq<Hunter>) returns (grouped: Hunters)
    ensures grouped == HunterMap(hunters)
  {
    grouped := map[];
    for i := 0 to |hunters|
      invariant grouped == HunterMap(hunters[..i])
    {
      var h := hunters[i];
      ghost var before := grouped;
      grouped := grouped[h.planet := HazardDays(grouped, h.planet) + {h.day}];
      GroupStep(hunters, i, before, grouped);
    }
    assert hunters[..|hunters|] == hunters;
  }

  lemma GroupStep(hunters: seq<Hunter>, i: nat, before: Hunters, after: Hunters)
    requires i < |hunters|
    requires before == HunterMap(hunters[..i])
    requires after == before[hunters[i].planet := HazardDays(before, hunters[i].planet) + {hunters[i].day}]
    ensures after == HunterMap(hunters[..i + 1])
  {
    var prefix, h := hunters[..i + 1], hunters[i];
    assert prefix == hunters[..i] + [h];
    assert HunterPlanets(prefix) == HunterPlanets(hunters[..i]) + {h.planet};
    forall p | p in HunterPlanets(prefix)
      ensures after[p] == DaysOn(prefix, p)
    {
      if p == h.planet {
        assert DaysOn(prefix, p) == DaysOn(hunters[..i], p) + {h.day};
      } else {
        assert DaysOn(prefix, p) == DaysOn(hunters[..i], p);
      }
    }
  }

  /** The service: the Falcon's autonomy, its routes, and the adjacency map
      built from them once at construction. */
  class C3POService {
    const autonomy: int
    const routes: seq<Route>
    const graph: Graph

    /** Autonomy is non-zero, there is at least one route, and the graph is
        the adjacency map of the routes. */
    ghost predicate Valid()
    {
      autonomy != 0 && routes != [] &&
      (forall p :: Lookup(graph, p) == NeighboursOf(routes, p)) &&
      graph.Keys == Endpoints(routes)
    }

    /** Stores the validated Falcon data and builds the graph. */
    constructor(autonomy: int, routes: seq<Route>)
      requires autonomy != 0 && routes != []
      ensures this.autonomy == autonomy && this.routes == routes
      ensures Valid()
    {
      this.autonomy := autonomy;
      this.routes := routes;
      var g := BuildGraph(routes);
      this.graph := g;
    }

    /** Construction from the Falcon data as read: a missing or zero
        autonomy, or missing or empty routes, is an error; anything else
        yields a service. */
    static method Create(autonomy: Option<int>, routes: Option<seq<Route>>) returns (r: Result<C3POService>)
      ensures r.Err? <==> autonomy.None? || autonomy.value == 0 || routes.None? || routes.value == []
      ensures r.Err? ==> r.error == InvalidFalconData
      ensures r.Ok? ==>
        fresh(r.value) && r.value.Valid() && r.value.autonomy == autonomy.value && r.value.routes == routes.value
    {
      if autonomy.None? || autonomy.value == 0 || routes.None? || routes.value == [] {
        return Err(InvalidFalconData);
      }
      var service := new C3POService(autonomy.value, routes.value);
      return Ok(service);
    }

    /** The mission the search explores for the given Empire data. */
    function MissionFor(countdown: int, bountyHunters: seq<Hunter>): Mission
    {
      Mission(autonomy, graph, countdown, HunterMap(bountyHunters))
    }

    /** With positive route times the graph has positive edge times. */
    lemma GraphPositive()
      requires Valid() && PositiveTravelTimes(routes)
      ensures PositiveGraph(graph)
    {
      forall p, e | p in graph && e in graph[p]
        ensures e.travelTime > 0
      {
        assert graph[p] == Lookup(graph, p);
        PositiveEdges(routes, p);
      }
    }

    /** The odds of reaching Endor: a missing countdown or an empty list of
        sightings is an error; otherwise the result is the best probability
        of reaching Endor by the countdown, which is zero exactly when Endor
        cannot be reached in time. */
    method GiveMeTheOdds(countdown: Option<int>, bountyHunters: seq<Hunter>) returns (r: Result<real>)
      requires Valid() && PositiveTravelTimes(routes)
      ensures r.Err? <==> countdown.None? || bountyHunters == []
      ensures r.Err? ==> r.error == InvalidEmpireData
      ensures r.Ok? ==> PositiveGraph(graph)
      ensures r.Ok? ==>
        var m := MissionFor(countdown.value, bountyHunters);
        r.value == Opt(m, StartState(m)) && 0.0 <= r.value <= 1.0 &&
        (r.value > 0.0 <==> CanReach(m, StartState(m)))
    {
      var hunters := CollectBountyHunters(bountyHunters);
      HunterMapEmpty(bountyHunters);
      if countdown.None? || hunters == map[] {
        return Err(InvalidEmpireData);
      }
      var m := Mission(autonomy, graph, countdown.value, hunters);
      GraphPositive();
      var odds := Search(m);
      OptPositive(m, StartState(m));
      return Ok(odds);
    }
  }
}
