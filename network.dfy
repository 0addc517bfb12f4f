/** The route network of the Millennium Falcon: undirected routes between
    planets, turned into an adjacency map from a planet to the ordered list
    of its neighbours with their travel times. */
module Network {

  type Planet = string

  /** One route of the network document; travel times are in days. */
  datatype Route = Route(origin: Planet, destination: Planet, travelTime: int)

  /** One entry of a planet's neighbour list. */
  datatype Edge = Edge(neighbour: Planet, travelTime: int)

  type Graph = map<Planet, seq<Edge>>

  /** Neighbour lookup with default-dictionary semantics: a planet that is
      not a key has no neighbours. */
  function Lookup(graph: Graph, p: Planet): (edges: seq<Edge>)
    ensures p !in graph ==> edges == []
  {
    if p in graph then graph[p] else []
  }

  /** The edges one route contributes to planet `p`'s list: the forward
      direction first, then the reverse one. */
  function EdgesFrom(r: Route, p: Planet): seq<Edge>
  {
    (if r.origin == p then [Edge(r.destination, r.travelTime)] else [])
    + (if r.destination == p then [Edge(r.origin, r.travelTime)] else [])
  }

  /** The neighbour list of `p` after registering `routes` in order. */
  function NeighboursOf(routes: seq<Route>, p: Planet): seq<Edge>
  {
    if routes == [] then []
    else NeighboursOf(routes[..|routes| - 1], p) + EdgesFrom(routes[|routes| - 1], p)
  }

  /** Every planet named by some route. */
  function Endpoints(routes: seq<Route>): set<Planet>
  {
    if routes == [] then {}
    else Endpoints(routes[..|routes| - 1]) + {routes[|routes| - 1].origin, routes[|routes| - 1].destination}
  }

  predicate PositiveTravelTimes(routes: seq<Route>)
  {
    forall r :: r in routes ==> r.travelTime > 0
  }

  /** Builds the adjacency map: each route is appended to its origin's list
      and, reversed, to its destination's list. */
  method BuildGraph(routes: seq<Route>) returns (graph: Graph)
    ensures forall p :: Lookup(graph, p) == NeighboursOf(routes, p)
    ensures graph.Keys == Endpoints(routes)
  {
    graph := map[];
    for i := 0 to |routes|
      invariant forall p :: Lookup(graph, p) == NeighboursOf(routes[..i], p)
      invariant graph.Keys == Endpoints(routes[..i])
    {
      var r := routes[i];
      ghost var before := graph;
      graph := graph[r.origin := Lookup(graph, r.origin) + [Edge(r.destination, r.travelTime)]];
      ghost var mid := graph;
      graph := graph[r.destination := Lookup(graph, r.destination) + [Edge(r.origin, r.travelTime)]];
      forall p
        ensures Lookup(graph, p) == NeighboursOf(routes[..i + 1], p)
      {
        RegisterRoute(routes, i, before, mid, graph, p);
      }
      RegisterRouteKeys(routes, i, before, graph);
    }
    assert routes[..|routes|] == routes;
  }

  /** Appending edge `e` to planet `p`'s list changes no other list. */
  lemma Appended(graph: Graph, p: Planet, e: Edge, q: Planet)
    ensures Lookup(graph[p := Lookup(graph, p) + [e]], q) == Lookup(graph, q) + (if q == p then [e] else [])
  {
  }

  /** One step of the graph construction, for one planet: appending route
      `i` to its two endpoints' lists extends `p`'s list for the first `i`
      routes to its list for the first `i + 1`. */
  lemma RegisterRoute(routes: seq<Route>, i: nat, before: Graph, mid: Graph, after: Graph, p: Planet)
    requires i < |routes|
    requires Lookup(before, p) == NeighboursOf(routes[..i], p)
    requires mid == before[routes[i].origin := Lookup(before, routes[i].origin) + [Edge(routes[i].destination, routes[i].travelTime)]]
    requires after == mid[routes[i].destination := Lookup(mid, routes[i].destination) + [Edge(routes[i].origin, routes[i].travelTime)]]
    ensures Lookup(after, p) == NeighboursOf(routes[..i + 1], p)
  {
    var r := routes[i];
    assert routes[..i + 1][..i] == routes[..i];
    Appended(before, r.origin, Edge(r.destination, r.travelTime), p);
    Appended(mid, r.destination, Edge(r.origin, r.travelTime), p);
  }

  /** The same step for the set of planets with a list. */
  lemma RegisterRouteKeys(routes: seq<Route>, i: nat, before: Graph, after: Graph)
    requires i < |routes|
    requires before.Keys == Endpoints(routes[..i])
    requires after.Keys == before.Keys + {routes[i].origin, routes[i].destination}
    ensures after.Keys == Endpoints(routes[..i + 1])
  {
    assert routes[..i + 1][..i] == routes[..i];
  }

  /** Registering two lists of routes one after the other gives each planet
      the neighbours from the first list followed by those from the second:
      route order is kept. */
  lemma {:induction false} NeighboursOfAppend(a: seq<Route>, b: seq<Route>, p: Planet)
    ensures NeighboursOf(a + b, p) == NeighboursOf(a, p) + NeighboursOf(b, p)
    decreases |b|
  {
    if b == [] {
      assert a + b == a;
    } else {
      var b' := b[..|b| - 1];
      assert (a + b)[..|a + b| - 1] == a + b';
      assert (a + b)[|a + b| - 1] == b[|b| - 1];
      NeighboursOfAppend(a, b', p);
    }
  }

  /** A single route gives its origin the destination and its destination
      the origin, both with the route's travel time. */
  lemma SingleRoute(r: Route, p: Planet)
    ensures NeighboursOf([r], p) == EdgesFrom(r, p)
  {
    assert [r][..0] == [];
  }

  /** Route `r` joins `p` to `e.neighbour`, in either direction, with
      `e`'s travel time. */
  predicate Joins(r: Route, p: Planet, e: Edge)
  {
    r.travelTime == e.travelTime &&
    ((r.origin == p && r.destination == e.neighbour) ||
     (r.destination == p && r.origin == e.neighbour))
  }

  /** Some route of `routes` joins `p` to `e.neighbour` with `e`'s time. */
  predicate JoinedBy(routes: seq<Route>, p: Planet, e: Edge)
  {
    exists i :: 0 <= i < |routes| && Joins(routes[i], p, e)
  }

  lemma JoinedBySnoc(routes: seq<Route>, p: Planet, e: Edge)
    requires routes != []
    ensures JoinedBy(routes, p, e) <==>
      JoinedBy(routes[..|routes| - 1], p, e) || Joins(routes[|routes| - 1], p, e)
  {
    var n := |routes| - 1;
    var prefix := routes[..n];
    if JoinedBy(routes, p, e) {
      var i :| 0 <= i < |routes| && Joins(routes[i], p, e);
      if i < n {
        assert prefix[i] == routes[i];
      }
    }
    if JoinedBy(prefix, p, e) {
      var i :| 0 <= i < |prefix| && Joins(prefix[i], p, e);
      assert routes[i] == prefix[i];
    }
  }

  /** An edge is in a planet's list exactly when some route joins the two
      planets, in either direction, with that travel time. */
  lemma {:induction false} NeighbourMembership(routes: seq<Route>, p: Planet, e: Edge)
    ensures e in NeighboursOf(routes, p) <==> exists i :: 0 <= i < |routes| && Joins(routes[i], p, e)
    decreases |routes|
  {
    if routes != [] {
      var n := |routes| - 1;
      NeighbourMembership(routes[..n], p, e);
      JoinedBySnoc(routes, p, e);
      assert e in EdgesFrom(routes[n], p) <==> Joins(routes[n], p, e);
    }
  }

  /** The adjacency is symmetric: `q` lists `p` exactly when `p` lists `q`,
      with the same travel time. */
  lemma Symmetric(routes: seq<Route>, p: Planet, q: Planet, t: int)
    ensures Edge(q, t) in NeighboursOf(routes, p) <==> Edge(p, t) in NeighboursOf(routes, q)
  {
    NeighbourMembership(routes, p, Edge(q, t));
    NeighbourMembership(routes, q, Edge(p, t));
  }

  /** A planet that no route names has an empty neighbour list, and a planet
      that some route names has a non-empty one. */
  lemma {:induction false} IsolatedPlanet(routes: seq<Route>, p: Planet)
    ensures NeighboursOf(routes, p) == [] <==> p !in Endpoints(routes)
    decreases |routes|
  {
    if routes != [] {
      IsolatedPlanet(routes[..|routes| - 1], p);
    }
  }

  /** Each route adds at most two edges to a planet's list. */
  lemma {:induction false} DegreeBound(routes: seq<Route>, p: Planet)
    ensures |NeighboursOf(routes, p)| <= 2 * |routes|
    decreases |routes|
  {
    if routes != [] {
      DegreeBound(routes[..|routes| - 1], p);
    }
  }

  /** Edges inherit the travel times of the routes, so positive route times
      give positive edge times. */
  lemma PositiveEdges(routes: seq<Route>, p: Planet)
    requires PositiveTravelTimes(routes)
    ensures forall e :: e in NeighboursOf(routes, p) ==> e.travelTime > 0
  {
    forall e | e in NeighboursOf(routes, p)
      ensures e.travelTime > 0
    {
      NeighbourMembership(routes, p, e);
    }
  }
}
