/**
 * The in-memory route repository: an ordered, append-only list of route
 * references held for the life of the process.
 */
module InMemoryRepository {
  import opened RouteEntity

  /** No two routes in the list share an id. */
  predicate DistinctIds(routes: seq<Route>) {
    forall i, j :: 0 <= i < j < |routes| ==> routes[i].id != routes[j].id
  }

  class RouteInMemoryRepository {
    var items: seq<Route>

    /** A new repository holds no routes. */
    constructor ()
      ensures items == []
    {
      items := [];
    }

    /** Appends the route at the end. Nothing is removed or reordered, and
        nothing is deduplicated: the list always grows by one. */
    method Insert(route: Route)
      modifies this
      ensures items == old(items) + [route]
      ensures |items| == |old(items)| + 1 && items[|items| - 1] == route
    {
      items := items + [route];
    }

    /** The stored routes themselves, in insertion order; reading them
        changes nothing. */
    method FindAll() returns (routes: seq<Route>)
      ensures routes == items
    {
      routes := items;
    }
  }

  /** On a fresh repository, inserting a route and then listing yields that
      route alone. */
  method InsertThenFindAll(route: Route) returns (routes: seq<Route>)
    ensures routes == [route]
  {
    var repository := new RouteInMemoryRepository();
    repository.Insert(route);
    routes := repository.FindAll();
  }

  /** Inserting the same route twice stores it twice. */
  method InsertTwiceThenFindAll(route: Route) returns (routes: seq<Route>)
    ensures routes == [route, route]
  {
    var repository := new RouteInMemoryRepository();
    repository.Insert(route);
    repository.Insert(route);
    routes := repository.FindAll();
  }
}
