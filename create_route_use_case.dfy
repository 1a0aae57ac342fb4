/**
 * Creating a route: build the entity from the input (always with a freshly
 * generated id), store it, and answer with its snapshot.
 */
module CreateRoute {
  import opened RouteEntity
  import opened InMemoryRepository

  class CreateRouteUseCase {
    const routeRepo: RouteInMemoryRepository

    constructor (routeRepo: RouteInMemoryRepository)
      ensures this.routeRepo == routeRepo
    {
      this.routeRepo := routeRepo;
    }

    /** `generatedId` is the value of the random-UUID generator for this call.
        The repository gains exactly one route, at the end: a new one whose
        snapshot is the output. The output echoes the input, carries the
        generated id, and always has `points` (empty when omitted). No
        validation error can arise. When the generated id is not already
        stored, distinct ids stay distinct. */
    method Execute(input: RouteProps, generatedId: string) returns (output: RouteJson)
      requires generatedId != ""
      modifies routeRepo
      ensures |routeRepo.items| == |old(routeRepo.items)| + 1
      ensures routeRepo.items[..|old(routeRepo.items)|] == old(routeRepo.items)
      ensures fresh(routeRepo.items[|routeRepo.items| - 1])
      ensures routeRepo.items[|routeRepo.items| - 1].ToJson() == output
      ensures output == RouteJson(generatedId, input.title, input.startPosition, input.endPosition,
                                  if input.points.Some? then input.points.value else [])
      ensures DistinctIds(old(routeRepo.items))
              && (forall i :: 0 <= i < |old(routeRepo.items)| ==> old(routeRepo.items)[i].id != generatedId)
              ==> DistinctIds(routeRepo.items)
    {
      var route := new Route(input, None, generatedId);
      routeRepo.Insert(route);
      output := route.ToJson();
    }
  }

  /** Creating a route on a new repository, as a client sees it: one route is
      stored, the output is its snapshot and carries its id, the coordinates
      are the ones given, and omitted points come back as the empty list. */
  method CreateOnEmptyRepository(input: RouteProps, generatedId: string)
    returns (output: RouteJson, items: seq<Route>)
    requires generatedId != ""
    ensures |items| == 1 && output == items[0].ToJson()
    ensures output.id == items[0].id == generatedId && output.title == input.title
    ensures output.startPosition == input.startPosition && output.endPosition == input.endPosition
    ensures input.points.None? ==> output.points == []
  {
    var repository := new RouteInMemoryRepository();
    var createUseCase := new CreateRouteUseCase(repository);
    output := createUseCase.Execute(input, generatedId);
    items := repository.items;
  }
}
