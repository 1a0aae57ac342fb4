/**
 * Listing routes: read every stored route and answer with their snapshots,
 * in the repository's order.
 */
module ListAllRoutes {
  import opened RouteEntity
  import opened InMemoryRepository
  import CreateRoute

  class ListAllRoutesUseCase {
    const routeRepo: RouteInMemoryRepository

    constructor (routeRepo: RouteInMemoryRepository)
      ensures this.routeRepo == routeRepo
    {
      this.routeRepo := routeRepo;
    }

    /** One snapshot per stored route, position by position; an empty
        repository gives an empty list. The repository is only read. */
    method Execute() returns (output: seq<RouteJson>)
      ensures |output| == |routeRepo.items|
      ensures forall i :: 0 <= i < |output| ==> output[i] == routeRepo.items[i].ToJson()
    {
      var routes := routeRepo.FindAll();
      output := seq(|routes|, i requires 0 <= i < |routes| reads routes => routes[i].ToJson());
    }
  }

  /** Both use cases share one repository, as the HTTP layer wires them:
      creating a route and then listing answers with the earlier listing
      followed by the snapshot the creation returned. */
  method CreateThenList(repository: RouteInMemoryRepository, input: RouteProps, generatedId: string)
    returns (before: seq<RouteJson>, created: RouteJson, after: seq<RouteJson>)
    requires generatedId != ""
    modifies repository
    ensures |before| == |old(repository.items)|
    ensures forall i :: 0 <= i < |before| ==> before[i] == old(repository.items[i].ToJson())
    ensures created == RouteJson(generatedId, input.title, input.startPosition, input.endPosition,
                                 if input.points.Some? then input.points.value else [])
    ensures after == before + [created]
  {
    var list := new ListAllRoutesUseCase(repository);
    var create := new CreateRoute.CreateRouteUseCase(repository);
    before := list.Execute();
    created := create.Execute(input, generatedId);
    after := list.Execute();
  }
}
