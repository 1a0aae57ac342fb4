# Route management core, modelled in Dafny

This project models the domain and application layers of a small
route-management service. A route has:

- an immutable `id`;
- a title;
- start and end coordinates (`LatLng`);
- an ordered list of waypoints (`points`).

Routes are created through the create-route use case and kept in an
in-memory repository. The list-all-routes use case returns a snapshot of
every stored route.

Files, one module each:

- `js_values.dfy` (`JsValues`): the untyped JavaScript values that reach the
  update operations. It models truthiness, `typeof` and property lookup,
  which are what the coordinate checks use.
- `route_entity.dfy` (`RouteEntity`): the `Route` class (`const id` plus
  four mutable fields) and its constructor. Also the three guarded update
  methods, each returning `Ok` or `Error(message)` in place of throwing,
  the two validation predicates and `ToJson`. The public getters are the
  class's readable fields. The private setters are the assignments inside
  the update methods.
- `route_in_memory_repository.dfy` (`InMemoryRepository`): the repository
  as a class over `seq<Route>`, with `Insert` and `FindAll`.
- `create_route_use_case.dfy` (`CreateRoute`) and
  `list_all_routes_use_case.dfy` (`ListAllRoutes`): the two use cases.
  Each holds the repository it is given.

Random UUID generation is a foreign call. It is modelled as a
`generatedId: string` parameter that is required to be non-empty. Where
ids must stay unique, freshness of that value is an explicit hypothesis.

Two points where the repository's own files disagree:

- The create-route test passes the coordinates `{lat: 4, lng: 6}` and
  `{lat: 8, lng: 9}` but expects `{lat: 1, lng: 2}` and `{lat: 3, lng: 4}`
  back. The code copies its input, and the model follows the code:
  `CreateRoute.CreateOnEmptyRepository` proves that the coordinates are
  echoed.
- The list use case's declared output type names the waypoint field
  `paths`. That name is only a type annotation: at runtime the snapshots
  carry `points`, as modelled.

## Model

| member | source | states |
|---|---|---|
| `RouteEntity.IsValidLatLng` | src/domain/route.entity.ts:77-79 | The JavaScript test (truthy value, `typeof lat` and `typeof lng` both "number") holds exactly of objects with numeric `lat` and `lng` fields. Null, undefined, primitives, arrays and objects missing a field or holding a non-number fail. |
| `RouteEntity.Every` | src/domain/route.entity.ts:87 | The short-circuit `every` scan with `isValidLatLng` as callback is true exactly when every element is a valid coordinate. |
| `RouteEntity.IsValidLatLngArray` | src/domain/route.entity.ts:86-88 | Holds exactly when the value is an array whose every element is a valid coordinate. The empty array is valid. |
| `RouteEntity.ToLatLng` | src/domain/route.entity.ts:55-56 | The coordinate stored from a valid value is the one its `lat` and `lng` properties hold. |
| `RouteEntity.ToLatLngs` | src/domain/route.entity.ts:69 | The waypoints stored from a valid array have the same length and order, and each matches the corresponding element's `lat` and `lng`. |
| `RouteEntity.FromLatLng` | src/domain/route.entity.ts:4 | The JSON object for a coordinate passes `isValidLatLng` and reads back as the same coordinate (round trip). |
| `RouteEntity.FromLatLngs` | src/domain/route.entity.ts:86-88 | The JSON array for a waypoint list passes `isValidLatLngArray` and reads back as the same list (round trip). |
| `RouteEntity.Route.constructor` | src/domain/route.entity.ts:24-30 | A non-empty given id is used verbatim. An absent or empty id is replaced by the generated one, so the id is never empty. The title is copied unvalidated and may be empty. Positions and points are typed here and copied as given. Points are the given list, or empty when omitted. |
| `RouteEntity.Route.ToJson` | src/domain/route.entity.ts:128-133 | The snapshot holds the id, then the current title, start and end positions and points. As a `reads this` function it changes nothing, so two calls on an unmodified route agree. |
| `RouteEntity.RebuildFromSnapshot` | src/domain/route.entity.ts:24-30 | Constructing a route from a snapshot's properties with the snapshot's (non-empty) id reproduces that snapshot: `toJSON` and the constructor are inverse. |
| `RouteEntity.Route.UpdateTitle` | src/domain/route.entity.ts:37-42 | Fails exactly when the title is empty, with the empty-title message and no change to the route. Otherwise only the title changes. A non-empty title stays non-empty. |
| `RouteEntity.Route.UpdatePosition` | src/domain/route.entity.ts:50-57 | Succeeds exactly when both arguments are valid coordinates. On failure neither position changes. On success both are set and id, title and points are unchanged. |
| `RouteEntity.Route.UpdatePoints` | src/domain/route.entity.ts:64-70 | Succeeds exactly when the argument is an array of valid coordinates. On failure nothing changes. On success the points are replaced wholesale and nothing else changes. |
| `InMemoryRepository.RouteInMemoryRepository.constructor` | src/infra/db/route-in-memory.repository.ts:7 | A new repository holds no routes. |
| `InMemoryRepository.RouteInMemoryRepository.Insert` | src/infra/db/route-in-memory.repository.ts:10-13 | The new item list is the old one with the route appended. Nothing is removed, reordered or deduplicated, and the length grows by one. |
| `InMemoryRepository.RouteInMemoryRepository.FindAll` | src/infra/db/route-in-memory.repository.ts:16-19 | Returns exactly the stored routes in insertion order and modifies nothing. |
| `InMemoryRepository.InsertThenFindAll` | src/infra/db/route-in-memory.repository.spec.ts:12-15 | On a new repository, inserting R and then listing yields `[R]`. |
| `InMemoryRepository.InsertTwiceThenFindAll` | src/infra/db/route-in-memory.repository.ts:10-13 | Inserting the same route twice stores it twice, because there is no deduplication. |
| `CreateRoute.CreateRouteUseCase.constructor` | src/application/create-route.use-case.ts:12 | The use case holds the repository it is given. |
| `CreateRoute.CreateRouteUseCase.Execute` | src/application/create-route.use-case.ts:19-23 | The repository gains exactly one item, a new route at the end. Earlier items are untouched. The output is that route's snapshot: generated id, input title and positions, and points (empty when omitted). No validation error is possible. Distinct ids stay distinct when the generated id is fresh. |
| `CreateRoute.CreateOnEmptyRepository` | src/application/create-route.use-case.spec.ts:7-21 | On a new repository: exactly one item, the output's id is that item's id, the coordinates are the input's, and omitted points come back empty. |
| `ListAllRoutes.ListAllRoutesUseCase.constructor` | src/application/list-all-routes.use-case.ts:12 | The use case holds the repository it is given. |
| `ListAllRoutes.ListAllRoutesUseCase.Execute` | src/application/list-all-routes.use-case.ts:18-21 | One output per stored route, with `output[i]` equal to the i-th route's snapshot, so order is kept. An empty repository gives an empty list. The repository is only read. |
| `ListAllRoutes.CreateThenList` | src/infra/http/express/index.ts:16-36 | With one repository shared by both use cases: the first listing is the snapshots of the routes stored before. The creation returns the generated id with the input echoed (points empty when omitted). The later listing is the first one followed by the created snapshot. |

## Left out

- The repository interface (`RouteRepositoryInterface`, defined in `src/domain/route.repository`) is not part of this model. It is not an abstraction here: both use cases take the in-memory repository class directly.
- Asynchrony: `insert`, `findAll` and both `execute` methods return promises in the source. They are ordinary sequential methods here, and interleaving of concurrent requests is not modelled.
- `InMemoryRepository.RouteInMemoryRepository.FindAll` returns the item list as a value. The source returns the live `items` array itself, so a caller that pushes to or splices the result changes the store. Neither use case does this, and that aliasing is not modelled.
- Random UUID generation: it is a caller-supplied non-empty `generatedId`. Uniqueness across routes is a hypothesis in `CreateRoute.CreateRouteUseCase.Execute`, not a proof about UUIDs.
- `RouteEntity.Route.UpdatePosition` and `RouteEntity.Route.UpdatePoints` store typed coordinates built from the validated values. The source stores the argument objects themselves, including any extra keys and with shared references.
- `RouteEntity.Route.ToJson` is a value copy. The source's spread shares the position and points objects with the entity.
- `RouteEntity.Route.constructor` takes typed positions and an optional typed point list. In the source, a request body reaches the constructor unchecked (`src/infra/http/express/index.ts:36`, `src/application/create-route.use-case.ts:20`), so `startPosition: null`, `{lat: "x"}` or `points: "abc"` are stored and later listed. Also, `points: null`, `0` or `""` become `[]` through `||`. Only the title half of the asymmetry between unchecked construction and validated updates is modelled: an empty title is accepted at construction.
- Extra untyped keys in the construction input: the source copies them into the properties, and a key named `id` would override the id in `toJSON`. They are not modelled.
- `RouteEntity.Route.UpdateTitle` takes a string, so only the empty string is falsy. Non-string titles, which the source would also reject when falsy, are not modelled.
- Coordinates are integers. Floating point, NaN (whose `typeof` is also "number") and sparse arrays are not modelled.
- The Express wiring: routing, JSON body parsing, status codes, the `PORT` variable and `listen` are I/O. Only the sharing of one repository by both use cases is kept, in `ListAllRoutes.CreateThenList`.
