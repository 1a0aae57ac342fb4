/**
 * The Route aggregate: an immutable identifier and four mutable properties
 * (title, start and end coordinates, waypoints). Construction copies its
 * input without checking it; only the three update operations validate, and
 * a failed update changes nothing.
 */
module RouteEntity {
  import opened JsValues

  datatype Option<T> = None | Some(value: T)

  /** A coordinate pair. The source's numbers are only stored and returned,
      never computed with, so integers stand for them. */
  datatype LatLng = LatLng(lat: int, lng: int)

  /** The properties a route is built from; `points` may be omitted. */
  datatype RouteProps = RouteProps(
    title: string,
    startPosition: LatLng,
    endPosition: LatLng,
    points: Option<seq<LatLng>>)

  /** The plain snapshot `toJSON` produces: the id followed by every property. */
  datatype RouteJson = RouteJson(
    id: string,
    title: string,
    startPosition: LatLng,
    endPosition: LatLng,
    points: seq<LatLng>)

  /** What an update operation ends with: success, or the validation error
      it throws, carrying that error's message. */
  datatype Outcome = Ok | Error(message: string)

  const EmptyTitleMessage: string := "O título da rota não pode ser vazio."
  const InvalidPositionMessage: string := "Coordenadas inválidas para a posição de início ou fim."
  const InvalidPointsMessage: string := "Os pontos devem ser um array de coordenadas LatLng válidas."

  /** `isValidLatLng`: the value is truthy and both its `lat` and its `lng`
      property have type "number". That holds exactly of objects that carry
      numeric `lat` and `lng` fields; null, undefined, primitives, arrays and
      objects missing either field (or holding a non-number there) fail. */
  function IsValidLatLng(v: Value): (r: bool)
    ensures r <==> v.Obj? && "lat" in v.fields && v.fields["lat"].Num?
                          && "lng" in v.fields && v.fields["lng"].Num?
  {
    Truthy(v) && TypeOf(Prop(v, "lat")) == "number" && TypeOf(Prop(v, "lng")) == "number"
  }

  /** `Array.prototype.every` with `isValidLatLng` as the callback: scans from
      the front and stops at the first element that fails. */
  function Every(s: seq<Value>): (r: bool)
    ensures r <==> forall i :: 0 <= i < |s| ==> IsValidLatLng(s[i])
  {
    |s| == 0 || (IsValidLatLng(s[0]) && Every(s[1..]))
  }

  /** `isValidLatLngArray`: the value is an array and every element is a valid
      coordinate; in particular the empty array is valid. */
  function IsValidLatLngArray(v: Value): (r: bool)
    ensures r <==> v.Arr? && forall i :: 0 <= i < |v.elems| ==> IsValidLatLng(v.elems[i])
    ensures v == Arr([]) ==> r
  {
    v.Arr? && Every(v.elems)
  }

  /** The coordinate a valid value denotes: the numbers its `lat` and `lng`
      properties hold. */
  function ToLatLng(v: Value): (p: LatLng)
    requires IsValidLatLng(v)
    ensures Prop(v, "lat") == Num(p.lat) && Prop(v, "lng") == Num(p.lng)
  {
    LatLng(Prop(v, "lat").n, Prop(v, "lng").n)
  }

  /** The coordinates a valid array denotes, element by element and in order. */
  function ToLatLngs(s: seq<Value>): (ps: seq<LatLng>)
    requires forall i :: 0 <= i < |s| ==> IsValidLatLng(s[i])
    ensures |ps| == |s|
    ensures forall i :: 0 <= i < |s| ==> Prop(s[i], "lat") == Num(ps[i].lat) && Prop(s[i], "lng") == Num(ps[i].lng)
  {
    seq(|s|, i requires 0 <= i < |s| => ToLatLng(s[i]))
  }

  /** The JSON object `{lat, lng}` a coordinate is written as; reading it back
      passes the check and yields the same coordinate. */
  function FromLatLng(p: LatLng): (v: Value)
    ensures IsValidLatLng(v) && ToLatLng(v) == p
  {
    Obj(map["lat" := Num(p.lat), "lng" := Num(p.lng)])
  }

  /** The JSON array a waypoint list is written as; it passes the array check
      and reads back as the same list. */
  function FromLatLngs(ps: seq<LatLng>): (v: Value)
    ensures IsValidLatLngArray(v) && |v.elems| == |ps|
    ensures ToLatLngs(v.elems) == ps
  {
    Arr(seq(|ps|, i requires 0 <= i < |ps| => FromLatLng(ps[i])))
  }

  /** A route. `id` is a constant: it is set once, by the constructor, and no
      method can change it. The four properties are public to read and are
      changed only by the three update methods. */
  class Route {
    const id: string
    var title: string
    var startPosition: LatLng
    var endPosition: LatLng
    var points: seq<LatLng>

    /** `generatedId` is what the random-UUID generator would return; it is
        used only when no id, or an empty one, is given. No property is
        validated, and omitted points become the empty list. */
    constructor (props: RouteProps, id: Option<string>, generatedId: string)
      requires generatedId != ""
      ensures id.Some? && id.value != "" ==> this.id == id.value
      ensures id.None? || id.value == "" ==> this.id == generatedId
      ensures this.id != ""
      ensures title == props.title
      ensures startPosition == props.startPosition && endPosition == props.endPosition
      ensures points == (if props.points.Some? then props.points.value else [])
    {
      this.id := if id.Some? && id.value != "" then id.value else generatedId;
      title := props.title;
      startPosition := props.startPosition;
      endPosition := props.endPosition;
      points := if props.points.Some? then props.points.value else [];
    }

    /** `toJSON`: the id followed by the current title, positions and points,
        as a value. It only reads the route, so two calls with no update in
        between agree. */
    function ToJson(): (j: RouteJson)
      reads this
      ensures j.id == id && j.title == title
      ensures j.startPosition == startPosition && j.endPosition == endPosition
      ensures j.points == points
    {
      RouteJson(id, title, startPosition, endPosition, points)
    }

    /** Fails, changing nothing, exactly when the new title is empty;
        otherwise replaces the title and nothing else. */
    method UpdateTitle(title: string) returns (outcome: Outcome)
      modifies this
      ensures outcome.Ok? <==> title != ""
      ensures outcome.Error? ==> outcome.message == EmptyTitleMessage && ToJson() == old(ToJson())
      ensures outcome.Ok? ==> ToJson() == old(ToJson()).(title := title)
      ensures old(this.title) != "" ==> this.title != ""
    {
      if title == "" {
        return Error(EmptyTitleMessage);
      }
      this.title := title;
      outcome := Ok;
    }

    /** Fails, changing neither position, when either argument is not a valid
        coordinate; otherwise sets both and leaves title and points alone. */
    method UpdatePosition(startPosition: Value, endPosition: Value) returns (outcome: Outcome)
      modifies this
      ensures outcome.Ok? <==> IsValidLatLng(startPosition) && IsValidLatLng(endPosition)
      ensures outcome.Error? ==> outcome.message == InvalidPositionMessage && ToJson() == old(ToJson())
      ensures outcome.Ok? ==> ToJson() == old(ToJson()).(startPosition := ToLatLng(startPosition),
                                                           endPosition := ToLatLng(endPosition))
    {
      if !IsValidLatLng(startPosition) || !IsValidLatLng(endPosition) {
        return Error(InvalidPositionMessage);
      }
      this.startPosition := ToLatLng(startPosition);
      this.endPosition := ToLatLng(endPosition);
      outcome := Ok;
    }

    /** Fails, changing nothing, unless the argument is an array of valid
        coordinates (the empty array included); otherwise replaces the
        waypoints wholesale and leaves the other properties alone. */
    method UpdatePoints(points: Value) returns (outcome: Outcome)
      modifies this
      ensures outcome.Ok? <==> IsValidLatLngArray(points)
      ensures outcome.Error? ==> outcome.message == InvalidPointsMessage && ToJson() == old(ToJson())
      ensures outcome.Ok? ==> ToJson() == old(ToJson()).(points := ToLatLngs(points.elems))
    {
      if !IsValidLatLngArray(points) {
        return Error(InvalidPointsMessage);
      }
      this.points := ToLatLngs(points.elems);
      outcome := Ok;
    }
  }

  /** Rebuilding a route from its snapshot, passing the snapshot's id
      explicitly, gives a route with the same snapshot: the id is taken
      verbatim and every property is copied back. */
  method RebuildFromSnapshot(route: Route, generatedId: string) returns (copy: Route)
    requires generatedId != ""
    ensures route.id != "" ==> copy.ToJson() == route.ToJson()
  {
    var j := route.ToJson();
    copy := new Route(RouteProps(j.title, j.startPosition, j.endPosition, Some(j.points)), Some(j.id), generatedId);
  }
}
