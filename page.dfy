/** What both variants of `render_community` take from a record for the page
    template, and how they read the coordinates. */
module Pages {
  import opened Values
  import opened Options

  /** The template arguments that come from the record. `lat` and `lon` are
      the values float() accepted; the float itself, the bounding box made
      from it (gen_bbox) and the time of rendering are not modelled. */
  datatype Page = Page(community: Json, url: Json, api: Json, lat: Json, lon: Json, validation: Json, content: string)

  /** float(v), with `isFloat` telling which strings Python reads as a float:
      a number or a bool converts, a string converts when it is a float
      literal and raises ValueError otherwise, anything else raises TypeError. */
  function ToFloat(v: Json, isFloat: string -> bool): (r: Result<Json>)
    ensures r.Ok? <==> v.JInt? || v.JBool? || v.JFloat? || (v.JStr? && isFloat(v.s))
    ensures r.Ok? ==> r.value == v
    ensures r.Err? && v.JStr? ==> r.error == ValueError
    ensures r.Err? && !v.JStr? ==> r.error == TypeError
  {
    match v
    case JInt(_) => Ok(v)
    case JBool(_) => Ok(v)
    case JFloat(_) => Ok(v)
    case JStr(s) => if isFloat(s) then Ok(v) else Err(ValueError)
    case _ => Err(TypeError)
  }

  /** `float(data['location'][k])`. */
  function Coordinate(fields: seq<Field>, k: string, isFloat: string -> bool): (r: Result<Json>)
    ensures r.Ok? ==> exists loc :: Lookup(fields, "location") == Some(loc) && Subscript(loc, k) == Ok(r.value)
    ensures "location" !in Keys(fields) ==> r == Err(KeyError(Name("location")))
  {
    match Lookup(fields, "location")
    case None => Err(KeyError(Name("location")))
    case Some(loc) =>
      match Subscript(loc, k)
      case Err(e) => Err(e)
      case Ok(x) => ToFloat(x, isFloat)
  }

  /** `latlon = (float(data['location']['lat']), float(data['location']['lon']))`. */
  function Coordinates(fields: seq<Field>, isFloat: string -> bool): Result<(Json, Json)>
  {
    match Coordinate(fields, "lat", isFloat)
    case Err(e) => Err(e)
    case Ok(lat) =>
      match Coordinate(fields, "lon", isFloat)
      case Err(e) => Err(e)
      case Ok(lon) => Ok((lat, lon))
  }

  /** The coordinates depend on the record only through its location. */
  lemma CoordinatesOfLocation(fields: seq<Field>, fields': seq<Field>, isFloat: string -> bool)
    requires Lookup(fields, "location") == Lookup(fields', "location")
    ensures Coordinates(fields, isFloat) == Coordinates(fields', isFloat)
  {
  }

  /** The first of `ks` that is not a key of the record: where reading them
      in order raises KeyError. */
  function FirstMissing(fields: seq<Field>, ks: seq<string>): (r: Option<string>)
    ensures r.None? <==> forall k :: k in ks ==> k in Keys(fields)
    ensures r.Some? ==> r.value in ks && r.value !in Keys(fields)
  {
    if ks == [] then None
    else if ks[0] !in Keys(fields) then assert ks[0] in ks; Some(ks[0])
    else
      assert forall k :: k in ks <==> k == ks[0] || k in ks[1..];
      FirstMissing(fields, ks[1..])
  }
}
