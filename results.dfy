/** How the handler turns the Overpass answer into its payload
    (app.js:197-211): keep the first `limit` elements in order and map each
    to a hospital record. JSON values are modelled as they are in
    JavaScript after parsing; `None` stands for `undefined`. */
module HospitalsResult {
  import opened Wrappers

  datatype Json =
    | Null
    | Bool(b: bool)
    | Num(n: real)
    | Str(s: string)
    | Arr(items: seq<Json>)
    | Obj(fields: map<string, Json>)

  /** JavaScript truthiness of a possibly undefined value. */
  predicate Truthy(v: Option<Json>)
  {
    match v
    case None => false
    case Some(Null) => false
    case Some(Bool(b)) => b
    case Some(Num(n)) => n != 0.0
    case Some(Str(s)) => s != ""
    case Some(_) => true
  }

  /** `v` is `null` or `undefined`. */
  predicate Nullish(v: Option<Json>)
  {
    v.None? || v == Some(Null)
  }

  /** `v?.key` for one of the plain property names the handler reads: nothing
      on `null`/`undefined`, the field of an object, `undefined` otherwise. */
  function Get(v: Option<Json>, key: string): Option<Json>
  {
    match v
    case Some(Obj(fields)) => if key in fields then Some(fields[key]) else None
    case _ => None
  }

  /** `a || b` */
  function Or(a: Option<Json>, b: Option<Json>): Option<Json>
  {
    if Truthy(a) then a else b
  }

  /** `a ?? b` */
  function Coalesce(a: Option<Json>, b: Option<Json>): Option<Json>
  {
    if Nullish(a) then b else a
  }

  /** One record of the `hospitals` list; `None` fields are left out of the
      JSON the server sends. */
  datatype Hospital = Hospital(
    name: Option<Json>,
    lat: Option<Json>,
    lon: Option<Json>,
    tags: Option<Json>,
    osmType: Option<Json>,
    osmId: Option<Json>)

  /** The mapping applied to each element `el` (not `null`). */
  function ToHospital(el: Json): Hospital
  {
    var e := Some(el);
    var tags := Get(e, "tags");
    Hospital(
      name := Or(Or(Get(tags, "name"), Get(tags, "name:en")), Some(Null)),
      lat := Coalesce(Coalesce(Get(e, "lat"), Get(Get(e, "center"), "lat")), Some(Null)),
      lon := Coalesce(Coalesce(Get(e, "lon"), Get(Get(e, "center"), "lon")), Some(Null)),
      tags := Or(tags, Some(Obj(map[]))),
      osmType := Get(e, "type"),
      osmId := Get(e, "id"))
  }

  /** The name is the first truthy of `tags.name` and `tags["name:en"]`, and
      `null` when both are falsy: an empty name falls through. */
  lemma NameFallsBackOnFalsy(el: Json)
    ensures var tags := Get(Some(el), "tags");
            var h := ToHospital(el);
            && (Truthy(Get(tags, "name")) ==> h.name == Get(tags, "name"))
            && (!Truthy(Get(tags, "name")) && Truthy(Get(tags, "name:en")) ==> h.name == Get(tags, "name:en"))
            && (!Truthy(Get(tags, "name")) && !Truthy(Get(tags, "name:en")) ==> h.name == Some(Null))
            && (h.name == Some(Null) || Truthy(h.name))
  {
  }

  /** A coordinate is the element's own value unless that is null or
      undefined, then its centre's, then `null`; a 0 is kept. */
  lemma CoordinatesFallBackOnNullish(el: Json)
    ensures var e := Some(el);
            var h := ToHospital(el);
            && (!Nullish(Get(e, "lat")) ==> h.lat == Get(e, "lat"))
            && (Nullish(Get(e, "lat")) && !Nullish(Get(Get(e, "center"), "lat")) ==> h.lat == Get(Get(e, "center"), "lat"))
            && (Nullish(Get(e, "lat")) && Nullish(Get(Get(e, "center"), "lat")) ==> h.lat == Some(Null))
            && (!Nullish(Get(e, "lon")) ==> h.lon == Get(e, "lon"))
            && (Nullish(Get(e, "lon")) && !Nullish(Get(Get(e, "center"), "lon")) ==> h.lon == Get(Get(e, "center"), "lon"))
            && (Nullish(Get(e, "lon")) && Nullish(Get(Get(e, "center"), "lon")) ==> h.lon == Some(Null))
            && h.lat.Some? && h.lon.Some?
  {
  }

  /** The `end` that `slice(0, limit)` uses on a list of `len` elements: a
      negative limit counts from the end. */
  function SliceEnd(len: nat, limit: int): (end: nat)
    ensures end <= len
    // a non-negative limit keeps the first `limit` elements, or all when fewer
    ensures limit >= 0 ==> end <= limit && (end < limit ==> end == len)
    // a negative limit drops `-limit` elements from the end, or all when fewer
    ensures limit < 0 ==> len - end <= -limit && (len - end < -limit ==> end == 0)
  {
    if limit >= 0 then (if limit < len then limit else len)
    else if len + limit > 0 then len + limit else 0
  }

  /** `overData?.elements || []`: `None` when `elements` is truthy but not an
      array, where `slice` or `map` would throw. */
  function ElementsOf(data: Json): Option<seq<Json>>
  {
    var elements := Get(Some(data), "elements");
    if !Truthy(elements) then Some([])
    else if elements.value.Arr? then Some(elements.value.items)
    else None
  }

  /** `elements.slice(0, limit).map(...)`: `None` when a kept element is
      `null`, on which reading `el.tags` throws. */
  function Normalise(elements: seq<Json>, limit: int): (r: Option<seq<Hospital>>)
    ensures var kept := elements[..SliceEnd(|elements|, limit)];
            && (r.None? <==> exists i | 0 <= i < |kept| :: kept[i] == Null)
            && (r.Some? ==> |r.value| == |kept| && forall i | 0 <= i < |kept| :: r.value[i] == ToHospital(kept[i]))
  {
    var kept := elements[..SliceEnd(|elements|, limit)];
    if exists i | 0 <= i < |kept| :: kept[i] == Null then None
    else Some(seq(|kept|, i requires 0 <= i < |kept| => ToHospital(kept[i])))
  }

  /** The payload sent and cached; the bounding box is left out and the time
      stamp is a value supplied by the caller. */
  datatype Payload = Payload(wilaya: string, count: nat, hospitals: seq<Hospital>, queriedAt: string)

  /** The payload for wilaya `code` from the Overpass answer `data`, or `None`
      when building it throws. */
  function BuildPayload(code: string, limit: int, data: Json, queriedAt: string): Option<Payload>
  {
    match ElementsOf(data)
    case None => None
    case Some(elements) =>
      match Normalise(elements, limit)
      case None => None
      case Some(hospitals) => Some(Payload(code, |hospitals|, hospitals, queriedAt))
  }

  /** A built payload counts its records, which are a prefix of the elements
      mapped in their original order: the first `limit` of them for a
      non-negative limit, all but the last `-limit` for a negative one. */
  lemma PayloadKeepsFirstElements(code: string, limit: int, data: Json, queriedAt: string)
    ensures var p := BuildPayload(code, limit, data, queriedAt);
            p.Some? ==>
              && ElementsOf(data).Some?
              && var elements := ElementsOf(data).value;
                 && p.value.wilaya == code
                 && p.value.queriedAt == queriedAt
                 && p.value.count == |p.value.hospitals|
                 && |p.value.hospitals| == SliceEnd(|elements|, limit)
                 && (limit >= 0 ==> |p.value.hospitals| == (if limit < |elements| then limit else |elements|))
                 && (limit < 0 ==> |elements| - |p.value.hospitals| == (if -limit < |elements| then -limit else |elements|))
                 && forall i | 0 <= i < |p.value.hospitals| :: p.value.hospitals[i] == ToHospital(elements[i])
  {
  }

  /** With no `elements` in the answer, the payload is empty. */
  lemma MissingElementsGiveEmptyPayload(code: string, limit: int, data: Json, queriedAt: string)
    requires !Truthy(Get(Some(data), "elements"))
    ensures BuildPayload(code, limit, data, queriedAt) == Some(Payload(code, 0, [], queriedAt))
  {
  }
}
