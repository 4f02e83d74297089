/**
 * The marshalling every resource client shares: the pagination query map,
 * and the three ways a reply is read (a list page, a single entity taken from
 * under a wrapper key if present, a single entity taken from the raw body),
 * plus the status predicates of the delete and assignment calls.
 */
module Marshal {
  import opened Wrappers
  import opened Json
  import opened Http

  /** The paginated query every list call builds: `limit` always, `skip` only when positive. */
  ghost predicate IsPageQuery(params: map<string, Json>, limit: int, skip: int) {
    && params.Keys == {"limit"} + (if skip > 0 then {"skip"} else {})
    && params["limit"] == JInt(limit)
    && (skip > 0 ==> params["skip"] == JInt(skip))
  }

  /** The same query, opened by `locationId` as the location-scoped lists do. */
  ghost predicate IsScopedPageQuery(params: map<string, Json>, locationId: string, limit: int, skip: int) {
    && params.Keys == {"locationId", "limit"} + (if skip > 0 then {"skip"} else {})
    && params["locationId"] == JStr(locationId)
    && params["limit"] == JInt(limit)
    && (skip > 0 ==> params["skip"] == JInt(skip))
  }

  /** `params = {"limit": limit}; if skip > 0: params["skip"] = skip` */
  method PageQuery(limit: int, skip: int) returns (params: map<string, Json>)
    ensures IsPageQuery(params, limit, skip)
  {
    params := map["limit" := JInt(limit)];
    if skip > 0 {
      params := params["skip" := JInt(skip)];
    }
  }

  /** `params = {"locationId": location_id, "limit": limit}; if skip > 0: params["skip"] = skip` */
  method ScopedPageQuery(locationId: string, limit: int, skip: int) returns (params: map<string, Json>)
    ensures IsScopedPageQuery(params, locationId, limit, skip)
  {
    params := map["locationId" := JStr(locationId), "limit" := JInt(limit)];
    if skip > 0 {
      params := params["skip" := JInt(skip)];
    }
  }

  /** With no skip, the paginated query is exactly `{"limit": limit}`. */
  lemma PageQueryWithoutSkip(params: map<string, Json>, limit: int)
    requires IsPageQuery(params, limit, 0)
    ensures params == map["limit" := JInt(limit)]
  {
  }

  /**
   * `[Entity(**x) for x in v]`: iterating a list of dicts gives one entity per
   * dict, in order; an empty string or an empty dict iterates as nothing; any
   * other value (None, a number, a list holding a non-dict, a non-empty string
   * or dict, whose elements are not dicts) raises.
   */
  function Entities(v: Json): (r: Option<seq<Model>>)
    ensures v.JArr? ==> (r.Some? <==> forall i | 0 <= i < |v.items| :: v.items[i].JObj?)
    ensures v.JArr? && r.Some? ==>
      |r.value| == |v.items| && forall i | 0 <= i < |v.items| :: v.items[i] == JObj(r.value[i])
    ensures !v.JArr? ==> (r.Some? <==> v == JStr("") || v == JObj(map[]))
    ensures !v.JArr? && r.Some? ==> r.value == []
  {
    match v
    case JArr(xs) =>
      if forall i | 0 <= i < |xs| :: xs[i].JObj? then
        Some(seq(|xs|, i requires 0 <= i < |xs| => xs[i].fields))
      else
        None
    case JStr(s) => if s == "" then Some([]) else None
    case JObj(m) => if m == map[] then Some([]) else None
    case _ => None
  }

  /** The list object every list call returns: the entities, `count` and `total`. */
  datatype Page = Page(items: seq<Model>, count: int, total: Json)

  /**
   * `data = response.json(); xs = data.get(key, []); List(items=[E(**x) for x in xs],
   * count=len(xs), total=data.get("total", len(xs)))`.
   */
  function DecodePage(resp: Response, key: string): (r: Result<Page, Error>)
    ensures r.Ok? <==>
      resp.body.Some? && resp.body.value.JObj? && Entities(Get(resp.body.value.fields, key, JArr([]))).Some?
    ensures r.Ok? ==> r.value.count == |r.value.items|
    ensures r.Ok? ==> r.value.items == Entities(Get(resp.body.value.fields, key, JArr([]))).value
    ensures r.Ok? ==>
      r.value.total == Get(resp.body.value.fields, "total", JInt(r.value.count))
  {
    if resp.body.None? || !resp.body.value.JObj? then
      Err(DecodeFailure("response body is not a JSON object"))
    else
      var data := resp.body.value.fields;
      var items := Entities(Get(data, key, JArr([])));
      if items.None? then
        Err(DecodeFailure("list entries are not objects"))
      else
        Ok(Page(items.value, |items.value|, Get(data, "total", JInt(|items.value|))))
  }

  /** `data = response.json(); return E(**data.get(key, data))`. */
  function Unwrap(resp: Response, key: string): (r: Result<Model, Error>)
    ensures r.Ok? <==>
      resp.body.Some? && resp.body.value.JObj? &&
      (key in resp.body.value.fields ==> resp.body.value.fields[key].JObj?)
    ensures r.Ok? && key in resp.body.value.fields ==> JObj(r.value) == resp.body.value.fields[key]
    ensures r.Ok? && key !in resp.body.value.fields ==> JObj(r.value) == resp.body.value
  {
    if resp.body.None? || !resp.body.value.JObj? then
      Err(DecodeFailure("response body is not a JSON object"))
    else
      var data := resp.body.value.fields;
      var entity := Get(data, key, JObj(data));
      if entity.JObj? then Ok(entity.fields) else Err(DecodeFailure("entity is not an object"))
  }

  /** `return E(**response.json())`: the whole body is the entity. */
  function Raw(resp: Response): (r: Result<Model, Error>)
    ensures r.Ok? <==> resp.body.Some? && resp.body.value.JObj?
    ensures r.Ok? ==> JObj(r.value) == resp.body.value
  {
    if resp.body.Some? && resp.body.value.JObj? then Ok(resp.body.value.fields)
    else Err(DecodeFailure("response body is not a JSON object"))
  }

  /**
   * `location_id=payload.locationId`: a create call scoped by the payload's own
   * location, unscoped when the payload carries none.
   */
  function ScopeOf(payload: Model): (r: Option<string>)
    ensures r.Some? <==> "locationId" in payload && payload["locationId"].JStr?
    ensures r.Some? ==> payload["locationId"] == JStr(r.value)
  {
    var v := Get(payload, "locationId", JNull);
    if v.JStr? then Some(v.s) else None
  }

  /** A reply read as a list page; an error raised by the transport propagates. */
  function PageReply(reply: Result<Response, Error>, key: string): (r: Result<Page, Error>)
    ensures reply.Err? ==> r == Err(reply.error)
    ensures reply.Ok? ==> r == DecodePage(reply.value, key)
  {
    if reply.Err? then Err(reply.error) else DecodePage(reply.value, key)
  }

  /** A reply read as an entity under `key`, or the whole body when `key` is absent. */
  function UnwrapReply(reply: Result<Response, Error>, key: string): (r: Result<Model, Error>)
    ensures reply.Err? ==> r == Err(reply.error)
    ensures reply.Ok? ==> r == Unwrap(reply.value, key)
  {
    if reply.Err? then Err(reply.error) else Unwrap(reply.value, key)
  }

  /** A reply read as an entity from its raw body. */
  function RawReply(reply: Result<Response, Error>): (r: Result<Model, Error>)
    ensures reply.Err? ==> r == Err(reply.error)
    ensures reply.Ok? ==> r == Raw(reply.value)
  {
    if reply.Err? then Err(reply.error) else Raw(reply.value)
  }

  /** A reply whose status decides a boolean: `response.status_code in ok`. The body is never read. */
  function StatusReply(reply: Result<Response, Error>, ok: set<int>): (r: Result<bool, Error>)
    ensures reply.Err? ==> r == Err(reply.error)
    ensures reply.Ok? ==> r == Ok(reply.value.status in ok)
  {
    if reply.Err? then Err(reply.error) else Ok(reply.value.status in ok)
  }

  /** A bare entity body and the same entity wrapped under its key decode to the same entity. */
  lemma UnwrapAcceptsBothShapes(entity: Model, key: string, status: int, status': int)
    requires key !in entity
    ensures Unwrap(Response(status, Some(JObj(entity))), key) == Ok(entity)
    ensures Unwrap(Response(status', Some(JObj(map[key := JObj(entity)]))), key) == Ok(entity)
  {
  }

  /** Reading a wrapped body raw yields the wrapper itself, not the entity inside it. */
  lemma RawKeepsWrapper(entity: Model, key: string, status: int)
    ensures Raw(Response(status, Some(JObj(map[key := JObj(entity)])))) == Ok(map[key := JObj(entity)])
  {
  }

  /** A list page with no `total` reports its own length as the total. */
  lemma PageTotalDefaultsToCount(items: seq<Model>, key: string, status: int)
    requires key != "total"
    ensures DecodePage(Response(status, Some(JObj(map[key := JArr(Objects(items))]))), key)
         == Ok(Page(items, |items|, JInt(|items|)))
  {
    var page := DecodePage(Response(status, Some(JObj(map[key := JArr(Objects(items))]))), key);
    assert page.Ok?;
    assert page.value.items == items;
  }

  /** A body that lacks the list key decodes to an empty page. */
  lemma PageWithoutKeyIsEmpty(data: map<string, Json>, key: string, status: int)
    requires key !in data
    ensures DecodePage(Response(status, Some(JObj(data))), key) == Ok(Page([], 0, Get(data, "total", JInt(0))))
  {
  }

  /** Entities as the JSON objects a server sends for them. */
  function Objects(ms: seq<Model>): (r: seq<Json>)
    ensures |r| == |ms|
    ensures forall i | 0 <= i < |ms| :: r[i] == JObj(ms[i])
  {
    seq(|ms|, i requires 0 <= i < |ms| => JObj(ms[i]))
  }
}
