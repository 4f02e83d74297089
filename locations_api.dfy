/**
 * The locations client: search and CRUD of sub-accounts. No request here is
 * scoped to a location; entities are read from under "location" when present.
 */
module LocationsApi {
  import opened Wrappers
  import opened Json
  import opened Http
  import opened Marshal

  /** The search query: the page query, plus `companyId` and `query` each only when truthy. */
  ghost predicate IsLocationSearchQuery(
    params: map<string, Json>, companyId: Option<string>, limit: int, skip: int, searchQuery: Option<string>)
  {
    && params.Keys <= {"limit", "skip", "companyId", "query"}
    && "limit" in params && params["limit"] == JInt(limit)
    && ("skip" in params <==> skip > 0)
    && ("companyId" in params <==> Truthy(Str(companyId)))
    && ("query" in params <==> Truthy(Str(searchQuery)))
    && ("skip" in params ==> params["skip"] == JInt(skip))
    && ("companyId" in params ==> params["companyId"] == Str(companyId))
    && ("query" in params ==> params["query"] == Str(searchQuery))
  }

  /** Builds the search query by three conditional insertions. */
  method LocationSearchQuery(companyId: Option<string>, limit: int, skip: int, searchQuery: Option<string>)
    returns (params: map<string, Json>)
    ensures IsLocationSearchQuery(params, companyId, limit, skip, searchQuery)
  {
    params := map["limit" := JInt(limit)];
    if skip > 0 {
      params := params["skip" := JInt(skip)];
    }
    if companyId.Some? && companyId.value != "" {
      params := params["companyId" := JStr(companyId.value)];
    }
    if searchQuery.Some? && searchQuery.value != "" {
      params := params["query" := JStr(searchQuery.value)];
    }
  }

  /** Without a company or a search text the search sends only the page query. */
  lemma UnfilteredSearchIsPageQuery(params: map<string, Json>, limit: int, skip: int)
    requires IsLocationSearchQuery(params, None, limit, skip, Some(""))
    ensures IsPageQuery(params, limit, skip)
  {
    assert params.Keys == {"limit"} + (if skip > 0 then {"skip"} else {});
  }

  /** `get_location`: GET /locations/{id}, the location under "location" or the whole body. */
  function GetLocation(send: Transport, locationId: string): (c: Call<Model>)
    ensures c.trace == [Request(GET, "/locations/" + locationId, map[], None, None)]
    ensures c.result == UnwrapReply(send(c.trace[0]), "location")
  {
    var req := Request(GET, "/locations/" + locationId, map[], None, None);
    Call([req], UnwrapReply(send(req), "location"))
  }

  /** `search_locations`: unscoped GET /locations/search, read under "locations". */
  method SearchLocations(send: Transport, companyId: Option<string>, limit: int, skip: int, searchQuery: Option<string>)
    returns (c: Call<Page>)
    ensures |c.trace| == 1
    ensures c.trace[0].verb == GET && c.trace[0].path == "/locations/search"
    ensures c.trace[0].body == None && c.trace[0].scope == None
    ensures IsLocationSearchQuery(c.trace[0].query, companyId, limit, skip, searchQuery)
    ensures c.result == PageReply(send(c.trace[0]), "locations")
  {
    var params := LocationSearchQuery(companyId, limit, skip, searchQuery);
    var req := Request(GET, "/locations/search", params, None, None);
    c := Call([req], PageReply(send(req), "locations"));
  }

  /** `create_location`: unscoped POST /locations with the set fields. */
  function CreateLocation(send: Transport, location: Model): (c: Call<Model>)
    ensures c.trace == [Request(POST, "/locations", map[], Some(JObj(Dump(location))), None)]
    ensures c.result == UnwrapReply(send(c.trace[0]), "location")
  {
    var req := Request(POST, "/locations", map[], Some(JObj(Dump(location))), None);
    Call([req], UnwrapReply(send(req), "location"))
  }

  /** `update_location`: unscoped PUT /locations/{id} with the set fields. */
  function UpdateLocation(send: Transport, locationId: string, updates: Model): (c: Call<Model>)
    ensures c.trace == [Request(PUT, "/locations/" + locationId, map[], Some(JObj(Dump(updates))), None)]
    ensures c.result == UnwrapReply(send(c.trace[0]), "location")
  {
    var req := Request(PUT, "/locations/" + locationId, map[], Some(JObj(Dump(updates))), None);
    Call([req], UnwrapReply(send(req), "location"))
  }

  /** `delete_location`: unscoped DELETE /locations/{id}; true exactly on status 200. */
  function DeleteLocation(send: Transport, locationId: string): (c: Call<bool>)
    ensures c.trace == [Request(DELETE, "/locations/" + locationId, map[], None, None)]
    ensures c.result.Ok? <==> send(c.trace[0]).Ok?
    ensures c.result.Ok? ==> (c.result.value <==> send(c.trace[0]).value.status == 200)
  {
    var req := Request(DELETE, "/locations/" + locationId, map[], None, None);
    Call([req], StatusReply(send(req), {200}))
  }
}
