/**
 * The businesses client: a location's businesses, each read from under the
 * "business" key when the reply has one.
 */
module BusinessesApi {
  import opened Wrappers
  import opened Json
  import opened Http
  import opened Marshal

  /** `get_businesses`: scoped GET /businesses with `locationId`, `limit` and `skip` when positive; read under "businesses". */
  method GetBusinesses(send: Transport, locationId: string, limit: int, skip: int) returns (c: Call<Page>)
    ensures |c.trace| == 1
    ensures c.trace[0].verb == GET && c.trace[0].path == "/businesses"
    ensures c.trace[0].body == None && c.trace[0].scope == Some(locationId)
    ensures IsScopedPageQuery(c.trace[0].query, locationId, limit, skip)
    ensures c.result == PageReply(send(c.trace[0]), "businesses")
  {
    var params := ScopedPageQuery(locationId, limit, skip);
    var req := Request(GET, "/businesses", params, None, Some(locationId));
    c := Call([req], PageReply(send(req), "businesses"));
  }

  /** `get_business`: GET /businesses/{id}, the business under "business" or the whole body. */
  function GetBusiness(send: Transport, businessId: string, locationId: string): (c: Call<Model>)
    ensures c.trace == [Request(GET, "/businesses/" + businessId, map[], None, Some(locationId))]
    ensures c.result == UnwrapReply(send(c.trace[0]), "business")
  {
    var req := Request(GET, "/businesses/" + businessId, map[], None, Some(locationId));
    Call([req], UnwrapReply(send(req), "business"))
  }

  /** `create_business`: POST /businesses with the set fields, scoped by `business.locationId`. */
  function CreateBusiness(send: Transport, business: Model): (c: Call<Model>)
    ensures c.trace == [Request(POST, "/businesses", map[], Some(JObj(Dump(business))), ScopeOf(business))]
    ensures c.result == UnwrapReply(send(c.trace[0]), "business")
  {
    var req := Request(POST, "/businesses", map[], Some(JObj(Dump(business))), ScopeOf(business));
    Call([req], UnwrapReply(send(req), "business"))
  }

  /** `update_business`: PUT /businesses/{id} with the set fields. */
  function UpdateBusiness(send: Transport, businessId: string, updates: Model, locationId: string): (c: Call<Model>)
    ensures c.trace == [Request(PUT, "/businesses/" + businessId, map[], Some(JObj(Dump(updates))), Some(locationId))]
    ensures c.result == UnwrapReply(send(c.trace[0]), "business")
  {
    var req := Request(PUT, "/businesses/" + businessId, map[], Some(JObj(Dump(updates))), Some(locationId));
    Call([req], UnwrapReply(send(req), "business"))
  }

  /** `delete_business`: DELETE /businesses/{id}; true exactly on status 200. */
  function DeleteBusiness(send: Transport, businessId: string, locationId: string): (c: Call<bool>)
    ensures c.trace == [Request(DELETE, "/businesses/" + businessId, map[], None, Some(locationId))]
    ensures c.result.Ok? <==> send(c.trace[0]).Ok?
    ensures c.result.Ok? ==> (c.result.value <==> send(c.trace[0]).value.status == 200)
  {
    var req := Request(DELETE, "/businesses/" + businessId, map[], None, Some(locationId));
    Call([req], StatusReply(send(req), {200}))
  }
}
