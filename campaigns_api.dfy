/** The campaigns client: a location's campaigns. */
module CampaignsApi {
  import opened Wrappers
  import opened Json
  import opened Http
  import opened Marshal

  /** `get_campaigns`: scoped GET /campaigns with `locationId`, `limit` and `skip` when positive; read under "campaigns". */
  method GetCampaigns(send: Transport, locationId: string, limit: int, skip: int) returns (c: Call<Page>)
    ensures |c.trace| == 1
    ensures c.trace[0].verb == GET && c.trace[0].path == "/campaigns"
    ensures c.trace[0].body == None && c.trace[0].scope == Some(locationId)
    ensures IsScopedPageQuery(c.trace[0].query, locationId, limit, skip)
    ensures c.result == PageReply(send(c.trace[0]), "campaigns")
  {
    var params := ScopedPageQuery(locationId, limit, skip);
    var req := Request(GET, "/campaigns", params, None, Some(locationId));
    c := Call([req], PageReply(send(req), "campaigns"));
  }
}
