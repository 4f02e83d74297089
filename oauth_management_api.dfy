/**
 * The OAuth management client: the locations the app is installed in, location
 * tokens, and SaaS subscription updates. No request here is location-scoped.
 */
module OAuthManagementApi {
  import opened Wrappers
  import opened Json
  import opened Http
  import opened Marshal

  /** A request for a location token; the scope is optional. */
  datatype TokenRequest = TokenRequest(locationId: string, scope: Option<string>)

  function TokenRequestFields(t: TokenRequest): Model {
    map["locationId" := JStr(t.locationId), "scope" := Str(t.scope)]
  }

  /** A token request with no scope is sent as exactly `{"locationId": ...}`. */
  lemma UnscopedTokenRequestBody(locationId: string)
    ensures Dump(TokenRequestFields(TokenRequest(locationId, None))) == map["locationId" := JStr(locationId)]
  {
    DumpKeepsExactlySetFields(TokenRequestFields(TokenRequest(locationId, None)), {"locationId"});
  }

  /** `get_installed_locations`: unscoped GET /oauth/installedLocations, read under "locations". */
  method GetInstalledLocations(send: Transport, limit: int, skip: int) returns (c: Call<Page>)
    ensures |c.trace| == 1
    ensures c.trace[0].verb == GET && c.trace[0].path == "/oauth/installedLocations"
    ensures c.trace[0].body == None && c.trace[0].scope == None
    ensures IsPageQuery(c.trace[0].query, limit, skip)
    ensures c.result == PageReply(send(c.trace[0]), "locations")
  {
    var params := PageQuery(limit, skip);
    var req := Request(GET, "/oauth/installedLocations", params, None, None);
    c := Call([req], PageReply(send(req), "locations"));
  }

  /** `generate_location_token`: POST /oauth/locationToken with the set fields; the token under "token" or the whole body. */
  function GenerateLocationToken(send: Transport, request: TokenRequest): (c: Call<Model>)
    ensures c.trace == [Request(POST, "/oauth/locationToken", map[], Some(JObj(Dump(TokenRequestFields(request)))), None)]
    ensures c.result == UnwrapReply(send(c.trace[0]), "token")
  {
    var req := Request(POST, "/oauth/locationToken", map[], Some(JObj(Dump(TokenRequestFields(request)))), None);
    Call([req], UnwrapReply(send(req), "token"))
  }

  /** `update_saas_subscription`: PUT /update-saas-subscription/{loc}; the subscription under "subscription" or the body. */
  function UpdateSaasSubscription(send: Transport, locationId: string, subscription: Model): (c: Call<Model>)
    ensures c.trace == [Request(PUT, "/update-saas-subscription/" + locationId, map[], Some(JObj(Dump(subscription))), None)]
    ensures c.result == UnwrapReply(send(c.trace[0]), "subscription")
  {
    var req := Request(PUT, "/update-saas-subscription/" + locationId, map[], Some(JObj(Dump(subscription))), None);
    Call([req], UnwrapReply(send(req), "subscription"))
  }
}
