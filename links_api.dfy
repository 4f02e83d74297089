/**
 * The trigger-links client. Entities are read from under "link" when present;
 * a delete always reports success, with a message that depends on the reply.
 */
module LinksApi {
  import opened Wrappers
  import opened Json
  import opened Http
  import opened Marshal

  /** A link to create; `isActive` is True unless the caller says otherwise. */
  datatype LinkCreate = LinkCreate(name: string, url: string, description: Option<string>, isActive: Option<bool>)

  /** A link update; every field is optional. */
  datatype LinkUpdate = LinkUpdate(name: Option<string>, url: Option<string>, description: Option<string>, isActive: Option<bool>)

  /** A link given only its name and target. */
  function NewLink(name: string, url: string): LinkCreate {
    LinkCreate(name, url, None, Some(true))
  }

  function LinkCreateFields(l: LinkCreate): Model {
    map["name" := JStr(l.name), "url" := JStr(l.url), "description" := Str(l.description), "isActive" := Bool(l.isActive)]
  }

  function LinkUpdateFields(l: LinkUpdate): Model {
    map["name" := Str(l.name), "url" := Str(l.url), "description" := Str(l.description), "isActive" := Bool(l.isActive)]
  }

  /** A link given only its name and target is sent with `isActive: true` and no description. */
  lemma NewLinkBody(name: string, url: string)
    ensures Dump(LinkCreateFields(NewLink(name, url))) ==
      map["name" := JStr(name), "url" := JStr(url), "isActive" := JBool(true)]
  {
    DumpKeepsExactlySetFields(LinkCreateFields(NewLink(name, url)), {"name", "url", "isActive"});
  }

  /** A fully given link is sent with all four fields as given. */
  lemma FullLinkBody(name: string, url: string, description: string, isActive: bool)
    ensures Dump(LinkCreateFields(LinkCreate(name, url, Some(description), Some(isActive)))) ==
      map["name" := JStr(name), "url" := JStr(url), "description" := JStr(description), "isActive" := JBool(isActive)]
  {
    var m := LinkCreateFields(LinkCreate(name, url, Some(description), Some(isActive)));
    DumpKeepsExactlySetFields(m, {"name", "url", "description", "isActive"});
  }

  /** An update body names exactly the fields being changed. */
  lemma UpdateBodyNamesChangedFields(l: LinkUpdate)
    ensures "name" in Dump(LinkUpdateFields(l)) <==> l.name.Some?
    ensures "url" in Dump(LinkUpdateFields(l)) <==> l.url.Some?
    ensures "description" in Dump(LinkUpdateFields(l)) <==> l.description.Some?
    ensures "isActive" in Dump(LinkUpdateFields(l)) <==> l.isActive.Some?
    ensures Dump(LinkUpdateFields(l)).Keys <= {"name", "url", "description", "isActive"}
  {
  }

  /** `get_links`: scoped GET /links/ with the page query (no `locationId` in it), read under "links". */
  method GetLinks(send: Transport, locationId: string, limit: int, skip: int) returns (c: Call<Page>)
    ensures |c.trace| == 1
    ensures c.trace[0].verb == GET && c.trace[0].path == "/links/"
    ensures c.trace[0].body == None && c.trace[0].scope == Some(locationId)
    ensures IsPageQuery(c.trace[0].query, limit, skip)
    ensures skip == 0 ==> c.trace[0].query == map["limit" := JInt(limit)]
    ensures c.result == PageReply(send(c.trace[0]), "links")
  {
    var params := PageQuery(limit, skip);
    if skip == 0 {
      PageQueryWithoutSkip(params, limit);
    }
    var req := Request(GET, "/links/", params, None, Some(locationId));
    c := Call([req], PageReply(send(req), "links"));
  }

  /** `get_link`: GET /links/{id}, the link under "link" or the whole body. */
  function GetLink(send: Transport, linkId: string, locationId: string): (c: Call<Model>)
    ensures c.trace == [Request(GET, "/links/" + linkId, map[], None, Some(locationId))]
    ensures c.result == UnwrapReply(send(c.trace[0]), "link")
  {
    var req := Request(GET, "/links/" + linkId, map[], None, Some(locationId));
    Call([req], UnwrapReply(send(req), "link"))
  }

  /** `create_link`: POST /links/ with the set fields. */
  function CreateLink(send: Transport, link: LinkCreate, locationId: string): (c: Call<Model>)
    ensures c.trace == [Request(POST, "/links/", map[], Some(JObj(Dump(LinkCreateFields(link)))), Some(locationId))]
    ensures c.result == UnwrapReply(send(c.trace[0]), "link")
  {
    var req := Request(POST, "/links/", map[], Some(JObj(Dump(LinkCreateFields(link)))), Some(locationId));
    Call([req], UnwrapReply(send(req), "link"))
  }

  /** `update_link`: PUT /links/{id} with the set fields. */
  function UpdateLink(send: Transport, linkId: string, link: LinkUpdate, locationId: string): (c: Call<Model>)
    ensures c.trace == [Request(PUT, "/links/" + linkId, map[], Some(JObj(Dump(LinkUpdateFields(link)))), Some(locationId))]
    ensures c.result == UnwrapReply(send(c.trace[0]), "link")
  {
    var req := Request(PUT, "/links/" + linkId, map[], Some(JObj(Dump(LinkUpdateFields(link)))), Some(locationId));
    Call([req], UnwrapReply(send(req), "link"))
  }

  const LinkDeletedMessage := "Link deleted successfully"

  /**
   * Reads a delete reply: on 204 the fixed confirmation; otherwise the body
   * must be a JSON object, and its "message" (when it has one) replaces the
   * default text. Success is reported either way.
   */
  function DecodeLinkDeletion(resp: Response): (r: Result<Json, Error>)
    ensures resp.status == 204 ==>
      r == Ok(JObj(map["success" := JBool(true), "message" := JStr("Link deleted successfully")]))
    ensures resp.status != 204 ==> (r.Ok? <==> resp.body.Some? && resp.body.value.JObj?)
    ensures resp.status != 204 && r.Ok? ==>
      r.value == JObj(map["success" := JBool(true),
                          "message" := Get(resp.body.value.fields, "message", JStr("Link deleted successfully"))])
    ensures r.Ok? ==> r.value.JObj? && r.value.fields["success"] == JBool(true)
  {
    if resp.status == 204 then
      Ok(JObj(map["success" := JBool(true), "message" := JStr(LinkDeletedMessage)]))
    else if resp.body.Some? && resp.body.value.JObj? then
      Ok(JObj(map["success" := JBool(true),
                  "message" := Get(resp.body.value.fields, "message", JStr(LinkDeletedMessage))]))
    else
      Err(DecodeFailure("response body is not a JSON object"))
  }

  /** `delete_link`: DELETE /links/{id}, read by the status-204 rule. */
  function DeleteLink(send: Transport, linkId: string, locationId: string): (c: Call<Json>)
    ensures c.trace == [Request(DELETE, "/links/" + linkId, map[], None, Some(locationId))]
    ensures send(c.trace[0]).Err? ==> c.result == Err(send(c.trace[0]).error)
    ensures send(c.trace[0]).Ok? ==> c.result == DecodeLinkDeletion(send(c.trace[0]).value)
  {
    var req := Request(DELETE, "/links/" + linkId, map[], None, Some(locationId));
    var reply := send(req);
    Call([req], if reply.Err? then Err(reply.error) else DecodeLinkDeletion(reply.value))
  }

  /** A 204 with no body at all still reads as a success: the body is not looked at. */
  lemma NoContentNeedsNoBody(send: Transport, linkId: string, locationId: string)
    requires send(Request(DELETE, "/links/" + linkId, map[], None, Some(locationId))) == Ok(Response(204, None))
    ensures DeleteLink(send, linkId, locationId).result ==
      Ok(JObj(map["success" := JBool(true), "message" := JStr("Link deleted successfully")]))
  {
  }
}
