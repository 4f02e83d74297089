/**
 * The contacts client: contact search and CRUD, the two-call tag mutations,
 * contact tasks and notes, and campaign/workflow assignment. Every request is
 * scoped to a location.
 */
module ContactsApi {
  import opened Wrappers
  import opened Json
  import opened Http
  import opened Marshal
  import Text

  const ContactsPath := "/contacts"

  /** The search result: the contacts, their count, and the server's total, meta and trace id as sent. */
  datatype ContactList = ContactList(contacts: seq<Model>, count: int, total: Json, meta: Json, traceId: Json)

  /** The `get_contacts` query: the scoped page query, plus each filter only when it is truthy. */
  ghost predicate IsContactsQuery(
    params: map<string, Json>, locationId: string, limit: int, skip: int,
    query: Option<string>, email: Option<string>, phone: Option<string>, tags: Option<seq<string>>)
  {
    && params.Keys <= {"locationId", "limit", "skip", "query", "email", "phone", "tags"}
    && "locationId" in params && params["locationId"] == JStr(locationId)
    && "limit" in params && params["limit"] == JInt(limit)
    && ("skip" in params <==> skip > 0)
    && ("query" in params <==> Truthy(Str(query)))
    && ("email" in params <==> Truthy(Str(email)))
    && ("phone" in params <==> Truthy(Str(phone)))
    && ("tags" in params <==> tags.Some? && tags.value != [])
    && ("skip" in params ==> params["skip"] == JInt(skip))
    && ("query" in params ==> params["query"] == Str(query))
    && ("email" in params ==> params["email"] == Str(email))
    && ("phone" in params ==> params["phone"] == Str(phone))
    && ("tags" in params ==> params["tags"] == JStr(Text.Join(tags.value)))
  }

  /** Builds the `get_contacts` query by successive conditional insertions. */
  method ContactsQuery(
    locationId: string, limit: int, skip: int,
    query: Option<string>, email: Option<string>, phone: Option<string>, tags: Option<seq<string>>)
    returns (params: map<string, Json>)
    ensures IsContactsQuery(params, locationId, limit, skip, query, email, phone, tags)
  {
    params := map["locationId" := JStr(locationId), "limit" := JInt(limit)];
    if skip > 0 {
      params := params["skip" := JInt(skip)];
    }
    if query.Some? && query.value != "" {
      params := params["query" := JStr(query.value)];
    }
    if email.Some? && email.value != "" {
      params := params["email" := JStr(email.value)];
    }
    if phone.Some? && phone.value != "" {
      params := params["phone" := JStr(phone.value)];
    }
    if tags.Some? && tags.value != [] {
      params := params["tags" := JStr(Text.Join(tags.value))];
    }
  }

  /** The server can split the `tags` filter back into the caller's tags, provided no tag holds a comma. */
  lemma {:induction false} TagsFilterRecoversTags(
    params: map<string, Json>, locationId: string, limit: int, skip: int,
    query: Option<string>, email: Option<string>, phone: Option<string>, tags: Option<seq<string>>)
    requires IsContactsQuery(params, locationId, limit, skip, query, email, phone, tags)
    requires tags.Some? && tags.value != [] && Text.CommaFree(tags.value)
    ensures "tags" in params && params["tags"].JStr?
    ensures Text.Split(params["tags"].s) == tags.value
  {
    Text.SplitJoin(tags.value);
  }

  /** With no skip and no truthy filter, the query is exactly `{"locationId", "limit"}`. */
  lemma BareContactsQuery(params: map<string, Json>, locationId: string, limit: int)
    requires IsContactsQuery(params, locationId, limit, 0, None, Some(""), None, Some([]))
    ensures params == map["locationId" := JStr(locationId), "limit" := JInt(limit)]
  {
  }

  /** `data.get("meta", {}).get("total") or data.get("total")`; a non-object `meta` raises. */
  function ContactsTotal(data: map<string, Json>): (r: Result<Json, Error>)
    ensures r.Ok? <==> Get(data, "meta", JObj(map[])).JObj?
    ensures r.Ok? && Truthy(Get(Get(data, "meta", JObj(map[])).fields, "total", JNull)) ==>
      r.value == data["meta"].fields["total"]
    ensures r.Ok? && !Truthy(Get(Get(data, "meta", JObj(map[])).fields, "total", JNull)) ==>
      r.value == Get(data, "total", JNull)
  {
    var meta := Get(data, "meta", JObj(map[]));
    if !meta.JObj? then Err(DecodeFailure("meta is not an object"))
    else
      var metaTotal := Get(meta.fields, "total", JNull);
      Ok(if Truthy(metaTotal) then metaTotal else Get(data, "total", JNull))
  }

  /** Reads a `get_contacts` reply. */
  function DecodeContactList(resp: Response): (r: Result<ContactList, Error>)
    ensures r.Ok? <==>
      && resp.body.Some? && resp.body.value.JObj?
      && Entities(Get(resp.body.value.fields, "contacts", JArr([]))).Some?
      && ContactsTotal(resp.body.value.fields).Ok?
    ensures r.Ok? ==>
      && r.value.contacts == Entities(Get(resp.body.value.fields, "contacts", JArr([]))).value
      && r.value.count == |r.value.contacts|
      && r.value.total == ContactsTotal(resp.body.value.fields).value
      && r.value.meta == Get(resp.body.value.fields, "meta", JNull)
      && r.value.traceId == Get(resp.body.value.fields, "traceId", JNull)
  {
    if resp.body.None? || !resp.body.value.JObj? then
      Err(DecodeFailure("response body is not a JSON object"))
    else
      var data := resp.body.value.fields;
      var contacts := Entities(Get(data, "contacts", JArr([])));
      if contacts.None? then Err(DecodeFailure("contact entries are not objects"))
      else
        var total := ContactsTotal(data);
        if total.Err? then Err(total.error)
        else
          Ok(ContactList(contacts.value, |contacts.value|, total.value,
                         Get(data, "meta", JNull), Get(data, "traceId", JNull)))
  }

  /** A zero total under `meta` is falsy, so the top-level total (here absent) wins: the result has no total. */
  lemma ZeroMetaTotalFallsThrough(status: int)
    ensures var body := JObj(map["contacts" := JArr([]), "meta" := JObj(map["total" := JInt(0)])]);
            DecodeContactList(Response(status, Some(body))).Ok? &&
            DecodeContactList(Response(status, Some(body))).value.total == JNull
  {
    var body := JObj(map["contacts" := JArr([]), "meta" := JObj(map["total" := JInt(0)])]);
    var r := DecodeContactList(Response(status, Some(body)));
    assert Entities(Get(body.fields, "contacts", JArr([]))) == Some([]);
    assert ContactsTotal(body.fields) == Ok(JNull);
  }

  /** Unlike the other lists, a reply with no total at all does not fall back to the count. */
  lemma NoCountFallback(contact: Model, status: int)
    ensures var body := JObj(map["contacts" := JArr([JObj(contact)])]);
            DecodeContactList(Response(status, Some(body))).Ok? &&
            DecodeContactList(Response(status, Some(body))).value.count == 1 &&
            DecodeContactList(Response(status, Some(body))).value.total == JNull
  {
    var body := JObj(map["contacts" := JArr([JObj(contact)])]);
    var ents := Entities(Get(body.fields, "contacts", JArr([])));
    assert ents.Some? && |ents.value| == 1;
    assert ContactsTotal(body.fields) == Ok(JNull);
  }

  /** A truthy total under `meta` is taken over the top-level one. */
  lemma MetaTotalWins(metaTotal: Json, topTotal: Json, status: int)
    requires Truthy(metaTotal)
    ensures var body := JObj(map["meta" := JObj(map["total" := metaTotal]), "total" := topTotal]);
            DecodeContactList(Response(status, Some(body))).Ok? &&
            DecodeContactList(Response(status, Some(body))).value.total == metaTotal
  {
    var body := JObj(map["meta" := JObj(map["total" := metaTotal]), "total" := topTotal]);
    assert Entities(Get(body.fields, "contacts", JArr([]))) == Some([]);
    assert ContactsTotal(body.fields) == Ok(metaTotal);
  }

  /** A reply read as a contact list; an error raised by the transport propagates. */
  function ContactListReply(reply: Result<Response, Error>): (r: Result<ContactList, Error>)
    ensures reply.Err? ==> r == Err(reply.error)
    ensures reply.Ok? ==> r == DecodeContactList(reply.value)
  {
    if reply.Err? then Err(reply.error) else DecodeContactList(reply.value)
  }

  /** `get_contacts`: one scoped GET /contacts with the filter query, read as a contact list. */
  method GetContacts(
    send: Transport, locationId: string, limit: int, skip: int,
    query: Option<string>, email: Option<string>, phone: Option<string>, tags: Option<seq<string>>)
    returns (c: Call<ContactList>)
    ensures |c.trace| == 1
    ensures c.trace[0].verb == GET && c.trace[0].path == ContactsPath
    ensures c.trace[0].body == None && c.trace[0].scope == Some(locationId)
    ensures IsContactsQuery(c.trace[0].query, locationId, limit, skip, query, email, phone, tags)
    ensures c.result == ContactListReply(send(c.trace[0]))
  {
    var params := ContactsQuery(locationId, limit, skip, query, email, phone, tags);
    var req := Request(GET, ContactsPath, params, None, Some(locationId));
    c := Call([req], ContactListReply(send(req)));
  }

  /** `get_contact`: GET /contacts/{id}, the contact under "contact" or the whole body. */
  function GetContact(send: Transport, contactId: string, locationId: string): (c: Call<Model>)
    ensures c.trace == [Request(GET, "/contacts/" + contactId, map[], None, Some(locationId))]
    ensures c.result == UnwrapReply(send(c.trace[0]), "contact")
  {
    var req := Request(GET, "/contacts/" + contactId, map[], None, Some(locationId));
    Call([req], UnwrapReply(send(req), "contact"))
  }

  /** `create_contact`: POST /contacts with the non-None fields, scoped by the payload's own location. */
  function CreateContact(send: Transport, contact: Model): (c: Call<Model>)
    ensures c.trace == [Request(POST, ContactsPath, map[], Some(JObj(Dump(contact))), ScopeOf(contact))]
    ensures c.result == UnwrapReply(send(c.trace[0]), "contact")
  {
    var req := Request(POST, ContactsPath, map[], Some(JObj(Dump(contact))), ScopeOf(contact));
    Call([req], UnwrapReply(send(req), "contact"))
  }

  /** `update_contact`: PUT /contacts/{id} with the non-None fields. */
  function UpdateContact(send: Transport, contactId: string, updates: Model, locationId: string): (c: Call<Model>)
    ensures c.trace == [Request(PUT, "/contacts/" + contactId, map[], Some(JObj(Dump(updates))), Some(locationId))]
    ensures c.result == UnwrapReply(send(c.trace[0]), "contact")
  {
    var req := Request(PUT, "/contacts/" + contactId, map[], Some(JObj(Dump(updates))), Some(locationId));
    Call([req], UnwrapReply(send(req), "contact"))
  }

  /** `delete_contact`: DELETE /contacts/{id}; true exactly when the status is 200. */
  function DeleteContact(send: Transport, contactId: string, locationId: string): (c: Call<bool>)
    ensures c.trace == [Request(DELETE, "/contacts/" + contactId, map[], None, Some(locationId))]
    ensures c.result.Ok? <==> send(c.trace[0]).Ok?
    ensures c.result.Ok? ==> (c.result.value <==> send(c.trace[0]).value.status == 200)
  {
    var req := Request(DELETE, "/contacts/" + contactId, map[], None, Some(locationId));
    Call([req], StatusReply(send(req), {200}))
  }

  /** The tag mutation: `{"tags": tags}` to /contacts/{id}/tags. */
  function TagsRequest(verb: Method, contactId: string, tags: seq<string>, locationId: string): Request {
    Request(verb, "/contacts/" + contactId + "/tags", map[], Some(JObj(map["tags" := JArr(Strs(tags))])), Some(locationId))
  }

  /**
   * The mutation, then a fresh `get_contact`. The mutation's reply is never
   * read; if the mutation raises, the follow-up fetch is not issued.
   */
  function MutateTagsThenFetch(send: Transport, verb: Method, contactId: string, tags: seq<string>, locationId: string): (c: Call<Model>)
    ensures |c.trace| >= 1
    ensures c.trace[0] == TagsRequest(verb, contactId, tags, locationId)
    ensures send(c.trace[0]).Err? ==> c.trace == [c.trace[0]] && c.result == Err(send(c.trace[0]).error)
    ensures send(c.trace[0]).Ok? ==>
      c.trace == [c.trace[0], GetContact(send, contactId, locationId).trace[0]] &&
      c.result == GetContact(send, contactId, locationId).result
  {
    var mutation := TagsRequest(verb, contactId, tags, locationId);
    var reply := send(mutation);
    if reply.Err? then Call([mutation], Err(reply.error))
    else
      var fetch := GetContact(send, contactId, locationId);
      Call([mutation] + fetch.trace, fetch.result)
  }

  /** `add_contact_tags`: POST the tags, then return the contact as fetched afterwards. */
  function AddContactTags(send: Transport, contactId: string, tags: seq<string>, locationId: string): (c: Call<Model>)
    ensures |c.trace| >= 1
    ensures c.trace[0] == Request(POST, "/contacts/" + contactId + "/tags", map[],
                                  Some(JObj(map["tags" := JArr(Strs(tags))])), Some(locationId))
    ensures send(c.trace[0]).Ok? ==>
      |c.trace| == 2 &&
      c.trace[1] == Request(GET, "/contacts/" + contactId, map[], None, Some(locationId)) &&
      c.result == UnwrapReply(send(c.trace[1]), "contact")
    ensures send(c.trace[0]).Err? ==> |c.trace| == 1 && c.result == Err(send(c.trace[0]).error)
  {
    MutateTagsThenFetch(send, POST, contactId, tags, locationId)
  }

  /** `remove_contact_tags`: DELETE the tags, then return the contact as fetched afterwards. */
  function RemoveContactTags(send: Transport, contactId: string, tags: seq<string>, locationId: string): (c: Call<Model>)
    ensures |c.trace| >= 1
    ensures c.trace[0] == Request(DELETE, "/contacts/" + contactId + "/tags", map[],
                                  Some(JObj(map["tags" := JArr(Strs(tags))])), Some(locationId))
    ensures send(c.trace[0]).Ok? ==>
      |c.trace| == 2 &&
      c.trace[1] == Request(GET, "/contacts/" + contactId, map[], None, Some(locationId)) &&
      c.result == UnwrapReply(send(c.trace[1]), "contact")
    ensures send(c.trace[0]).Err? ==> |c.trace| == 1 && c.result == Err(send(c.trace[0]).error)
  {
    MutateTagsThenFetch(send, DELETE, contactId, tags, locationId)
  }

  // Tasks

  /** `get_contact_tasks`: GET /contacts/{id}/tasks read as a page under "tasks". */
  function GetContactTasks(send: Transport, contactId: string, locationId: string): (c: Call<Page>)
    ensures c.trace == [Request(GET, "/contacts/" + contactId + "/tasks", map[], None, Some(locationId))]
    ensures c.result == PageReply(send(c.trace[0]), "tasks")
  {
    var req := Request(GET, "/contacts/" + contactId + "/tasks", map[], None, Some(locationId));
    Call([req], PageReply(send(req), "tasks"))
  }

  /** `get_contact_task`: GET /contacts/{id}/tasks/{task}, the task under "task" or the whole body. */
  function GetContactTask(send: Transport, contactId: string, taskId: string, locationId: string): (c: Call<Model>)
    ensures c.trace == [Request(GET, "/contacts/" + contactId + "/tasks/" + taskId, map[], None, Some(locationId))]
    ensures c.result == UnwrapReply(send(c.trace[0]), "task")
  {
    var req := Request(GET, "/contacts/" + contactId + "/tasks/" + taskId, map[], None, Some(locationId));
    Call([req], UnwrapReply(send(req), "task"))
  }

  /** `create_contact_task`: POST /contacts/{id}/tasks with the non-None fields. */
  function CreateContactTask(send: Transport, contactId: string, task: Model, locationId: string): (c: Call<Model>)
    ensures c.trace == [Request(POST, "/contacts/" + contactId + "/tasks", map[], Some(JObj(Dump(task))), Some(locationId))]
    ensures c.result == UnwrapReply(send(c.trace[0]), "task")
  {
    var req := Request(POST, "/contacts/" + contactId + "/tasks", map[], Some(JObj(Dump(task))), Some(locationId));
    Call([req], UnwrapReply(send(req), "task"))
  }

  /** `update_contact_task`: PUT /contacts/{id}/tasks/{task} with the non-None fields. */
  function UpdateContactTask(send: Transport, contactId: string, taskId: string, updates: Model, locationId: string): (c: Call<Model>)
    ensures c.trace == [Request(PUT, "/contacts/" + contactId + "/tasks/" + taskId, map[], Some(JObj(Dump(updates))), Some(locationId))]
    ensures c.result == UnwrapReply(send(c.trace[0]), "task")
  {
    var req := Request(PUT, "/contacts/" + contactId + "/tasks/" + taskId, map[], Some(JObj(Dump(updates))), Some(locationId));
    Call([req], UnwrapReply(send(req), "task"))
  }

  /** `delete_contact_task`: true exactly when the status is 200. */
  function DeleteContactTask(send: Transport, contactId: string, taskId: string, locationId: string): (c: Call<bool>)
    ensures c.trace == [Request(DELETE, "/contacts/" + contactId + "/tasks/" + taskId, map[], None, Some(locationId))]
    ensures c.result.Ok? <==> send(c.trace[0]).Ok?
    ensures c.result.Ok? ==> (c.result.value <==> send(c.trace[0]).value.status == 200)
  {
    var req := Request(DELETE, "/contacts/" + contactId + "/tasks/" + taskId, map[], None, Some(locationId));
    Call([req], StatusReply(send(req), {200}))
  }

  /** `complete_contact_task`: PUT `{"completed": completed}` to .../tasks/{task}/completed. */
  function CompleteContactTask(send: Transport, contactId: string, taskId: string, completed: bool, locationId: string): (c: Call<Model>)
    ensures c.trace == [Request(PUT, "/contacts/" + contactId + "/tasks/" + taskId + "/completed", map[],
                                Some(JObj(map["completed" := JBool(completed)])), Some(locationId))]
    ensures c.result == UnwrapReply(send(c.trace[0]), "task")
  {
    var req := Request(PUT, "/contacts/" + contactId + "/tasks/" + taskId + "/completed", map[],
                       Some(JObj(map["completed" := JBool(completed)])), Some(locationId));
    Call([req], UnwrapReply(send(req), "task"))
  }

  // Notes

  /** `get_contact_notes`: GET /contacts/{id}/notes read as a page under "notes". */
  function GetContactNotes(send: Transport, contactId: string, locationId: string): (c: Call<Page>)
    ensures c.trace == [Request(GET, "/contacts/" + contactId + "/notes", map[], None, Some(locationId))]
    ensures c.result == PageReply(send(c.trace[0]), "notes")
  {
    var req := Request(GET, "/contacts/" + contactId + "/notes", map[], None, Some(locationId));
    Call([req], PageReply(send(req), "notes"))
  }

  /** `get_contact_note`: the note under "note" or the whole body. */
  function GetContactNote(send: Transport, contactId: string, noteId: string, locationId: string): (c: Call<Model>)
    ensures c.trace == [Request(GET, "/contacts/" + contactId + "/notes/" + noteId, map[], None, Some(locationId))]
    ensures c.result == UnwrapReply(send(c.trace[0]), "note")
  {
    var req := Request(GET, "/contacts/" + contactId + "/notes/" + noteId, map[], None, Some(locationId));
    Call([req], UnwrapReply(send(req), "note"))
  }

  /** `create_contact_note`: POST /contacts/{id}/notes with the non-None fields. */
  function CreateContactNote(send: Transport, contactId: string, note: Model, locationId: string): (c: Call<Model>)
    ensures c.trace == [Request(POST, "/contacts/" + contactId + "/notes", map[], Some(JObj(Dump(note))), Some(locationId))]
    ensures c.result == UnwrapReply(send(c.trace[0]), "note")
  {
    var req := Request(POST, "/contacts/" + contactId + "/notes", map[], Some(JObj(Dump(note))), Some(locationId));
    Call([req], UnwrapReply(send(req), "note"))
  }

  /** `update_contact_note`: PUT /contacts/{id}/notes/{note} with the non-None fields. */
  function UpdateContactNote(send: Transport, contactId: string, noteId: string, updates: Model, locationId: string): (c: Call<Model>)
    ensures c.trace == [Request(PUT, "/contacts/" + contactId + "/notes/" + noteId, map[], Some(JObj(Dump(updates))), Some(locationId))]
    ensures c.result == UnwrapReply(send(c.trace[0]), "note")
  {
    var req := Request(PUT, "/contacts/" + contactId + "/notes/" + noteId, map[], Some(JObj(Dump(updates))), Some(locationId));
    Call([req], UnwrapReply(send(req), "note"))
  }

  /** `delete_contact_note`: true exactly when the status is 200. */
  function DeleteContactNote(send: Transport, contactId: string, noteId: string, locationId: string): (c: Call<bool>)
    ensures c.trace == [Request(DELETE, "/contacts/" + contactId + "/notes/" + noteId, map[], None, Some(locationId))]
    ensures c.result.Ok? <==> send(c.trace[0]).Ok?
    ensures c.result.Ok? ==> (c.result.value <==> send(c.trace[0]).value.status == 200)
  {
    var req := Request(DELETE, "/contacts/" + contactId + "/notes/" + noteId, map[], None, Some(locationId));
    Call([req], StatusReply(send(req), {200}))
  }

  // Campaign and workflow assignment

  /** `add_contact_to_campaign`: POST /contacts/{id}/campaigns/{campaign}; true when the status is 200 or 201. */
  function AddContactToCampaign(send: Transport, contactId: string, campaignId: string, locationId: string): (c: Call<bool>)
    ensures c.trace == [Request(POST, "/contacts/" + contactId + "/campaigns/" + campaignId, map[], None, Some(locationId))]
    ensures c.result.Ok? <==> send(c.trace[0]).Ok?
    ensures c.result.Ok? ==>
      (c.result.value <==> send(c.trace[0]).value.status == 200 || send(c.trace[0]).value.status == 201)
  {
    var req := Request(POST, "/contacts/" + contactId + "/campaigns/" + campaignId, map[], None, Some(locationId));
    Call([req], StatusReply(send(req), {200, 201}))
  }

  /** `remove_contact_from_campaign`: DELETE the same path; true only on 200. */
  function RemoveContactFromCampaign(send: Transport, contactId: string, campaignId: string, locationId: string): (c: Call<bool>)
    ensures c.trace == [Request(DELETE, "/contacts/" + contactId + "/campaigns/" + campaignId, map[], None, Some(locationId))]
    ensures c.result.Ok? <==> send(c.trace[0]).Ok?
    ensures c.result.Ok? ==> (c.result.value <==> send(c.trace[0]).value.status == 200)
  {
    var req := Request(DELETE, "/contacts/" + contactId + "/campaigns/" + campaignId, map[], None, Some(locationId));
    Call([req], StatusReply(send(req), {200}))
  }

  /** `remove_contact_from_all_campaigns`: DELETE /contacts/{id}/campaigns/removeAll; true only on 200. */
  function RemoveContactFromAllCampaigns(send: Transport, contactId: string, locationId: string): (c: Call<bool>)
    ensures c.trace == [Request(DELETE, "/contacts/" + contactId + "/campaigns/removeAll", map[], None, Some(locationId))]
    ensures c.result.Ok? <==> send(c.trace[0]).Ok?
    ensures c.result.Ok? ==> (c.result.value <==> send(c.trace[0]).value.status == 200)
  {
    var req := Request(DELETE, "/contacts/" + contactId + "/campaigns/removeAll", map[], None, Some(locationId));
    Call([req], StatusReply(send(req), {200}))
  }

  /** `add_contact_to_workflow`: POST /contacts/{id}/workflow/{workflow}; true when the status is 200 or 201. */
  function AddContactToWorkflow(send: Transport, contactId: string, workflowId: string, locationId: string): (c: Call<bool>)
    ensures c.trace == [Request(POST, "/contacts/" + contactId + "/workflow/" + workflowId, map[], None, Some(locationId))]
    ensures c.result.Ok? <==> send(c.trace[0]).Ok?
    ensures c.result.Ok? ==>
      (c.result.value <==> send(c.trace[0]).value.status == 200 || send(c.trace[0]).value.status == 201)
  {
    var req := Request(POST, "/contacts/" + contactId + "/workflow/" + workflowId, map[], None, Some(locationId));
    Call([req], StatusReply(send(req), {200, 201}))
  }

  /** `remove_contact_from_workflow`: DELETE the same path; true only on 200. */
  function RemoveContactFromWorkflow(send: Transport, contactId: string, workflowId: string, locationId: string): (c: Call<bool>)
    ensures c.trace == [Request(DELETE, "/contacts/" + contactId + "/workflow/" + workflowId, map[], None, Some(locationId))]
    ensures c.result.Ok? <==> send(c.trace[0]).Ok?
    ensures c.result.Ok? ==> (c.result.value <==> send(c.trace[0]).value.status == 200)
  {
    var req := Request(DELETE, "/contacts/" + contactId + "/workflow/" + workflowId, map[], None, Some(locationId));
    Call([req], StatusReply(send(req), {200}))
  }

  /** A 201 reply counts as success when adding to a campaign but as failure when removing from one. */
  lemma CampaignAddAndRemoveDisagreeOn201(send: Transport, contactId: string, campaignId: string, locationId: string)
    requires send(Request(POST, "/contacts/" + contactId + "/campaigns/" + campaignId, map[], None, Some(locationId)))
             == Ok(Response(201, None))
    requires send(Request(DELETE, "/contacts/" + contactId + "/campaigns/" + campaignId, map[], None, Some(locationId)))
             == Ok(Response(201, None))
    ensures AddContactToCampaign(send, contactId, campaignId, locationId).result == Ok(true)
    ensures RemoveContactFromCampaign(send, contactId, campaignId, locationId).result == Ok(false)
  {
  }
}
