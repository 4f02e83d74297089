/**
 * The extended locations client: a location's tags, custom values, custom
 * fields and templates, and the task search. No request here carries a
 * location scope; the location is part of the path. Single entities are read
 * from the raw body, and deletes answer a fixed confirmation.
 */
module LocationsExtendedApi {
  import opened Wrappers
  import opened Json
  import opened Http
  import opened Marshal

  /** `{"success": True, "message": message}` */
  function Confirmation(message: string): Json {
    JObj(map["success" := JBool(true), "message" := JStr(message)])
  }

  const TagDeletedMessage := "Tag deleted successfully"
  const CustomValueDeletedMessage := "Custom value deleted successfully"
  const CustomFieldDeletedMessage := "Custom field deleted successfully"

  /** A delete whose outcome ignores the reply: the fixed confirmation once the request returns. */
  function ConfirmedDelete(send: Transport, path: string, message: string): (c: Call<Json>)
    ensures c.trace == [Request(DELETE, path, map[], None, None)]
    ensures send(c.trace[0]).Err? ==> c.result == Err(send(c.trace[0]).error)
    ensures send(c.trace[0]).Ok? ==> c.result == Ok(Confirmation(message))
  {
    var req := Request(DELETE, path, map[], None, None);
    var reply := send(req);
    Call([req], if reply.Err? then Err(reply.error) else Ok(Confirmation(message)))
  }

  // Tags

  /** `get_location_tags`: GET /locations/{loc}/tags with the page query, read under "tags". */
  method GetLocationTags(send: Transport, locationId: string, limit: int, skip: int) returns (c: Call<Page>)
    ensures |c.trace| == 1
    ensures c.trace[0].verb == GET && c.trace[0].path == "/locations/" + locationId + "/tags"
    ensures c.trace[0].body == None && c.trace[0].scope == None
    ensures IsPageQuery(c.trace[0].query, limit, skip)
    ensures c.result == PageReply(send(c.trace[0]), "tags")
  {
    var params := PageQuery(limit, skip);
    var req := Request(GET, "/locations/" + locationId + "/tags", params, None, None);
    c := Call([req], PageReply(send(req), "tags"));
  }

  /** `get_location_tag`: GET /locations/{loc}/tags/{tag}, the raw body. */
  function GetLocationTag(send: Transport, locationId: string, tagId: string): (c: Call<Model>)
    ensures c.trace == [Request(GET, "/locations/" + locationId + "/tags/" + tagId, map[], None, None)]
    ensures c.result == RawReply(send(c.trace[0]))
  {
    var req := Request(GET, "/locations/" + locationId + "/tags/" + tagId, map[], None, None);
    Call([req], RawReply(send(req)))
  }

  /** `create_location_tag`: POST /locations/{loc}/tags/ (with the trailing slash) with the non-None fields. */
  function CreateLocationTag(send: Transport, locationId: string, tag: Model): (c: Call<Model>)
    ensures c.trace == [Request(POST, "/locations/" + locationId + "/tags/", map[], Some(JObj(Dump(tag))), None)]
    ensures c.result == RawReply(send(c.trace[0]))
  {
    var req := Request(POST, "/locations/" + locationId + "/tags/", map[], Some(JObj(Dump(tag))), None);
    Call([req], RawReply(send(req)))
  }

  /** `update_location_tag`: PUT /locations/{loc}/tags/{tag} with the non-None fields. */
  function UpdateLocationTag(send: Transport, locationId: string, tagId: string, tag: Model): (c: Call<Model>)
    ensures c.trace == [Request(PUT, "/locations/" + locationId + "/tags/" + tagId, map[], Some(JObj(Dump(tag))), None)]
    ensures c.result == RawReply(send(c.trace[0]))
  {
    var req := Request(PUT, "/locations/" + locationId + "/tags/" + tagId, map[], Some(JObj(Dump(tag))), None);
    Call([req], RawReply(send(req)))
  }

  /** `delete_location_tag`: the fixed tag confirmation whatever the status or body. */
  function DeleteLocationTag(send: Transport, locationId: string, tagId: string): (c: Call<Json>)
    ensures c.trace == [Request(DELETE, "/locations/" + locationId + "/tags/" + tagId, map[], None, None)]
    ensures send(c.trace[0]).Ok? ==>
      c.result == Ok(JObj(map["success" := JBool(true), "message" := JStr("Tag deleted successfully")]))
    ensures send(c.trace[0]).Err? ==> c.result == Err(send(c.trace[0]).error)
  {
    ConfirmedDelete(send, "/locations/" + locationId + "/tags/" + tagId, TagDeletedMessage)
  }

  // Custom values

  /** `get_location_custom_values`: GET /locations/{loc}/customValues, read under "customValues". */
  method GetLocationCustomValues(send: Transport, locationId: string, limit: int, skip: int) returns (c: Call<Page>)
    ensures |c.trace| == 1
    ensures c.trace[0].verb == GET && c.trace[0].path == "/locations/" + locationId + "/customValues"
    ensures c.trace[0].body == None && c.trace[0].scope == None
    ensures IsPageQuery(c.trace[0].query, limit, skip)
    ensures c.result == PageReply(send(c.trace[0]), "customValues")
  {
    var params := PageQuery(limit, skip);
    var req := Request(GET, "/locations/" + locationId + "/customValues", params, None, None);
    c := Call([req], PageReply(send(req), "customValues"));
  }

  /** `get_location_custom_value`: the raw body. */
  function GetLocationCustomValue(send: Transport, locationId: string, customValueId: string): (c: Call<Model>)
    ensures c.trace == [Request(GET, "/locations/" + locationId + "/customValues/" + customValueId, map[], None, None)]
    ensures c.result == RawReply(send(c.trace[0]))
  {
    var req := Request(GET, "/locations/" + locationId + "/customValues/" + customValueId, map[], None, None);
    Call([req], RawReply(send(req)))
  }

  /** `create_location_custom_value`: POST /locations/{loc}/customValues (no trailing slash). */
  function CreateLocationCustomValue(send: Transport, locationId: string, customValue: Model): (c: Call<Model>)
    ensures c.trace == [Request(POST, "/locations/" + locationId + "/customValues", map[], Some(JObj(Dump(customValue))), None)]
    ensures c.result == RawReply(send(c.trace[0]))
  {
    var req := Request(POST, "/locations/" + locationId + "/customValues", map[], Some(JObj(Dump(customValue))), None);
    Call([req], RawReply(send(req)))
  }

  /** `update_location_custom_value`: PUT /locations/{loc}/customValues/{id}. */
  function UpdateLocationCustomValue(send: Transport, locationId: string, customValueId: string, customValue: Model): (c: Call<Model>)
    ensures c.trace == [Request(PUT, "/locations/" + locationId + "/customValues/" + customValueId, map[], Some(JObj(Dump(customValue))), None)]
    ensures c.result == RawReply(send(c.trace[0]))
  {
    var req := Request(PUT, "/locations/" + locationId + "/customValues/" + customValueId, map[], Some(JObj(Dump(customValue))), None);
    Call([req], RawReply(send(req)))
  }

  /** `delete_location_custom_value`: the fixed custom-value confirmation. */
  function DeleteLocationCustomValue(send: Transport, locationId: string, customValueId: string): (c: Call<Json>)
    ensures c.trace == [Request(DELETE, "/locations/" + locationId + "/customValues/" + customValueId, map[], None, None)]
    ensures send(c.trace[0]).Ok? ==>
      c.result == Ok(JObj(map["success" := JBool(true), "message" := JStr("Custom value deleted successfully")]))
    ensures send(c.trace[0]).Err? ==> c.result == Err(send(c.trace[0]).error)
  {
    ConfirmedDelete(send, "/locations/" + locationId + "/customValues/" + customValueId, CustomValueDeletedMessage)
  }

  // Custom fields

  /** `get_location_custom_fields`: GET /locations/{loc}/customFields, read under "customFields". */
  method GetLocationCustomFields(send: Transport, locationId: string, limit: int, skip: int) returns (c: Call<Page>)
    ensures |c.trace| == 1
    ensures c.trace[0].verb == GET && c.trace[0].path == "/locations/" + locationId + "/customFields"
    ensures c.trace[0].body == None && c.trace[0].scope == None
    ensures IsPageQuery(c.trace[0].query, limit, skip)
    ensures c.result == PageReply(send(c.trace[0]), "customFields")
  {
    var params := PageQuery(limit, skip);
    var req := Request(GET, "/locations/" + locationId + "/customFields", params, None, None);
    c := Call([req], PageReply(send(req), "customFields"));
  }

  /** `get_location_custom_field`: the raw body. */
  function GetLocationCustomField(send: Transport, locationId: string, customFieldId: string): (c: Call<Model>)
    ensures c.trace == [Request(GET, "/locations/" + locationId + "/customFields/" + customFieldId, map[], None, None)]
    ensures c.result == RawReply(send(c.trace[0]))
  {
    var req := Request(GET, "/locations/" + locationId + "/customFields/" + customFieldId, map[], None, None);
    Call([req], RawReply(send(req)))
  }

  /** `create_location_custom_field`: POST /locations/{loc}/customFields. */
  function CreateLocationCustomField(send: Transport, locationId: string, customField: Model): (c: Call<Model>)
    ensures c.trace == [Request(POST, "/locations/" + locationId + "/customFields", map[], Some(JObj(Dump(customField))), None)]
    ensures c.result == RawReply(send(c.trace[0]))
  {
    var req := Request(POST, "/locations/" + locationId + "/customFields", map[], Some(JObj(Dump(customField))), None);
    Call([req], RawReply(send(req)))
  }

  /** `update_location_custom_field`: PUT /locations/{loc}/customFields/{id}. */
  function UpdateLocationCustomField(send: Transport, locationId: string, customFieldId: string, customField: Model): (c: Call<Model>)
    ensures c.trace == [Request(PUT, "/locations/" + locationId + "/customFields/" + customFieldId, map[], Some(JObj(Dump(customField))), None)]
    ensures c.result == RawReply(send(c.trace[0]))
  {
    var req := Request(PUT, "/locations/" + locationId + "/customFields/" + customFieldId, map[], Some(JObj(Dump(customField))), None);
    Call([req], RawReply(send(req)))
  }

  /** `delete_location_custom_field`: the fixed custom-field confirmation. */
  function DeleteLocationCustomField(send: Transport, locationId: string, customFieldId: string): (c: Call<Json>)
    ensures c.trace == [Request(DELETE, "/locations/" + locationId + "/customFields/" + customFieldId, map[], None, None)]
    ensures send(c.trace[0]).Ok? ==>
      c.result == Ok(JObj(map["success" := JBool(true), "message" := JStr("Custom field deleted successfully")]))
    ensures send(c.trace[0]).Err? ==> c.result == Err(send(c.trace[0]).error)
  {
    ConfirmedDelete(send, "/locations/" + locationId + "/customFields/" + customFieldId, CustomFieldDeletedMessage)
  }

  // Templates

  /** `get_location_templates`: GET /locations/{loc}/templates, read under "templates". */
  method GetLocationTemplates(send: Transport, locationId: string, limit: int, skip: int) returns (c: Call<Page>)
    ensures |c.trace| == 1
    ensures c.trace[0].verb == GET && c.trace[0].path == "/locations/" + locationId + "/templates"
    ensures c.trace[0].body == None && c.trace[0].scope == None
    ensures IsPageQuery(c.trace[0].query, limit, skip)
    ensures c.result == PageReply(send(c.trace[0]), "templates")
  {
    var params := PageQuery(limit, skip);
    var req := Request(GET, "/locations/" + locationId + "/templates", params, None, None);
    c := Call([req], PageReply(send(req), "templates"));
  }

  // Task search

  /** The task-search filters; every field is optional. */
  datatype TaskFilters = TaskFilters(
    assignedTo: Option<string>,
    contactId: Option<string>,
    status: Option<string>,
    dueDate: Option<string>,
    dateAdded: Option<string>)

  /** The filter model's fields. */
  function FilterFields(f: TaskFilters): (m: Model)
    ensures m.Keys == {"assignedTo", "contactId", "status", "dueDate", "dateAdded"}
  {
    map["assignedTo" := Str(f.assignedTo), "contactId" := Str(f.contactId), "status" := Str(f.status),
        "dueDate" := Str(f.dueDate), "dateAdded" := Str(f.dateAdded)]
  }

  /**
   * The search body: `limit`, `skip` only when positive, and, when filters are
   * given, exactly their non-None fields, none of which can overwrite the
   * pagination keys.
   */
  ghost predicate IsTaskSearchBody(body: map<string, Json>, limit: int, skip: int, filters: Option<TaskFilters>) {
    && "limit" in body && body["limit"] == JInt(limit)
    && ("skip" in body <==> skip > 0)
    && (skip > 0 ==> body["skip"] == JInt(skip))
    && (forall k | k != "limit" && k != "skip" ::
          k in body <==> filters.Some? && k in Dump(FilterFields(filters.value)))
    && (forall k | k in body && k != "limit" && k != "skip" :: body[k] == Dump(FilterFields(filters.value))[k])
  }

  /** `search_data = {"limit": limit}; if skip > 0: ...; if filters: search_data.update(filters.model_dump(exclude_none=True))` */
  method TaskSearchBody(limit: int, skip: int, filters: Option<TaskFilters>) returns (body: map<string, Json>)
    ensures IsTaskSearchBody(body, limit, skip, filters)
  {
    body := map["limit" := JInt(limit)];
    if skip > 0 {
      body := body["skip" := JInt(skip)];
    }
    // A filters model instance is always truthy, so only its absence skips the merge.
    if filters.Some? {
      body := body + Dump(FilterFields(filters.value));
    }
  }

  /** Without filters the search body is just the page query. */
  lemma UnfilteredSearchIsPageQuery(body: map<string, Json>, limit: int, skip: int)
    requires IsTaskSearchBody(body, limit, skip, None)
    ensures IsPageQuery(body, limit, skip)
  {
    assert body.Keys == {"limit"} + (if skip > 0 then {"skip"} else {});
  }

  /** Filters whose fields are all None leave the search body equal to the page query, as no filters do. */
  lemma EmptyFiltersAddNothing(body: map<string, Json>, limit: int, skip: int)
    requires IsTaskSearchBody(body, limit, skip, Some(TaskFilters(None, None, None, None, None)))
    ensures IsPageQuery(body, limit, skip)
  {
    var d := Dump(FilterFields(TaskFilters(None, None, None, None, None)));
    assert d == map[] by {
      forall k | k in d ensures false { }
    }
    assert body.Keys == {"limit"} + (if skip > 0 then {"skip"} else {});
  }

  /** `search_location_tasks`: POST /locations/{loc}/tasks/search with the search body, read under "tasks". */
  method SearchLocationTasks(send: Transport, locationId: string, filters: Option<TaskFilters>, limit: int, skip: int)
    returns (c: Call<Page>)
    ensures |c.trace| == 1
    ensures c.trace[0].verb == POST && c.trace[0].path == "/locations/" + locationId + "/tasks/search"
    ensures c.trace[0].query == map[] && c.trace[0].scope == None
    ensures c.trace[0].body.Some? && c.trace[0].body.value.JObj?
    ensures IsTaskSearchBody(c.trace[0].body.value.fields, limit, skip, filters)
    ensures c.result == PageReply(send(c.trace[0]), "tasks")
  {
    var body := TaskSearchBody(limit, skip, filters);
    var req := Request(POST, "/locations/" + locationId + "/tasks/search", map[], Some(JObj(body)), None);
    c := Call([req], PageReply(send(req), "tasks"));
  }
}
