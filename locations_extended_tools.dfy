/**
 * The extended location tools. Lists come back as the whole list object
 * nested under one key; deletes hand back the client's confirmation as it
 * is; custom-field options are validated before anything is sent; and task
 * filters are built only when one of them is truthy.
 */
module LocationsExtendedTools {
  import opened Wrappers
  import opened Json
  import opened Http
  import opened Marshal
  import opened Envelope
  import LocationsExtendedApi

  // Tags

  /** `get_location_tags` tool: the tag list nested under "tags". */
  method GetLocationTags(send: Transport, locationId: string, limit: int, skip: int) returns (c: Call<Json>)
    ensures |c.trace| == 1
    ensures c.trace[0].verb == GET && c.trace[0].path == "/locations/" + locationId + "/tags"
    ensures c.trace[0].body == None && c.trace[0].scope == None
    ensures IsPageQuery(c.trace[0].query, limit, skip)
    ensures c.result == NestedOf(PageReply(send(c.trace[0]), "tags"), "tags", "tags")
  {
    var inner := LocationsExtendedApi.GetLocationTags(send, locationId, limit, skip);
    c := Call(inner.trace, NestedOf(inner.result, "tags", "tags"));
  }

  /** `get_location_tag` tool. */
  function GetLocationTag(send: Transport, locationId: string, tagId: string): (c: Call<Json>)
    ensures c.trace == LocationsExtendedApi.GetLocationTag(send, locationId, tagId).trace
    ensures c.result == EntityOf(LocationsExtendedApi.GetLocationTag(send, locationId, tagId).result, "tag")
  {
    var inner := LocationsExtendedApi.GetLocationTag(send, locationId, tagId);
    Call(inner.trace, EntityOf(inner.result, "tag"))
  }

  /** The `LocationTagCreate` or `LocationTagUpdate` sent: a name and a colour. */
  function TagOf(name: Option<string>, color: Option<string>): (m: Model)
    ensures m.Keys == {"name", "color"}
    ensures m["name"] == Str(name) && m["color"] == Str(color)
  {
    map["name" := Str(name), "color" := Str(color)]
  }

  /** A tag without a colour is sent by its name alone. */
  lemma ColourlessTagBody(name: string)
    ensures Dump(TagOf(Some(name), None)) == map["name" := JStr(name)]
  {
    DumpKeepsExactlySetFields(TagOf(Some(name), None), {"name"});
  }

  /** `create_location_tag` tool. */
  function CreateLocationTag(send: Transport, locationId: string, name: string, color: Option<string>): (c: Call<Json>)
    ensures c.trace == LocationsExtendedApi.CreateLocationTag(send, locationId, TagOf(Some(name), color)).trace
    ensures c.result == EntityOf(LocationsExtendedApi.CreateLocationTag(send, locationId, TagOf(Some(name), color)).result, "tag")
  {
    var inner := LocationsExtendedApi.CreateLocationTag(send, locationId, TagOf(Some(name), color));
    Call(inner.trace, EntityOf(inner.result, "tag"))
  }

  /** `update_location_tag` tool. */
  function UpdateLocationTag(send: Transport, locationId: string, tagId: string, name: Option<string>, color: Option<string>)
    : (c: Call<Json>)
    ensures c.trace == LocationsExtendedApi.UpdateLocationTag(send, locationId, tagId, TagOf(name, color)).trace
    ensures c.result == EntityOf(LocationsExtendedApi.UpdateLocationTag(send, locationId, tagId, TagOf(name, color)).result, "tag")
  {
    var inner := LocationsExtendedApi.UpdateLocationTag(send, locationId, tagId, TagOf(name, color));
    Call(inner.trace, EntityOf(inner.result, "tag"))
  }

  /** `delete_location_tag` tool: the client's confirmation, unchanged. */
  function DeleteLocationTag(send: Transport, locationId: string, tagId: string): (c: Call<Json>)
    ensures c == LocationsExtendedApi.DeleteLocationTag(send, locationId, tagId)
    ensures c.result.Ok? ==> c.result.value == LocationsExtendedApi.Confirmation(LocationsExtendedApi.TagDeletedMessage)
  {
    LocationsExtendedApi.DeleteLocationTag(send, locationId, tagId)
  }

  // Custom values

  /** `get_location_custom_values` tool: the custom-value list nested under "customValues". */
  method GetLocationCustomValues(send: Transport, locationId: string, limit: int, skip: int) returns (c: Call<Json>)
    ensures |c.trace| == 1
    ensures c.trace[0].verb == GET && c.trace[0].path == "/locations/" + locationId + "/customValues"
    ensures c.trace[0].body == None && c.trace[0].scope == None
    ensures IsPageQuery(c.trace[0].query, limit, skip)
    ensures c.result == NestedOf(PageReply(send(c.trace[0]), "customValues"), "customValues", "customValues")
  {
    var inner := LocationsExtendedApi.GetLocationCustomValues(send, locationId, limit, skip);
    c := Call(inner.trace, NestedOf(inner.result, "customValues", "customValues"));
  }

  /** `get_location_custom_value` tool. */
  function GetLocationCustomValue(send: Transport, locationId: string, customValueId: string): (c: Call<Json>)
    ensures c.trace == LocationsExtendedApi.GetLocationCustomValue(send, locationId, customValueId).trace
    ensures c.result == EntityOf(LocationsExtendedApi.GetLocationCustomValue(send, locationId, customValueId).result,
                                 "customValue")
  {
    var inner := LocationsExtendedApi.GetLocationCustomValue(send, locationId, customValueId);
    Call(inner.trace, EntityOf(inner.result, "customValue"))
  }

  /** The custom-value payload: a key and a value. */
  function CustomValueOf(key: Option<string>, value: Option<string>): (m: Model)
    ensures m.Keys == {"key", "value"}
    ensures m["key"] == Str(key) && m["value"] == Str(value)
  {
    map["key" := Str(key), "value" := Str(value)]
  }

  /** `create_location_custom_value` tool: both key and value are required, so both are always sent. */
  function CreateLocationCustomValue(send: Transport, locationId: string, key: string, value: string): (c: Call<Json>)
    ensures c.trace == LocationsExtendedApi.CreateLocationCustomValue(send, locationId, CustomValueOf(Some(key), Some(value))).trace
    ensures c.trace[0].body == Some(JObj(map["key" := JStr(key), "value" := JStr(value)]))
    ensures c.result == EntityOf(LocationsExtendedApi.CreateLocationCustomValue(send, locationId,
                                   CustomValueOf(Some(key), Some(value))).result, "customValue")
  {
    var m := CustomValueOf(Some(key), Some(value));
    DumpKeepsExactlySetFields(m, {"key", "value"});
    assert Dump(m) == map["key" := JStr(key), "value" := JStr(value)];
    var inner := LocationsExtendedApi.CreateLocationCustomValue(send, locationId, CustomValueOf(Some(key), Some(value)));
    Call(inner.trace, EntityOf(inner.result, "customValue"))
  }

  /** `update_location_custom_value` tool. */
  function UpdateLocationCustomValue(send: Transport, locationId: string, customValueId: string,
                                     key: Option<string>, value: Option<string>): (c: Call<Json>)
    ensures c.trace == LocationsExtendedApi.UpdateLocationCustomValue(send, locationId, customValueId, CustomValueOf(key, value)).trace
    ensures c.result == EntityOf(LocationsExtendedApi.UpdateLocationCustomValue(send, locationId, customValueId,
                                   CustomValueOf(key, value)).result, "customValue")
  {
    var inner := LocationsExtendedApi.UpdateLocationCustomValue(send, locationId, customValueId, CustomValueOf(key, value));
    Call(inner.trace, EntityOf(inner.result, "customValue"))
  }

  /** `delete_location_custom_value` tool: the client's confirmation, unchanged. */
  function DeleteLocationCustomValue(send: Transport, locationId: string, customValueId: string): (c: Call<Json>)
    ensures c == LocationsExtendedApi.DeleteLocationCustomValue(send, locationId, customValueId)
    ensures c.result.Ok? ==>
      c.result.value == LocationsExtendedApi.Confirmation(LocationsExtendedApi.CustomValueDeletedMessage)
  {
    LocationsExtendedApi.DeleteLocationCustomValue(send, locationId, customValueId)
  }

  // Custom fields

  /** `get_location_custom_fields` tool: the custom-field list nested under "customFields". */
  method GetLocationCustomFields(send: Transport, locationId: string, limit: int, skip: int) returns (c: Call<Json>)
    ensures |c.trace| == 1
    ensures c.trace[0].verb == GET && c.trace[0].path == "/locations/" + locationId + "/customFields"
    ensures c.trace[0].body == None && c.trace[0].scope == None
    ensures IsPageQuery(c.trace[0].query, limit, skip)
    ensures c.result == NestedOf(PageReply(send(c.trace[0]), "customFields"), "customFields", "customFields")
  {
    var inner := LocationsExtendedApi.GetLocationCustomFields(send, locationId, limit, skip);
    c := Call(inner.trace, NestedOf(inner.result, "customFields", "customFields"));
  }

  /** `get_location_custom_field` tool. */
  function GetLocationCustomField(send: Transport, locationId: string, customFieldId: string): (c: Call<Json>)
    ensures c.trace == LocationsExtendedApi.GetLocationCustomField(send, locationId, customFieldId).trace
    ensures c.result == EntityOf(LocationsExtendedApi.GetLocationCustomField(send, locationId, customFieldId).result,
                                 "customField")
  {
    var inner := LocationsExtendedApi.GetLocationCustomField(send, locationId, customFieldId);
    Call(inner.trace, EntityOf(inner.result, "customField"))
  }

  /** One option dict as the tool receives it. */
  type OptionDict = map<string, string>

  /**
   * `LocationCustomFieldOption(**opt)`, serialised: name and value are
   * required, the id is kept when given, any other key is ignored.
   */
  function OptionOf(opt: OptionDict): (r: Option<Json>)
    ensures r.Some? <==> "name" in opt && "value" in opt
    ensures r.Some? ==> r.value.JObj? && r.value.fields.Keys == {"name", "value"} + (if "id" in opt then {"id"} else {})
    ensures r.Some? ==> r.value.fields["name"] == JStr(opt["name"]) && r.value.fields["value"] == JStr(opt["value"])
  {
    if "name" !in opt || "value" !in opt then None
    else if "id" in opt then
      Some(JObj(map["id" := JStr(opt["id"]), "name" := JStr(opt["name"]), "value" := JStr(opt["value"])]))
    else Some(JObj(map["name" := JStr(opt["name"]), "value" := JStr(opt["value"])]))
  }

  /** `[LocationCustomFieldOption(**opt) for opt in options]`: every option converted, or a validation error for the first bad one. */
  function OptionsOf(opts: seq<OptionDict>): (r: Option<seq<Json>>)
    ensures r.Some? <==> forall i | 0 <= i < |opts| :: "name" in opts[i] && "value" in opts[i]
    ensures r.Some? ==> |r.value| == |opts|
    ensures r.Some? ==> forall i | 0 <= i < |opts| :: Some(r.value[i]) == OptionOf(opts[i])
  {
    if opts == [] then Some([])
    else
      var first := OptionOf(opts[0]);
      var rest := OptionsOf(opts[1..]);
      if first.None? || rest.None? then
        assert first.None? ==> !("name" in opts[0] && "value" in opts[0]);
        assert rest.None? ==> exists i | 1 <= i < |opts| :: !("name" in opts[i] && "value" in opts[i]) by {
          if rest.None? {
            var j :| 0 <= j < |opts[1..]| && !("name" in opts[1..][j] && "value" in opts[1..][j]);
            assert opts[1..][j] == opts[j + 1];
          }
        }
        None
      else
        Some([first.value] + rest.value)
  }

  /** The options as sent: None unless options are given and non-empty; a validation error if one lacks a name or value. */
  function OptionsField(options: Option<seq<OptionDict>>): (r: Result<Json, Error>)
    ensures options.None? || options.value == [] ==> r == Ok(JNull)
    ensures options.Some? && options.value != [] ==>
      (r.Ok? <==> OptionsOf(options.value).Some?) &&
      (r.Ok? ==> r.value == JArr(OptionsOf(options.value).value))
  {
    if options.None? || options.value == [] then Ok(JNull)
    else
      var converted := OptionsOf(options.value);
      if converted.None? then Err(ValidationFailure("option needs a name and a value")) else Ok(JArr(converted.value))
  }

  /** The option names sent are the names given, in the same order. */
  lemma OptionNamesKept(opts: seq<OptionDict>)
    requires OptionsOf(opts).Some?
    ensures forall i | 0 <= i < |opts| :: OptionsOf(opts).value[i].fields["name"] == JStr(opts[i]["name"])
  {
    forall i | 0 <= i < |opts|
      ensures OptionsOf(opts).value[i].fields["name"] == JStr(opts[i]["name"])
    {
      assert Some(OptionsOf(opts).value[i]) == OptionOf(opts[i]);
    }
  }

  /** An option that lacks a value anywhere in the list rejects the whole list. */
  lemma OneBadOptionRejectsAll(opts: seq<OptionDict>, i: int)
    requires 0 <= i < |opts| && "value" !in opts[i]
    ensures OptionsOf(opts).None?
  {
  }

  /** The custom-field parameters shared by create and update; `isRequired` is False unless given on create. */
  datatype CustomFieldParams = CustomFieldParams(
    name: Option<string>, fieldKey: Option<string>, dataType: Option<string>, position: Option<int>,
    isRequired: Option<bool>, placeholder: Option<string>, options: Option<seq<OptionDict>>)

  /** The custom-field payload, once the options have been converted. */
  function CustomFieldOf(p: CustomFieldParams, options: Json): (m: Model)
    ensures m.Keys == {"name", "fieldKey", "dataType", "position", "isRequired", "placeholder", "options"}
    ensures m["isRequired"] == Bool(p.isRequired) && m["options"] == options
  {
    map["name" := Str(p.name), "fieldKey" := Str(p.fieldKey), "dataType" := Str(p.dataType),
        "position" := Int(p.position), "placeholder" := Str(p.placeholder),
        "isRequired" := Bool(p.isRequired), "options" := options]
  }

  /** `create_location_custom_field` tool: nothing is sent when an option is invalid. */
  function CreateLocationCustomField(send: Transport, locationId: string, p: CustomFieldParams): (c: Call<Json>)
    ensures OptionsField(p.options).Err? ==> c.trace == [] && c.result == Err(OptionsField(p.options).error)
    ensures OptionsField(p.options).Ok? ==>
      var inner := LocationsExtendedApi.CreateLocationCustomField(send, locationId, CustomFieldOf(p, OptionsField(p.options).value));
      c.trace == inner.trace && c.result == EntityOf(inner.result, "customField")
  {
    var options := OptionsField(p.options);
    if options.Err? then Call([], Err(options.error))
    else
      var inner := LocationsExtendedApi.CreateLocationCustomField(send, locationId, CustomFieldOf(p, options.value));
      Call(inner.trace, EntityOf(inner.result, "customField"))
  }

  /** `update_location_custom_field` tool: nothing is sent when an option is invalid. */
  function UpdateLocationCustomField(send: Transport, locationId: string, customFieldId: string, p: CustomFieldParams)
    : (c: Call<Json>)
    ensures OptionsField(p.options).Err? ==> c.trace == [] && c.result == Err(OptionsField(p.options).error)
    ensures OptionsField(p.options).Ok? ==>
      var inner := LocationsExtendedApi.UpdateLocationCustomField(send, locationId, customFieldId,
                                                                  CustomFieldOf(p, OptionsField(p.options).value));
      c.trace == inner.trace && c.result == EntityOf(inner.result, "customField")
  {
    var options := OptionsField(p.options);
    if options.Err? then Call([], Err(options.error))
    else
      var inner := LocationsExtendedApi.UpdateLocationCustomField(send, locationId, customFieldId, CustomFieldOf(p, options.value));
      Call(inner.trace, EntityOf(inner.result, "customField"))
  }

  /** A new custom field with the default `isRequired` carries `"isRequired": false` in its body; empty options send none. */
  lemma DefaultCustomFieldSendsIsRequired(send: Transport, locationId: string, name: string, dataType: string)
    ensures var p := CustomFieldParams(Some(name), None, Some(dataType), None, Some(false), None, Some([]));
            var body := CreateLocationCustomField(send, locationId, p).trace[0].body;
            body == Some(JObj(map["name" := JStr(name), "dataType" := JStr(dataType), "isRequired" := JBool(false)]))
  {
    var p := CustomFieldParams(Some(name), None, Some(dataType), None, Some(false), None, Some([]));
    assert OptionsField(p.options) == Ok(JNull);
    var m := CustomFieldOf(p, JNull);
    DumpKeepsExactlySetFields(m, {"name", "dataType", "isRequired"});
    assert Dump(m) == map["name" := JStr(name), "dataType" := JStr(dataType), "isRequired" := JBool(false)];
  }

  /** `delete_location_custom_field` tool: the client's confirmation, unchanged. */
  function DeleteLocationCustomField(send: Transport, locationId: string, customFieldId: string): (c: Call<Json>)
    ensures c == LocationsExtendedApi.DeleteLocationCustomField(send, locationId, customFieldId)
    ensures c.result.Ok? ==>
      c.result.value == LocationsExtendedApi.Confirmation(LocationsExtendedApi.CustomFieldDeletedMessage)
  {
    LocationsExtendedApi.DeleteLocationCustomField(send, locationId, customFieldId)
  }

  // Templates

  /** `get_location_templates` tool: the template list nested under "templates". */
  method GetLocationTemplates(send: Transport, locationId: string, limit: int, skip: int) returns (c: Call<Json>)
    ensures |c.trace| == 1
    ensures c.trace[0].verb == GET && c.trace[0].path == "/locations/" + locationId + "/templates"
    ensures c.trace[0].body == None && c.trace[0].scope == None
    ensures IsPageQuery(c.trace[0].query, limit, skip)
    ensures c.result == NestedOf(PageReply(send(c.trace[0]), "templates"), "templates", "templates")
  {
    var inner := LocationsExtendedApi.GetLocationTemplates(send, locationId, limit, skip);
    c := Call(inner.trace, NestedOf(inner.result, "templates", "templates"));
  }

  // Tasks

  /** The filter values, in the order the guard lists them. */
  function FilterValues(f: LocationsExtendedApi.TaskFilters): (vs: seq<Json>)
    ensures |vs| == 5
  {
    [Str(f.assignedTo), Str(f.contactId), Str(f.status), Str(f.dueDate), Str(f.dateAdded)]
  }

  /** The filters passed on: built only when any filter value is truthy. */
  function FiltersOf(f: LocationsExtendedApi.TaskFilters): (r: Option<LocationsExtendedApi.TaskFilters>)
    ensures r.Some? <==> AnyTruthy(FilterValues(f))
    ensures r.Some? ==> r.value == f
  {
    if AnyTruthy(FilterValues(f)) then Some(f) else None
  }

  /** `search_location_tasks` tool: the task list nested under "tasks". */
  method SearchLocationTasks(send: Transport, locationId: string, f: LocationsExtendedApi.TaskFilters, limit: int, skip: int)
    returns (c: Call<Json>)
    ensures |c.trace| == 1
    ensures c.trace[0].verb == POST && c.trace[0].path == "/locations/" + locationId + "/tasks/search"
    ensures c.trace[0].query == map[] && c.trace[0].scope == None
    ensures c.trace[0].body.Some? && c.trace[0].body.value.JObj?
    ensures LocationsExtendedApi.IsTaskSearchBody(c.trace[0].body.value.fields, limit, skip, FiltersOf(f))
    ensures c.result == NestedOf(PageReply(send(c.trace[0]), "tasks"), "tasks", "tasks")
  {
    var inner := LocationsExtendedApi.SearchLocationTasks(send, locationId, FiltersOf(f), limit, skip);
    c := Call(inner.trace, NestedOf(inner.result, "tasks", "tasks"));
  }

  /**
   * An empty-string status on its own builds no filters, so the search body is
   * the page query; passed straight to the client it would have sent `"status": ""`.
   */
  lemma EmptyStatusFilterIsDropped(body: map<string, Json>, limit: int, skip: int)
    requires LocationsExtendedApi.IsTaskSearchBody(body, limit, skip,
               FiltersOf(LocationsExtendedApi.TaskFilters(None, None, Some(""), None, None)))
    ensures IsPageQuery(body, limit, skip)
    ensures "status" in Dump(LocationsExtendedApi.FilterFields(LocationsExtendedApi.TaskFilters(None, None, Some(""), None, None)))
  {
    var f := LocationsExtendedApi.TaskFilters(None, None, Some(""), None, None);
    assert !AnyTruthy(FilterValues(f)) by {
      forall i | 0 <= i < 5 ensures !Truthy(FilterValues(f)[i]) { }
    }
    LocationsExtendedApi.UnfilteredSearchIsPageQuery(body, limit, skip);
  }
}
