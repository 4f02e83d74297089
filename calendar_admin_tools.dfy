/**
 * The calendar administration tools. Calendars go through a `CalendarCreate`
 * or `CalendarUpdate` model; block slots go through a plain dict that the tool
 * fills key by key and the client sends unchanged.
 */
module CalendarAdminTools {
  import opened Wrappers
  import opened Json
  import opened Http
  import opened Marshal
  import opened Envelope
  import CalendarAdminApi

  /** The calendar fields the create and update tools share. */
  datatype CalendarFields = CalendarFields(
    description: Option<string>, calendarType: Option<string>, eventType: Option<string>,
    eventTitle: Option<string>, eventColor: Option<string>, slug: Option<string>,
    slotDuration: Option<int>, slotInterval: Option<int>, isActive: Option<bool>,
    autoConfirm: Option<bool>, allowReschedule: Option<bool>, allowCancellation: Option<bool>)

  /** The parameters of the create-calendar tool; `isActive` is True unless given. */
  datatype CreateCalendarParams = CreateCalendarParams(locationId: string, name: string, fields: CalendarFields)

  /** The parameters of the update-calendar tool; every field is optional. */
  datatype UpdateCalendarParams = UpdateCalendarParams(calendarId: string, name: Option<string>, fields: CalendarFields)

  /** A create request with only the required fields given. */
  function DefaultCreateCalendarParams(locationId: string, name: string): CreateCalendarParams {
    CreateCalendarParams(locationId, name,
      CalendarFields(None, None, None, None, None, None, None, None, Some(true), None, None, None))
  }

  /** The `CalendarCreate` sent, scoped by its location. */
  function CalendarCreateOf(p: CreateCalendarParams): (m: Model)
    ensures m.Keys == {"locationId", "name", "isActive", "description", "calendarType", "eventType", "eventTitle",
                       "eventColor", "slug", "slotDuration", "slotInterval", "autoConfirm", "allowReschedule",
                       "allowCancellation"}
    ensures ScopeOf(m) == Some(p.locationId)
    ensures m["locationId"] == JStr(p.locationId) && m["name"] == JStr(p.name)
    ensures m["isActive"] == Bool(p.fields.isActive) && m["description"] == Str(p.fields.description)
    ensures m["calendarType"] == Str(p.fields.calendarType) && m["eventType"] == Str(p.fields.eventType)
    ensures m["eventTitle"] == Str(p.fields.eventTitle) && m["eventColor"] == Str(p.fields.eventColor)
    ensures m["slug"] == Str(p.fields.slug) && m["slotDuration"] == Int(p.fields.slotDuration)
    ensures m["slotInterval"] == Int(p.fields.slotInterval) && m["autoConfirm"] == Bool(p.fields.autoConfirm)
    ensures m["allowReschedule"] == Bool(p.fields.allowReschedule) && m["allowCancellation"] == Bool(p.fields.allowCancellation)
  {
    var f := p.fields;
    map["locationId" := JStr(p.locationId), "name" := JStr(p.name), "isActive" := Bool(f.isActive),
        "description" := Str(f.description), "calendarType" := Str(f.calendarType), "eventType" := Str(f.eventType),
        "eventTitle" := Str(f.eventTitle), "eventColor" := Str(f.eventColor), "slug" := Str(f.slug),
        "slotDuration" := Int(f.slotDuration), "slotInterval" := Int(f.slotInterval),
        "autoConfirm" := Bool(f.autoConfirm), "allowReschedule" := Bool(f.allowReschedule),
        "allowCancellation" := Bool(f.allowCancellation)]
  }

  /** The `CalendarUpdate` sent: the same fields without a location. */
  function CalendarUpdateOf(p: UpdateCalendarParams): (m: Model)
    ensures m.Keys == {"name", "isActive", "description", "calendarType", "eventType", "eventTitle",
                       "eventColor", "slug", "slotDuration", "slotInterval", "autoConfirm", "allowReschedule",
                       "allowCancellation"}
    ensures m["name"] == Str(p.name) && m["isActive"] == Bool(p.fields.isActive)
    ensures m["description"] == Str(p.fields.description) && m["calendarType"] == Str(p.fields.calendarType)
    ensures m["eventType"] == Str(p.fields.eventType) && m["eventTitle"] == Str(p.fields.eventTitle)
    ensures m["eventColor"] == Str(p.fields.eventColor) && m["slug"] == Str(p.fields.slug)
    ensures m["slotDuration"] == Int(p.fields.slotDuration) && m["slotInterval"] == Int(p.fields.slotInterval)
    ensures m["autoConfirm"] == Bool(p.fields.autoConfirm) && m["allowReschedule"] == Bool(p.fields.allowReschedule)
    ensures m["allowCancellation"] == Bool(p.fields.allowCancellation)
  {
    var f := p.fields;
    map["name" := Str(p.name), "isActive" := Bool(f.isActive),
        "description" := Str(f.description), "calendarType" := Str(f.calendarType), "eventType" := Str(f.eventType),
        "eventTitle" := Str(f.eventTitle), "eventColor" := Str(f.eventColor), "slug" := Str(f.slug),
        "slotDuration" := Int(f.slotDuration), "slotInterval" := Int(f.slotInterval),
        "autoConfirm" := Bool(f.autoConfirm), "allowReschedule" := Bool(f.allowReschedule),
        "allowCancellation" := Bool(f.allowCancellation)]
  }

  /** A calendar created with only the required fields is sent active. */
  lemma DefaultCalendarBody(locationId: string, name: string)
    ensures Dump(CalendarCreateOf(DefaultCreateCalendarParams(locationId, name)))
         == map["locationId" := JStr(locationId), "name" := JStr(name), "isActive" := JBool(true)]
  {
    DumpKeepsExactlySetFields(CalendarCreateOf(DefaultCreateCalendarParams(locationId, name)),
                              {"locationId", "name", "isActive"});
  }

  /** `create_calendar` tool: scoped by the calendar's location. */
  function CreateCalendar(send: Transport, p: CreateCalendarParams): (c: Call<Json>)
    ensures c.trace == CalendarAdminApi.CreateCalendar(send, CalendarCreateOf(p)).trace
    ensures c.trace[0].scope == Some(p.locationId)
    ensures c.result == EntityOf(CalendarAdminApi.CreateCalendar(send, CalendarCreateOf(p)).result, "calendar")
  {
    var inner := CalendarAdminApi.CreateCalendar(send, CalendarCreateOf(p));
    Call(inner.trace, EntityOf(inner.result, "calendar"))
  }

  /** `update_calendar` tool. */
  function UpdateCalendar(send: Transport, p: UpdateCalendarParams): (c: Call<Json>)
    ensures c.trace == CalendarAdminApi.UpdateCalendar(send, p.calendarId, CalendarUpdateOf(p)).trace
    ensures c.result == EntityOf(CalendarAdminApi.UpdateCalendar(send, p.calendarId, CalendarUpdateOf(p)).result, "calendar")
  {
    var inner := CalendarAdminApi.UpdateCalendar(send, p.calendarId, CalendarUpdateOf(p));
    Call(inner.trace, EntityOf(inner.result, "calendar"))
  }

  /** `delete_calendar` tool. */
  function DeleteCalendar(send: Transport, calendarId: string): (c: Call<Json>)
    ensures c.trace == CalendarAdminApi.DeleteCalendar(send, calendarId).trace
    ensures c.result == DeletionOf(CalendarAdminApi.DeleteCalendar(send, calendarId).result,
                                   "Calendar deleted successfully", "Failed to delete calendar")
  {
    var inner := CalendarAdminApi.DeleteCalendar(send, calendarId);
    Call(inner.trace, DeletionOf(inner.result, "Calendar deleted successfully", "Failed to delete calendar"))
  }

  /** `get_calendar_groups` tool: the groups, count and total copied from the list. */
  method GetCalendarGroups(send: Transport, locationId: string, limit: int, skip: int) returns (c: Call<Json>)
    ensures |c.trace| == 1
    ensures c.trace[0].verb == GET && c.trace[0].path == "/calendars/groups"
    ensures c.trace[0].body == None && c.trace[0].scope == Some(locationId)
    ensures IsScopedPageQuery(c.trace[0].query, locationId, limit, skip)
    ensures c.result == ListingOf(PageReply(send(c.trace[0]), "groups"), "groups")
  {
    var inner := CalendarAdminApi.GetCalendarGroups(send, locationId, limit, skip);
    c := Call(inner.trace, ListingOf(inner.result, "groups"));
  }

  /** `delete_calendar_event` tool. */
  function DeleteCalendarEvent(send: Transport, eventId: string, locationId: string): (c: Call<Json>)
    ensures c.trace == CalendarAdminApi.DeleteCalendarEvent(send, eventId, locationId).trace
    ensures c.result == DeletionOf(CalendarAdminApi.DeleteCalendarEvent(send, eventId, locationId).result,
                                   "Calendar event deleted successfully", "Failed to delete calendar event")
  {
    var inner := CalendarAdminApi.DeleteCalendarEvent(send, eventId, locationId);
    Call(inner.trace, DeletionOf(inner.result, "Calendar event deleted successfully", "Failed to delete calendar event"))
  }

  /** The new-block-slot dict: calendar, start and end always, the title only when it is truthy. */
  ghost predicate IsNewBlockSlot(d: map<string, Json>, calendarId: string, startTime: string, endTime: string,
                                 title: Option<string>) {
    && d.Keys <= {"calendarId", "startTime", "endTime", "title"}
    && "calendarId" in d && d["calendarId"] == JStr(calendarId)
    && "startTime" in d && d["startTime"] == JStr(startTime)
    && "endTime" in d && d["endTime"] == JStr(endTime)
    && ("title" in d <==> Truthy(Str(title)))
    && ("title" in d ==> d["title"] == Str(title))
  }

  /** Builds the new-block-slot dict. */
  method NewBlockSlot(calendarId: string, startTime: string, endTime: string, title: Option<string>)
    returns (d: map<string, Json>)
    ensures IsNewBlockSlot(d, calendarId, startTime, endTime, title)
  {
    d := map["calendarId" := JStr(calendarId), "startTime" := JStr(startTime), "endTime" := JStr(endTime)];
    if title.Some? && title.value != "" {
      d := d["title" := JStr(title.value)];
    }
  }

  /** The block-slot update dict: each of calendar, start, end and title only when it is truthy. */
  ghost predicate IsBlockSlotUpdate(d: map<string, Json>, calendarId: Option<string>, startTime: Option<string>,
                                    endTime: Option<string>, title: Option<string>) {
    && d.Keys <= {"calendarId", "startTime", "endTime", "title"}
    && ("calendarId" in d <==> Truthy(Str(calendarId)))
    && ("startTime" in d <==> Truthy(Str(startTime)))
    && ("endTime" in d <==> Truthy(Str(endTime)))
    && ("title" in d <==> Truthy(Str(title)))
    && ("calendarId" in d ==> d["calendarId"] == Str(calendarId))
    && ("startTime" in d ==> d["startTime"] == Str(startTime))
    && ("endTime" in d ==> d["endTime"] == Str(endTime))
    && ("title" in d ==> d["title"] == Str(title))
  }

  /** Builds the block-slot update dict by conditional insertions. */
  method BlockSlotUpdate(calendarId: Option<string>, startTime: Option<string>, endTime: Option<string>,
                         title: Option<string>) returns (d: map<string, Json>)
    ensures IsBlockSlotUpdate(d, calendarId, startTime, endTime, title)
  {
    d := map[];
    if calendarId.Some? && calendarId.value != "" {
      d := d["calendarId" := JStr(calendarId.value)];
    }
    if startTime.Some? && startTime.value != "" {
      d := d["startTime" := JStr(startTime.value)];
    }
    if endTime.Some? && endTime.value != "" {
      d := d["endTime" := JStr(endTime.value)];
    }
    if title.Some? && title.value != "" {
      d := d["title" := JStr(title.value)];
    }
  }

  /** A new block slot never carries a null entry, although its dict is sent without filtering. */
  lemma NewBlockSlotHasNoNull(d: map<string, Json>, calendarId: string, startTime: string, endTime: string,
                              title: Option<string>)
    requires IsNewBlockSlot(d, calendarId, startTime, endTime, title)
    ensures JNull !in d.Values
  {
  }

  /** An update naming nothing truthy sends the empty object. */
  lemma EmptyBlockSlotUpdate(d: map<string, Json>)
    requires IsBlockSlotUpdate(d, None, Some(""), None, None)
    ensures d == map[]
  {
  }

  /** `{"success": True, "block_slot": result}`, with the raw reply as the result. */
  function BlockSlotOf(r: Result<Json, Error>): (e: Result<Json, Error>)
    ensures r.Err? ==> e == Err(r.error)
    ensures r.Ok? ==> e.Ok? && e.value.JObj? && e.value.fields.Keys == {"success", "block_slot"}
    ensures r.Ok? ==> e.value.fields["success"] == JBool(true) && e.value.fields["block_slot"] == r.value
  {
    if r.Err? then Err(r.error) else Ok(JObj(map["success" := JBool(true), "block_slot" := r.value]))
  }

  /** `create_block_slot` tool. */
  method CreateBlockSlot(send: Transport, locationId: string, calendarId: string, startTime: string, endTime: string,
                         title: Option<string>) returns (c: Call<Json>)
    ensures |c.trace| == 1
    ensures c.trace[0].verb == POST && c.trace[0].path == "/calendars/events/block-slots"
    ensures c.trace[0].query == map[] && c.trace[0].scope == Some(locationId)
    ensures c.trace[0].body.Some? && c.trace[0].body.value.JObj?
    ensures IsNewBlockSlot(c.trace[0].body.value.fields, calendarId, startTime, endTime, title)
    ensures c.result == BlockSlotOf(CalendarAdminApi.JsonReply(send(c.trace[0])))
  {
    var d := NewBlockSlot(calendarId, startTime, endTime, title);
    var inner := CalendarAdminApi.CreateBlockSlot(send, d, locationId);
    c := Call(inner.trace, BlockSlotOf(inner.result));
  }

  /** `update_block_slot` tool. */
  method UpdateBlockSlot(send: Transport, eventId: string, locationId: string, calendarId: Option<string>,
                         startTime: Option<string>, endTime: Option<string>, title: Option<string>)
    returns (c: Call<Json>)
    ensures |c.trace| == 1
    ensures c.trace[0].verb == PUT && c.trace[0].path == "/calendars/events/block-slots/" + eventId
    ensures c.trace[0].query == map[] && c.trace[0].scope == Some(locationId)
    ensures c.trace[0].body.Some? && c.trace[0].body.value.JObj?
    ensures IsBlockSlotUpdate(c.trace[0].body.value.fields, calendarId, startTime, endTime, title)
    ensures c.result == BlockSlotOf(CalendarAdminApi.JsonReply(send(c.trace[0])))
  {
    var d := BlockSlotUpdate(calendarId, startTime, endTime, title);
    var inner := CalendarAdminApi.UpdateBlockSlot(send, eventId, d, locationId);
    c := Call(inner.trace, BlockSlotOf(inner.result));
  }
}
