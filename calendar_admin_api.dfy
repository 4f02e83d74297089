/**
 * The calendar administration client: calendars, calendar groups, event
 * deletion and block slots. Block-slot data goes out as given and comes back
 * as the raw JSON reply.
 */
module CalendarAdminApi {
  import opened Wrappers
  import opened Json
  import opened Http
  import opened Marshal

  /** `response.json()` returned as it is, whatever JSON value it holds. */
  function JsonReply(reply: Result<Response, Error>): (r: Result<Json, Error>)
    ensures reply.Err? ==> r == Err(reply.error)
    ensures reply.Ok? ==> (r.Ok? <==> reply.value.body.Some?)
    ensures r.Ok? ==> r.value == reply.value.body.value
  {
    if reply.Err? then Err(reply.error)
    else if reply.value.body.None? then Err(DecodeFailure("response body is not JSON"))
    else Ok(reply.value.body.value)
  }

  /** `create_calendar`: POST /calendars with the set fields, scoped by `calendar.locationId`; read under "calendar". */
  function CreateCalendar(send: Transport, calendar: Model): (c: Call<Model>)
    ensures c.trace == [Request(POST, "/calendars", map[], Some(JObj(Dump(calendar))), ScopeOf(calendar))]
    ensures c.result == UnwrapReply(send(c.trace[0]), "calendar")
  {
    var req := Request(POST, "/calendars", map[], Some(JObj(Dump(calendar))), ScopeOf(calendar));
    Call([req], UnwrapReply(send(req), "calendar"))
  }

  /** `update_calendar`: unscoped PUT /calendars/{id} with the set fields; read under "calendar". */
  function UpdateCalendar(send: Transport, calendarId: string, updates: Model): (c: Call<Model>)
    ensures c.trace == [Request(PUT, "/calendars/" + calendarId, map[], Some(JObj(Dump(updates))), None)]
    ensures c.result == UnwrapReply(send(c.trace[0]), "calendar")
  {
    var req := Request(PUT, "/calendars/" + calendarId, map[], Some(JObj(Dump(updates))), None);
    Call([req], UnwrapReply(send(req), "calendar"))
  }

  /** `delete_calendar`: unscoped DELETE /calendars/{id}; true exactly on status 200. */
  function DeleteCalendar(send: Transport, calendarId: string): (c: Call<bool>)
    ensures c.trace == [Request(DELETE, "/calendars/" + calendarId, map[], None, None)]
    ensures c.result.Ok? <==> send(c.trace[0]).Ok?
    ensures c.result.Ok? ==> (c.result.value <==> send(c.trace[0]).value.status == 200)
  {
    var req := Request(DELETE, "/calendars/" + calendarId, map[], None, None);
    Call([req], StatusReply(send(req), {200}))
  }

  /** `get_calendar_groups`: scoped GET /calendars/groups with `locationId`, `limit`, `skip` when positive; read under "groups". */
  method GetCalendarGroups(send: Transport, locationId: string, limit: int, skip: int) returns (c: Call<Page>)
    ensures |c.trace| == 1
    ensures c.trace[0].verb == GET && c.trace[0].path == "/calendars/groups"
    ensures c.trace[0].body == None && c.trace[0].scope == Some(locationId)
    ensures IsScopedPageQuery(c.trace[0].query, locationId, limit, skip)
    ensures c.result == PageReply(send(c.trace[0]), "groups")
  {
    var params := ScopedPageQuery(locationId, limit, skip);
    var req := Request(GET, "/calendars/groups", params, None, Some(locationId));
    c := Call([req], PageReply(send(req), "groups"));
  }

  /** `delete_calendar_event`: scoped DELETE /calendars/events/{id}; true exactly on status 200. */
  function DeleteCalendarEvent(send: Transport, eventId: string, locationId: string): (c: Call<bool>)
    ensures c.trace == [Request(DELETE, "/calendars/events/" + eventId, map[], None, Some(locationId))]
    ensures c.result.Ok? <==> send(c.trace[0]).Ok?
    ensures c.result.Ok? ==> (c.result.value <==> send(c.trace[0]).value.status == 200)
  {
    var req := Request(DELETE, "/calendars/events/" + eventId, map[], None, Some(locationId));
    Call([req], StatusReply(send(req), {200}))
  }

  /** `create_block_slot`: POST /calendars/events/block-slots with the dict unchanged; the raw JSON back. */
  function CreateBlockSlot(send: Transport, blockSlot: map<string, Json>, locationId: string): (c: Call<Json>)
    ensures c.trace == [Request(POST, "/calendars/events/block-slots", map[], Some(JObj(blockSlot)), Some(locationId))]
    ensures c.result == JsonReply(send(c.trace[0]))
  {
    var req := Request(POST, "/calendars/events/block-slots", map[], Some(JObj(blockSlot)), Some(locationId));
    Call([req], JsonReply(send(req)))
  }

  /** `update_block_slot`: PUT /calendars/events/block-slots/{id} with the dict unchanged; the raw JSON back. */
  function UpdateBlockSlot(send: Transport, eventId: string, blockSlot: map<string, Json>, locationId: string): (c: Call<Json>)
    ensures c.trace == [Request(PUT, "/calendars/events/block-slots/" + eventId, map[], Some(JObj(blockSlot)), Some(locationId))]
    ensures c.result == JsonReply(send(c.trace[0]))
  {
    var req := Request(PUT, "/calendars/events/block-slots/" + eventId, map[], Some(JObj(blockSlot)), Some(locationId));
    Call([req], JsonReply(send(req)))
  }

  /** A block-slot dict is sent as it is: unlike a model body, its None entries are not dropped. */
  lemma BlockSlotKeepsNoneEntries(send: Transport, calendarId: string, locationId: string)
    ensures CreateBlockSlot(send, map["calendarId" := JStr(calendarId), "title" := JNull], locationId).trace[0].body
         == Some(JObj(map["calendarId" := JStr(calendarId), "title" := JNull]))
  {
  }
}
