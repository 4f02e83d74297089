# GoHighLevel client marshalling — a Dafny model

This project models the request/response marshalling of a Python client SDK
for the GoHighLevel CRM API, and the reshaping done by the MCP tool wrappers
built on top of it.

Each resource client (`src/api/*.py`) turns one logical operation into one
call of the shared `_request` helper. The model records that call as a
request descriptor: the verb, the path with its embedded ids, the query map,
the JSON body and the location scope. It then reads the reply. Replies are
read in several ways:

- a wrapper key with a fallback to the whole body (`data.get("contact", data)`);
- the raw body, with no unwrap;
- a list page whose `count` is the number of items returned and whose `total`
  is the server's total, or `count` when the server gives none;
- a status test (`== 200`, `in (200, 201)`, or the 204 branch of
  `delete_link`).

The transport is a function parameter of every operation. An operation
returns the requests it issued, in order, together with its outcome, so the
two follow-up fetches after a tag mutation show up as a two-request trace.

The tool wrappers (`src/mcp/tools/{contacts,locations,users,businesses,calendar_admin,locations_extended}.py`)
do two things, and both are modelled:

- They build the pydantic request model from flat parameters. This covers
  the `any([...])` guards on addresses, settings and permissions, and the
  custom-field list conversions.
- They wrap the client's result in a `{"success": True, ...}` envelope.

Python's own semantics are written out in the `Json` module:

- truthiness;
- `dict.get` with a default;
- `model_dump(exclude_none=True)`, where a field set to `None` is dropped.

A pydantic model is a map from field name to JSON value, in which `JNull`
stands for `None`. Query maps and dicts that the source builds by
conditional insertion are built by methods with the same `if` statements.
Each such method is proved against a predicate that states which keys are
present and what they hold.

Modules, one per source file plus shared ones:

- `Wrappers`: `Option` and `Result`.
- `Json`: JSON values and Python truthiness, plus the `exclude_none` dump.
- `Http`: the request descriptor, the response, the transport and a call's trace.
- `Marshal`: the list-page, unwrap and status readers shared by the clients, and the `limit`/`skip` query.
- `Envelope`: the tool envelopes (entity, listing, nested listing, deletion).
- `Text`: the `","` join and split of tag lists.
- `CustomFields`: the `{key: value}` ↔ `[{"key", "value"}]` conversion.
- `*Api`: one module per client file.
- `*Tools`: one module per tool file.

Behaviour of the source worth noting:

- `get_contacts` takes `total` from `meta.total or total`, with no fallback to `count`. A `meta.total` of 0 therefore falls through to the top-level `total`.
- The three `locations_extended` deletes return a fixed success dict whatever the status.
- `delete_link` succeeds on 204 without reading a body.

## Model

| member | source | states |
|---|---|---|
| Json.Dump | src/api/contacts.py:65 | a field is in the serialised object exactly when it is set (not None), with its value unchanged; no null value survives |
| Json.TruthyStr | src/mcp/tools/locations.py:57 | an optional string counts in an `any([...])` guard exactly when it is given and non-empty |
| Json.TruthyBool | src/mcp/tools/locations.py:68-71 | an optional flag counts in an `any([...])` guard exactly when it is True; an explicit False does not |
| Json.DumpKeepsExactlySetFields | src/api/businesses.py:69 | a model whose set fields are exactly `keys` serialises to exactly those fields with their values |
| Json.DumpUnion | src/api/locations_extended.py:347 | serialising the union of two models with disjoint fields is the union of their serialisations |
| Json.DumpAllNone | src/api/locations_extended.py:347 | a model with every field None serialises to `{}` |
| Text.Join | src/api/contacts.py:37-38 | joining no tags gives the empty string and one tag gives that tag unchanged |
| Text.SplitJoin | src/api/contacts.py:37-38 | splitting the comma-joined tags at commas gives back the same non-empty list when no tag holds a comma |
| CustomFields.ToList | src/mcp/tools/contacts.py:63-65 | one `{"key": k, "value": v}` object per dict item, in the dict's order |
| CustomFields.FromToList | src/mcp/tools/contacts.py:63-65 | the `{key, value}` list reads back as exactly the dict items it came from, in order |
| Marshal.PageQuery | src/api/links.py:24-26 | the query holds `limit`, and `skip` exactly when skip is positive, with the given values |
| Marshal.ScopedPageQuery | src/api/campaigns.py:25-27 | the query holds `locationId` and `limit`, and `skip` exactly when skip is positive, with the given values |
| Marshal.PageQueryWithoutSkip | src/api/links.py:24-26 | with skip 0 the query is exactly `{"limit": limit}` |
| Marshal.Entities | src/api/campaigns.py:34-36 | a list decodes exactly when every element is an object, to those objects in order; "" and {} iterate as nothing; any other value raises |
| Marshal.DecodePage | src/api/campaigns.py:33-39 | succeeds exactly when the body is an object whose list under the key (default []) decodes; count is the number of items, total is the body's "total" or else the count |
| Marshal.Unwrap | src/api/businesses.py:54-55 | succeeds exactly when the body is an object and the value under the key, if present, is an object; the entity is that value when the key is present, otherwise the whole body |
| Marshal.Raw | src/api/products.py:57 | succeeds exactly when the body is an object, and the entity is the whole body |
| Marshal.ScopeOf | src/api/businesses.py:70 | the scope is the payload's `locationId` when it holds a string, and absent otherwise |
| Marshal.PageReply | src/api/campaigns.py:29-39 | a raised transport error propagates unchanged; a reply is decoded as a page |
| Marshal.UnwrapReply | src/api/businesses.py:51-55 | a raised transport error propagates unchanged; a reply is unwrapped under the key |
| Marshal.RawReply | src/api/products.py:54-57 | a raised transport error propagates unchanged; a reply is read raw |
| Marshal.StatusReply | src/api/businesses.py:107-110 | a raised transport error propagates; otherwise the result is whether the status is among the accepted ones, body unread |
| Marshal.UnwrapAcceptsBothShapes | src/api/businesses.py:54-55 | a bare entity body and the same entity wrapped under its key decode to the same entity |
| Marshal.RawKeepsWrapper | src/api/products.py:57 | a raw read of a wrapped body yields the wrapper, not the entity inside it |
| Marshal.PageTotalDefaultsToCount | src/api/campaigns.py:34-38 | a page body without "total" decodes to its items with count and total both equal to their number |
| Marshal.PageWithoutKeyIsEmpty | src/api/campaigns.py:34 | a body without the list key decodes to an empty page with count 0 |
| Envelope.Entity | src/mcp/tools/businesses.py:48 | the envelope has exactly the keys "success" (true) and the entity key holding the entity |
| Envelope.Listing | src/mcp/tools/businesses.py:35-40 | the envelope has exactly "success" (true), the items key holding the entities in order, and the list's count and total |
| Envelope.Nested | src/mcp/tools/locations_extended.py:38 | the envelope has exactly "success" (true) and the key holding the whole list object: its items, count and total |
| Envelope.Deletion | src/mcp/tools/businesses.py:139-146 | the envelope has exactly "success" (the client's boolean) and "message", the success text when true and the failure text when false |
| Envelope.EntityOf | src/mcp/tools/businesses.py:47-48 | a raised error propagates; a decoded entity becomes the entity envelope |
| Envelope.ListingOf | src/mcp/tools/businesses.py:34-40 | a raised error propagates; a decoded list becomes the list envelope |
| Envelope.NestedOf | src/mcp/tools/locations_extended.py:37-38 | a raised error propagates; a decoded list becomes the nested list envelope |
| Envelope.DeletionOf | src/mcp/tools/businesses.py:138-146 | a raised error propagates; a boolean becomes the delete envelope |
| Envelope.DeletionMessageMatchesSuccess | src/mcp/tools/businesses.py:139-146 | with distinct texts, the message is the success text exactly when success is reported |
| Envelope.ListingCountMatchesItems | src/mcp/tools/businesses.py:35-40 | the list envelope's count equals the number of items it carries |
| BusinessesApi.GetBusinesses | src/api/businesses.py:12-39 | exactly one request, GET /businesses scoped to the location with no body and the scoped page query (`locationId`, `limit`, `skip` only when positive) as its query; the result is the page decoded under "businesses" |
| BusinessesApi.GetBusiness | src/api/businesses.py:41-55 | exactly one request, GET /businesses/{id} scoped to the location with no query and no body; the entity is the object under "business" when the reply has that key, otherwise the whole body; raised errors propagate |
| BusinessesApi.CreateBusiness | src/api/businesses.py:57-73 | exactly one request, POST /businesses scoped by the payload's own `locationId` whose body is the payload with its None fields dropped; the entity is read from under "business" or the whole body; raised errors propagate |
| BusinessesApi.UpdateBusiness | src/api/businesses.py:75-95 | exactly one request, PUT /businesses/{id} scoped to the location whose body is the payload with its None fields dropped; the entity is read from under "business" or the whole body; raised errors propagate |
| BusinessesApi.DeleteBusiness | src/api/businesses.py:97-110 | exactly one request, DELETE /businesses/{id} scoped to the location with no body; the outcome is an error exactly when the transport raises, and otherwise true exactly when the status is 200 |
| CalendarAdminApi.JsonReply | src/api/calendar_admin.py:128 | a raised error propagates; otherwise succeeds exactly when the body is JSON, returning that JSON value unchanged, whatever its shape |
| CalendarAdminApi.CreateCalendar | src/api/calendar_admin.py:12-28 | exactly one request, POST /calendars scoped by the payload's own `locationId` whose body is the payload with its None fields dropped; the entity is read from under "calendar" or the whole body; raised errors propagate |
| CalendarAdminApi.UpdateCalendar | src/api/calendar_admin.py:30-48 | exactly one request, PUT /calendars/{id} unscoped whose body is the payload with its None fields dropped; the entity is read from under "calendar" or the whole body; raised errors propagate |
| CalendarAdminApi.DeleteCalendar | src/api/calendar_admin.py:50-62 | exactly one request, DELETE /calendars/{id} unscoped with no body; the outcome is an error exactly when the transport raises, and otherwise true exactly when the status is 200 |
| CalendarAdminApi.GetCalendarGroups | src/api/calendar_admin.py:64-91 | exactly one request, GET /calendars/groups scoped to the location with no body and the scoped page query (`locationId`, `limit`, `skip` only when positive) as its query; the result is the page decoded under "groups" |
| CalendarAdminApi.DeleteCalendarEvent | src/api/calendar_admin.py:95-110 | exactly one request, DELETE /calendars/events/{id} scoped to the location with no body; the outcome is an error exactly when the transport raises, and otherwise true exactly when the status is 200 |
| CalendarAdminApi.CreateBlockSlot | src/api/calendar_admin.py:112-128 | exactly one request, POST /calendars/events/block-slots scoped to the location, whose body is the dict exactly as given; the result is the reply JSON as it is |
| CalendarAdminApi.UpdateBlockSlot | src/api/calendar_admin.py:130-147 | exactly one request, PUT /calendars/events/block-slots/{id} scoped to the location, whose body is the dict exactly as given; the result is the reply JSON as it is |
| CalendarAdminApi.BlockSlotKeepsNoneEntries | src/api/calendar_admin.py:122-126 | a null entry in a block-slot dict is sent as null: the dict is not filtered the way a model body is |
| CampaignsApi.GetCampaigns | src/api/campaigns.py:12-39 | exactly one request, GET /campaigns scoped to the location with no body and the scoped page query (`locationId`, `limit`, `skip` only when positive) as its query; the result is the page decoded under "campaigns" |
| WorkflowsApi.GetWorkflows | src/api/workflows.py:12-39 | exactly one request, GET /workflows scoped to the location with no body and the scoped page query (`locationId`, `limit`, `skip` only when positive) as its query; the result is the page decoded under "workflows" |
| ContactsApi.ContactsQuery | src/api/contacts.py:25-38 | the query holds `locationId` and `limit`, `skip` exactly when positive, and each of `query`, `email`, `phone`, `tags` exactly when that filter is truthy, the tags comma-joined |
| ContactsApi.TagsFilterRecoversTags | src/api/contacts.py:37-38 | when no tag holds a comma, splitting the sent `tags` value at commas gives back exactly the tags asked for |
| ContactsApi.BareContactsQuery | src/api/contacts.py:25-38 | with skip 0, no query or phone, an empty email and an empty tag list (all falsy), the query is exactly `locationId` and `limit` |
| ContactsApi.ContactsTotal | src/api/contacts.py:47 | a non-object `meta` raises; otherwise the total is `meta.total` when truthy and else the top-level `total` (None when absent), never the count |
| ContactsApi.DecodeContactList | src/api/contacts.py:43-50 | succeeds exactly when the body is an object, the contacts decode and `meta` is an object or absent; count is the number of contacts; meta and traceId are copied or None |
| ContactsApi.ZeroMetaTotalFallsThrough | src/api/contacts.py:47 | a `meta.total` of 0 is falsy, so the top-level total wins and, being absent, the list has total None |
| ContactsApi.NoCountFallback | src/api/contacts.py:44-47 | a reply with one contact and no total at all decodes with count 1 and total None: there is no fallback to the count |
| ContactsApi.MetaTotalWins | src/api/contacts.py:47 | a truthy `meta.total` is taken over the top-level total |
| ContactsApi.ContactListReply | src/api/contacts.py:40-50 | a raised transport error propagates; a reply is decoded as a contact list |
| ContactsApi.GetContacts | src/api/contacts.py:14-50 | exactly one request, GET /contacts scoped to the location, no body, with the filter query above; the result is the reply decoded as a contact list |
| ContactsApi.GetContact | src/api/contacts.py:52-58 | exactly one request, GET /contacts/{id} scoped to the location with no query and no body; the entity is the object under "contact" when the reply has that key, otherwise the whole body; raised errors propagate |
| ContactsApi.CreateContact | src/api/contacts.py:60-69 | exactly one request, POST /contacts scoped by the payload's own `locationId` whose body is the payload with its None fields dropped; the entity is read from under "contact" or the whole body; raised errors propagate |
| ContactsApi.UpdateContact | src/api/contacts.py:71-82 | exactly one request, PUT /contacts/{id} scoped to the location whose body is the payload with its None fields dropped; the entity is read from under "contact" or the whole body; raised errors propagate |
| ContactsApi.DeleteContact | src/api/contacts.py:84-89 | exactly one request, DELETE /contacts/{id} scoped to the location with no body; the outcome is an error exactly when the transport raises, and otherwise true exactly when the status is 200 |
| ContactsApi.MutateTagsThenFetch | src/api/contacts.py:91-117 | the first request is the tag mutation with body `{"tags": tags}`; if it raises, nothing else is sent and the error propagates; otherwise the second and last request is the contact fetch, whose outcome is the result |
| ContactsApi.AddContactTags | src/api/contacts.py:91-103 | POST /contacts/{id}/tags with the tags, then the contact fetched afresh; the tag reply is never read |
| ContactsApi.RemoveContactTags | src/api/contacts.py:105-117 | DELETE /contacts/{id}/tags with the tags as body, then the contact fetched afresh; the tag reply is never read |
| ContactsApi.GetContactTasks | src/api/contacts.py:121-132 | exactly one request, GET /contacts/{id}/tasks scoped to the location with no query and no body; the result is the page decoded under "tasks" |
| ContactsApi.GetContactTask | src/api/contacts.py:134-142 | exactly one request, GET /contacts/{id}/tasks/{task} scoped to the location with no query and no body; the entity is the object under "task" when the reply has that key, otherwise the whole body; raised errors propagate |
| ContactsApi.CreateContactTask | src/api/contacts.py:144-155 | exactly one request, POST /contacts/{id}/tasks scoped to the location whose body is the payload with its None fields dropped; the entity is read from under "task" or the whole body; raised errors propagate |
| ContactsApi.UpdateContactTask | src/api/contacts.py:157-168 | exactly one request, PUT /contacts/{id}/tasks/{task} scoped to the location whose body is the payload with its None fields dropped; the entity is read from under "task" or the whole body; raised errors propagate |
| ContactsApi.DeleteContactTask | src/api/contacts.py:170-177 | exactly one request, DELETE /contacts/{id}/tasks/{task} scoped to the location with no body; the outcome is an error exactly when the transport raises, and otherwise true exactly when the status is 200 |
| ContactsApi.CompleteContactTask | src/api/contacts.py:179-190 | exactly one request, PUT /contacts/{id}/tasks/{task}/completed scoped to the location with body `{"completed": completed}`; the task is read from under "task" or the whole body |
| ContactsApi.GetContactNotes | src/api/contacts.py:194-205 | exactly one request, GET /contacts/{id}/notes scoped to the location with no query and no body; the result is the page decoded under "notes" |
| ContactsApi.GetContactNote | src/api/contacts.py:207-215 | exactly one request, GET /contacts/{id}/notes/{note} scoped to the location with no query and no body; the entity is the object under "note" when the reply has that key, otherwise the whole body; raised errors propagate |
| ContactsApi.CreateContactNote | src/api/contacts.py:217-228 | exactly one request, POST /contacts/{id}/notes scoped to the location whose body is the payload with its None fields dropped; the entity is read from under "note" or the whole body; raised errors propagate |
| ContactsApi.UpdateContactNote | src/api/contacts.py:230-241 | exactly one request, PUT /contacts/{id}/notes/{note} scoped to the location whose body is the payload with its None fields dropped; the entity is read from under "note" or the whole body; raised errors propagate |
| ContactsApi.DeleteContactNote | src/api/contacts.py:243-250 | exactly one request, DELETE /contacts/{id}/notes/{note} scoped to the location with no body; the outcome is an error exactly when the transport raises, and otherwise true exactly when the status is 200 |
| ContactsApi.AddContactToCampaign | src/api/contacts.py:254-263 | exactly one request, POST /contacts/{id}/campaigns/{campaign} scoped to the location; true exactly when the status is 200 or 201 |
| ContactsApi.RemoveContactFromCampaign | src/api/contacts.py:265-274 | exactly one request, DELETE /contacts/{id}/campaigns/{campaign} scoped to the location with no body; the outcome is an error exactly when the transport raises, and otherwise true exactly when the status is 200 |
| ContactsApi.RemoveContactFromAllCampaigns | src/api/contacts.py:276-285 | exactly one request, DELETE /contacts/{id}/campaigns/removeAll scoped to the location with no body; the outcome is an error exactly when the transport raises, and otherwise true exactly when the status is 200 |
| ContactsApi.AddContactToWorkflow | src/api/contacts.py:287-296 | exactly one request, POST /contacts/{id}/workflow/{workflow} scoped to the location; true exactly when the status is 200 or 201 |
| ContactsApi.RemoveContactFromWorkflow | src/api/contacts.py:298-307 | exactly one request, DELETE /contacts/{id}/workflow/{workflow} scoped to the location with no body; the outcome is an error exactly when the transport raises, and otherwise true exactly when the status is 200 |
| ContactsApi.CampaignAddAndRemoveDisagreeOn201 | src/api/contacts.py:263-274 | a 201 reply makes adding to a campaign succeed and removing from one fail |
| LinksApi.NewLinkBody | src/models/link.py:26-33 | a link given only its name and URL is sent as exactly its name, URL and `isActive: true` |
| LinksApi.FullLinkBody | src/models/link.py:26-33 | a link with every field given is sent with all four fields as given |
| LinksApi.UpdateBodyNamesChangedFields | src/models/link.py:35-42 | each update field is in the body exactly when it is given, and no other field is |
| LinksApi.GetLinks | src/api/links.py:11-38 | exactly one request, GET /links/ scoped to the location with no body and the page query (`limit`, `skip` only when positive) as its query; the result is the page decoded under "links" |
| LinksApi.GetLink | src/api/links.py:40-54 | exactly one request, GET /links/{id} scoped to the location with no query and no body; the entity is the object under "link" when the reply has that key, otherwise the whole body; raised errors propagate |
| LinksApi.CreateLink | src/api/links.py:56-70 | exactly one request, POST /links/ scoped to the location whose body is the payload with its None fields dropped; the entity is read from under "link" or the whole body; raised errors propagate |
| LinksApi.UpdateLink | src/api/links.py:72-87 | exactly one request, PUT /links/{id} scoped to the location whose body is the payload with its None fields dropped; the entity is read from under "link" or the whole body; raised errors propagate |
| LinksApi.DecodeLinkDeletion | src/api/links.py:103-107 | on 204 the fixed confirmation, body unread; otherwise succeeds exactly when the body is an object, with the server's "message" or the default text; success is always true |
| LinksApi.DeleteLink | src/api/links.py:89-107 | exactly one request, DELETE /links/{id} scoped to the location; a raised error propagates, otherwise the reply is read by the 204 rule above |
| LinksApi.NoContentNeedsNoBody | src/api/links.py:103-104 | a 204 reply with no body still gives the success confirmation |
| LocationsApi.LocationSearchQuery | src/api/locations.py:45-51 | the query holds `limit`, `skip` exactly when positive, and `companyId` and `query` each exactly when truthy, with the given values |
| LocationsApi.UnfilteredSearchIsPageQuery | src/api/locations.py:45-51 | with no company and an empty search text the query is just the page query |
| LocationsApi.GetLocation | src/api/locations.py:12-25 | exactly one request, GET /locations/{id} unscoped with no query and no body; the entity is the object under "location" when the reply has that key, otherwise the whole body; raised errors propagate |
| LocationsApi.SearchLocations | src/api/locations.py:27-63 | exactly one request, GET /locations/search unscoped with no body and the search query above as its query; the result is the page decoded under "locations" |
| LocationsApi.CreateLocation | src/api/locations.py:65-80 | exactly one request, POST /locations unscoped whose body is the payload with its None fields dropped; the entity is read from under "location" or the whole body; raised errors propagate |
| LocationsApi.UpdateLocation | src/api/locations.py:82-100 | exactly one request, PUT /locations/{id} unscoped whose body is the payload with its None fields dropped; the entity is read from under "location" or the whole body; raised errors propagate |
| LocationsApi.DeleteLocation | src/api/locations.py:102-114 | exactly one request, DELETE /locations/{id} unscoped with no body; the outcome is an error exactly when the transport raises, and otherwise true exactly when the status is 200 |
| LocationsExtendedApi.ConfirmedDelete | src/api/locations_extended.py:94-107 | exactly one unscoped DELETE with no body; a raised error propagates, otherwise the fixed confirmation whatever the reply |
| LocationsExtendedApi.GetLocationTags | src/api/locations_extended.py:17-42 | exactly one request, GET /locations/{loc}/tags unscoped with no body and the page query (`limit`, `skip` only when positive) as its query; the result is the page decoded under "tags" |
| LocationsExtendedApi.GetLocationTag | src/api/locations_extended.py:44-57 | exactly one request, GET /locations/{loc}/tags/{tag} unscoped with no query and no body; the entity is the whole reply body; raised errors propagate |
| LocationsExtendedApi.CreateLocationTag | src/api/locations_extended.py:59-74 | exactly one request, POST /locations/{loc}/tags/ unscoped whose body is the payload with its None fields dropped; the entity is the whole reply body; raised errors propagate |
| LocationsExtendedApi.UpdateLocationTag | src/api/locations_extended.py:76-92 | exactly one request, PUT /locations/{loc}/tags/{tag} unscoped whose body is the payload with its None fields dropped; the entity is the whole reply body; raised errors propagate |
| LocationsExtendedApi.DeleteLocationTag | src/api/locations_extended.py:94-107 | exactly one unscoped request, DELETE /locations/{loc}/tags/{tag}; a raised error propagates, otherwise the result is `{"success": true, "message": "Tag deleted successfully"}` whatever the status or body |
| LocationsExtendedApi.GetLocationCustomValues | src/api/locations_extended.py:110-135 | exactly one request, GET /locations/{loc}/customValues unscoped with no body and the page query (`limit`, `skip` only when positive) as its query; the result is the page decoded under "customValues" |
| LocationsExtendedApi.GetLocationCustomValue | src/api/locations_extended.py:137-150 | exactly one request, GET /locations/{loc}/customValues/{id} unscoped with no query and no body; the entity is the whole reply body; raised errors propagate |
| LocationsExtendedApi.CreateLocationCustomValue | src/api/locations_extended.py:152-167 | exactly one request, POST /locations/{loc}/customValues unscoped whose body is the payload with its None fields dropped; the entity is the whole reply body; raised errors propagate |
| LocationsExtendedApi.UpdateLocationCustomValue | src/api/locations_extended.py:169-185 | exactly one request, PUT /locations/{loc}/customValues/{id} unscoped whose body is the payload with its None fields dropped; the entity is the whole reply body; raised errors propagate |
| LocationsExtendedApi.DeleteLocationCustomValue | src/api/locations_extended.py:187-200 | exactly one unscoped request, DELETE /locations/{loc}/customValues/{id}; a raised error propagates, otherwise the result is `{"success": true, "message": "Custom value deleted successfully"}` whatever the status or body |
| LocationsExtendedApi.GetLocationCustomFields | src/api/locations_extended.py:203-228 | exactly one request, GET /locations/{loc}/customFields unscoped with no body and the page query (`limit`, `skip` only when positive) as its query; the result is the page decoded under "customFields" |
| LocationsExtendedApi.GetLocationCustomField | src/api/locations_extended.py:230-243 | exactly one request, GET /locations/{loc}/customFields/{id} unscoped with no query and no body; the entity is the whole reply body; raised errors propagate |
| LocationsExtendedApi.CreateLocationCustomField | src/api/locations_extended.py:245-260 | exactly one request, POST /locations/{loc}/customFields unscoped whose body is the payload with its None fields dropped; the entity is the whole reply body; raised errors propagate |
| LocationsExtendedApi.UpdateLocationCustomField | src/api/locations_extended.py:262-278 | exactly one request, PUT /locations/{loc}/customFields/{id} unscoped whose body is the payload with its None fields dropped; the entity is the whole reply body; raised errors propagate |
| LocationsExtendedApi.DeleteLocationCustomField | src/api/locations_extended.py:280-293 | exactly one unscoped request, DELETE /locations/{loc}/customFields/{id}; a raised error propagates, otherwise the result is `{"success": true, "message": "Custom field deleted successfully"}` whatever the status or body |
| LocationsExtendedApi.GetLocationTemplates | src/api/locations_extended.py:296-321 | exactly one request, GET /locations/{loc}/templates unscoped with no body and the page query (`limit`, `skip` only when positive) as its query; the result is the page decoded under "templates" |
| LocationsExtendedApi.FilterFields | src/models/location.py:290-299 | the filter model has exactly the fields assignedTo, contactId, status, dueDate and dateAdded |
| LocationsExtendedApi.TaskSearchBody | src/api/locations_extended.py:342-347 | the body holds `limit`, `skip` exactly when positive, and every other key exactly when filters are given and that filter field is set, with its value |
| LocationsExtendedApi.UnfilteredSearchIsPageQuery | src/api/locations_extended.py:342-347 | without filters the search body is exactly the page query |
| LocationsExtendedApi.EmptyFiltersAddNothing | src/api/locations_extended.py:346-347 | filters whose fields are all None add nothing: the body is the page query, as with no filters |
| LocationsExtendedApi.SearchLocationTasks | src/api/locations_extended.py:324-359 | exactly one unscoped request, POST /locations/{loc}/tasks/search with no query and the search body above; the result is the page decoded under "tasks" |
| OAuthManagementApi.UnscopedTokenRequestBody | src/models/oauth.py:45-49 | a token request without a scope is sent as exactly `{"locationId": ...}` |
| OAuthManagementApi.GetInstalledLocations | src/api/oauth_management.py:15-41 | exactly one request, GET /oauth/installedLocations unscoped with no body and the page query (`limit`, `skip` only when positive) as its query; the result is the page decoded under "locations" |
| OAuthManagementApi.GenerateLocationToken | src/api/oauth_management.py:43-56 | exactly one request, POST /oauth/locationToken unscoped whose body is the payload with its None fields dropped; the entity is read from under "token" or the whole body; raised errors propagate |
| OAuthManagementApi.UpdateSaasSubscription | src/api/oauth_management.py:58-76 | exactly one request, PUT /update-saas-subscription/{loc} unscoped whose body is the payload with its None fields dropped; the entity is read from under "subscription" or the whole body; raised errors propagate |
| PaymentsApi.FulfillmentBodyHoldsSetFields | src/models/payment.py:168-176 | each fulfillment field is in the body exactly when it is given, and no other field is |
| PaymentsApi.DefaultIntegrationBody | src/models/payment.py:265-273 | an integration given only its provider and configuration is sent with exactly those and `isActive: true` |
| PaymentsApi.GetPaymentOrders | src/api/payments.py:18-45 | exactly one request, GET /payments/orders/ scoped to the location with no body and the page query (`limit`, `skip` only when positive) as its query; the result is the page decoded under "orders" |
| PaymentsApi.GetPaymentOrder | src/api/payments.py:47-60 | exactly one request, GET /payments/orders/{id} scoped to the location with no query and no body; the entity is the whole reply body; raised errors propagate |
| PaymentsApi.GetOrderFulfillments | src/api/payments.py:62-91 | exactly one request, GET /payments/orders/{id}/fulfillments scoped to the location with no body and the page query (`limit`, `skip` only when positive) as its query; the result is the page decoded under "fulfillments" |
| PaymentsApi.CreateOrderFulfillment | src/api/payments.py:93-112 | exactly one request, POST /payments/orders/{id}/fulfillments scoped to the location whose body is the payload with its None fields dropped; the entity is the whole reply body; raised errors propagate |
| PaymentsApi.GetPaymentSubscriptions | src/api/payments.py:114-141 | exactly one request, GET /payments/subscriptions/ scoped to the location with no body and the page query (`limit`, `skip` only when positive) as its query; the result is the page decoded under "subscriptions" |
| PaymentsApi.GetPaymentSubscription | src/api/payments.py:143-156 | exactly one request, GET /payments/subscriptions/{id} scoped to the location with no query and no body; the entity is the whole reply body; raised errors propagate |
| PaymentsApi.GetPaymentTransactions | src/api/payments.py:158-185 | exactly one request, GET /payments/transactions/ scoped to the location with no body and the page query (`limit`, `skip` only when positive) as its query; the result is the page decoded under "transactions" |
| PaymentsApi.GetPaymentTransaction | src/api/payments.py:187-200 | exactly one request, GET /payments/transactions/{id} scoped to the location with no query and no body; the entity is the whole reply body; raised errors propagate |
| PaymentsApi.GetPaymentIntegration | src/api/payments.py:202-214 | exactly one request, GET /payments/integrations/provider/whitelabel scoped to the location with no query and no body; the entity is the whole reply body; raised errors propagate |
| PaymentsApi.CreatePaymentIntegration | src/api/payments.py:216-234 | exactly one request, POST /payments/integrations/provider/whitelabel scoped to the location whose body is the payload with its None fields dropped; the entity is the whole reply body; raised errors propagate |
| ProductsApi.GetProducts | src/api/products.py:15-42 | exactly one request, GET /products/ scoped to the location with no body and the page query (`limit`, `skip` only when positive) as its query; the result is the page decoded under "products" |
| ProductsApi.GetProduct | src/api/products.py:44-57 | exactly one request, GET /products/{id} scoped to the location with no query and no body; the entity is the whole reply body; raised errors propagate |
| ProductsApi.CreateProduct | src/api/products.py:59-74 | exactly one request, POST /products/ scoped by the payload's own `locationId` whose body is the payload with its None fields dropped; the entity is the whole reply body; raised errors propagate |
| ProductsApi.CreateProductScopedByPayload | src/api/products.py:69-72 | the product's own location is both the scope of the create request and a field of its body |
| ProductsApi.UpdateProduct | src/api/products.py:76-95 | exactly one request, PUT /products/{id} scoped to the location whose body is the payload with its None fields dropped; the entity is the whole reply body; raised errors propagate |
| ProductsApi.DeleteProduct | src/api/products.py:97-110 | exactly one request, DELETE /products/{id} scoped to the location with no body; the outcome is an error exactly when the transport raises, and otherwise true exactly when the status is 200 |
| ProductsApi.GetProductPrices | src/api/products.py:114-142 | exactly one request, GET /products/{id}/price/ scoped to the location with no body and the page query (`limit`, `skip` only when positive) as its query; the result is the page decoded under "prices" |
| ProductsApi.GetProductPrice | src/api/products.py:144-160 | exactly one request, GET /products/{id}/price/{price} scoped to the location with no query and no body; the entity is the whole reply body; raised errors propagate |
| ProductsApi.CreateProductPrice | src/api/products.py:162-181 | exactly one request, POST /products/{id}/price/ scoped to the location whose body is the payload with its None fields dropped; the entity is the whole reply body; raised errors propagate |
| ProductsApi.UpdateProductPrice | src/api/products.py:183-203 | exactly one request, PUT /products/{id}/price/{price} scoped to the location whose body is the payload with its None fields dropped; the entity is the whole reply body; raised errors propagate |
| ProductsApi.DeleteProductPrice | src/api/products.py:205-221 | exactly one request, DELETE /products/{id}/price/{price} scoped to the location with no body; the outcome is an error exactly when the transport raises, and otherwise true exactly when the status is 200 |
| SurveysApi.SubmissionsQuery | src/api/surveys.py:74-78 | the query holds `limit`, `skip` exactly when positive, and `surveyId` exactly when it is truthy, with the given values |
| SurveysApi.UnfilteredSubmissionsQuery | src/api/surveys.py:74-78 | with no survey and skip 0 the query is exactly `{"limit": limit}` |
| SurveysApi.GetSurveys | src/api/surveys.py:11-38 | exactly one request, GET /surveys/ scoped to the location with no body and the page query (`limit`, `skip` only when positive) as its query; the result is the page decoded under "surveys" |
| SurveysApi.GetSurvey | src/api/surveys.py:40-54 | exactly one request, GET /surveys/{id} scoped to the location with no query and no body; the entity is the object under "survey" when the reply has that key, otherwise the whole body; raised errors propagate |
| SurveysApi.GetSurveySubmissions | src/api/surveys.py:56-90 | exactly one request, GET /surveys/submissions scoped to the location with no body and the submissions query above as its query; the result is the page decoded under "submissions" |
| UsersApi.UsersQuery | src/api/users.py:25-29 | the query holds `limit`, `skip` exactly when positive, and `locationId` exactly when it is truthy, with the given values |
| UsersApi.GetUsers | src/api/users.py:12-41 | exactly one request, GET /users unscoped with no body and the users query above as its query; the result is the page decoded under "users" |
| UsersApi.GetUser | src/api/users.py:43-56 | exactly one request, GET /users/{id} unscoped with no query and no body; the entity is the object under "user" when the reply has that key, otherwise the whole body; raised errors propagate |
| UsersApi.CreateUser | src/api/users.py:58-73 | exactly one request, POST /users unscoped whose body is the payload with its None fields dropped; the entity is read from under "user" or the whole body; raised errors propagate |
| UsersApi.UpdateUser | src/api/users.py:75-93 | exactly one request, PUT /users/{id} unscoped whose body is the payload with its None fields dropped; the entity is read from under "user" or the whole body; raised errors propagate |
| UsersApi.DeleteUser | src/api/users.py:95-107 | exactly one request, DELETE /users/{id} unscoped with no body; the outcome is an error exactly when the transport raises, and otherwise true exactly when the status is 200 |
| ContactsTools.ContactCreateOf | src/mcp/tools/contacts.py:50-66 | the payload has exactly the 13 `ContactCreate` fields, each holding the given value (None when not given), scoped by its `locationId`; the address is sent as `address1`, and custom fields are always a list (empty when none) that reads back as the given items |
| ContactsTools.ContactUpdateOf | src/mcp/tools/contacts.py:76-95 | the payload has exactly the 11 `ContactUpdate` fields, each holding the given value (None when not given), the address as `address1`; custom fields are None when absent or empty and otherwise a list reading back as the given items |
| ContactsTools.NoCustomFieldsCreateVersusUpdate | src/mcp/tools/contacts.py:63-65 | with no custom fields, a create still sends `"customFields": []` while an update sends no custom fields at all |
| ContactsTools.CreateContact | src/mcp/tools/contacts.py:46-69 | sends exactly the requests of `ContactsApi.CreateContact` for the built payload, scoped by the contact's location; a raised error propagates, otherwise the result is `{"success": true, "contact": entity}` |
| ContactsTools.UpdateContact | src/mcp/tools/contacts.py:72-100 | sends exactly the requests of `ContactsApi.UpdateContact` for the built payload; a raised error propagates, otherwise the result is `{"success": true, "contact": entity}` |
| ContactsTools.DeleteContact | src/mcp/tools/contacts.py:103-115 | sends exactly the request of `ContactsApi.DeleteContact`; a raised error propagates, otherwise `success` is the client's boolean and the message is "Contact deleted successfully" when true and "Failed to delete contact" when false |
| ContactsTools.GetContact | src/mcp/tools/contacts.py:118-123 | sends exactly the requests of `ContactsApi.GetContact`; a raised error propagates, otherwise the result is `{"success": true, "contact": entity}` |
| ContactsTools.SearchEnvelope | src/mcp/tools/contacts.py:140-145 | a raised error propagates; otherwise the contacts with the list's count and its total, None included |
| ContactsTools.SearchContacts | src/mcp/tools/contacts.py:126-145 | exactly one request, the scoped GET /contacts with the filter query; the result is the search envelope of the decoded contact list |
| ContactsTools.AddContactTags | src/mcp/tools/contacts.py:148-155 | sends exactly the requests of `ContactsApi.AddContactTags` (the mutation, then the refetch); a raised error propagates, otherwise the result is `{"success": true, "contact": entity}` |
| ContactsTools.RemoveContactTags | src/mcp/tools/contacts.py:158-165 | sends exactly the requests of `ContactsApi.RemoveContactTags` (the mutation, then the refetch); a raised error propagates, otherwise the result is `{"success": true, "contact": entity}` |
| ContactsTools.NewTaskBodyAlwaysHasCompleted | src/mcp/tools/contacts.py:199-205 | a new task body always holds its title and its `completed` flag, an explicit false included |
| ContactsTools.EmptyTaskUpdateSendsNothing | src/mcp/tools/contacts.py:217-223 | a task update with no field given sends `{}` |
| ContactsTools.GetContactTasks | src/mcp/tools/contacts.py:170-182 | sends exactly the request of `ContactsApi.GetContactTasks`; a raised error propagates, otherwise the result is `{"success": true, "tasks": items, "count", "total"}` with the count and total of the client's list |
| ContactsTools.GetContactTask | src/mcp/tools/contacts.py:185-192 | sends exactly the requests of `ContactsApi.GetContactTask`; a raised error propagates, otherwise the result is `{"success": true, "task": entity}` |
| ContactsTools.CreateContactTask | src/mcp/tools/contacts.py:195-210 | sends exactly the requests of `ContactsApi.CreateContactTask` for the task payload; a raised error propagates, otherwise the result is `{"success": true, "task": entity}` |
| ContactsTools.UpdateContactTask | src/mcp/tools/contacts.py:213-228 | sends exactly the requests of `ContactsApi.UpdateContactTask` for the task update; a raised error propagates, otherwise the result is `{"success": true, "task": entity}` |
| ContactsTools.DeleteContactTask | src/mcp/tools/contacts.py:231-243 | sends exactly the request of `ContactsApi.DeleteContactTask`; a raised error propagates, otherwise `success` is the client's boolean and the message is "Task deleted successfully" when true and "Failed to delete task" when false |
| ContactsTools.CompleteContactTask | src/mcp/tools/contacts.py:246-253 | sends exactly the requests of `ContactsApi.CompleteContactTask`; a raised error propagates, otherwise the result is `{"success": true, "task": entity}` |
| ContactsTools.GetContactNotes | src/mcp/tools/contacts.py:258-270 | sends exactly the request of `ContactsApi.GetContactNotes`; a raised error propagates, otherwise the result is `{"success": true, "notes": items, "count", "total"}` with the count and total of the client's list |
| ContactsTools.GetContactNote | src/mcp/tools/contacts.py:273-280 | sends exactly the requests of `ContactsApi.GetContactNote`; a raised error propagates, otherwise the result is `{"success": true, "note": entity}` |
| ContactsTools.CreateContactNote | src/mcp/tools/contacts.py:283-292 | sends exactly the requests of `ContactsApi.CreateContactNote`, whose body is exactly `{"body": body}`; a raised error propagates, otherwise the result is `{"success": true, "note": entity}` |
| ContactsTools.UpdateContactNote | src/mcp/tools/contacts.py:295-304 | sends exactly the requests of `ContactsApi.UpdateContactNote`, whose body is exactly `{"body": body}`; a raised error propagates, otherwise the result is `{"success": true, "note": entity}` |
| ContactsTools.DeleteContactNote | src/mcp/tools/contacts.py:307-319 | sends exactly the request of `ContactsApi.DeleteContactNote`; a raised error propagates, otherwise `success` is the client's boolean and the message is "Note deleted successfully" when true and "Failed to delete note" when false |
| ContactsTools.FailedContactDeleteEnvelope | src/mcp/tools/contacts.py:103-115 | a contact delete answered with any status but 200 gives `{"success": false, "message": "Failed to delete contact"}` |
| LocationsTools.AddressOf | src/mcp/tools/locations.py:56-64 | an address object exists exactly when one of address, city, state, country, postal code is truthy, and then has exactly those five fields with the given values |
| LocationsTools.SettingsOf | src/mcp/tools/locations.py:67-77 | a settings object exists exactly when one of the four flags is truthy, and then has exactly those four fields with the given values |
| LocationsTools.DefaultCountryBuildsAddress | src/mcp/tools/locations.py:56-64 | with the default country "US", the address object is built even when no other address field is given, with country "US" |
| LocationsTools.NoAddressWithoutFields | src/mcp/tools/locations.py:56-64 | with every address field absent and the country absent or empty, no address object is built |
| LocationsTools.AllFalseSettingsYieldNone | src/mcp/tools/locations.py:67-77 | four explicit False flags build no settings object |
| LocationsTools.OneTrueFlagBuildsSettings | src/mcp/tools/locations.py:67-77 | one True flag suffices to build the settings object |
| LocationsTools.LocationCreateOf | src/mcp/tools/locations.py:79-98 | the payload has exactly companyId, name and the 16 flat fields under their declared names; no address or settings object is among them |
| LocationsTools.LocationUpdateOf | src/mcp/tools/locations.py:108-126 | the payload has exactly the optional name and the same 16 flat fields, and no company |
| LocationsTools.LocationCreateCarriesSite | src/mcp/tools/locations.py:79-89 | the payload carries the given company and name, and the given address, city, state, country, postal code, logo, website and timezone |
| LocationsTools.LocationCreateCarriesProfile | src/mcp/tools/locations.py:90-97 | the payload carries the given email, phone, business type, the four settings flags and the Stripe product id |
| LocationsTools.LocationUpdateCarriesSite | src/mcp/tools/locations.py:108-117 | the update carries the given name, address, city, state, country, postal code, logo, website and timezone |
| LocationsTools.LocationUpdateCarriesProfile | src/mcp/tools/locations.py:118-125 | the update carries the given email, phone, business type, the four settings flags and the Stripe product id |
| LocationsTools.DefaultLocationBody | src/mcp/tools/locations.py:79-98 | a location created with only its company and name is sent as exactly those two and `"country": "US"` |
| LocationsTools.GetLocation | src/mcp/tools/locations.py:28-33 | sends exactly the requests of `LocationsApi.GetLocation`; a raised error propagates, otherwise the result is `{"success": true, "location": entity}` |
| LocationsTools.SearchLocations | src/mcp/tools/locations.py:36-48 | exactly one request, the unscoped GET /locations/search with the search query; the result is the list envelope of the page decoded under "locations" |
| LocationsTools.CreateLocation | src/mcp/tools/locations.py:51-101 | sends exactly the requests of `LocationsApi.CreateLocation` for the flat-field payload; a raised error propagates, otherwise the result is `{"success": true, "location": entity}` |
| LocationsTools.UpdateLocation | src/mcp/tools/locations.py:104-129 | sends exactly the requests of `LocationsApi.UpdateLocation` for the flat-field update; a raised error propagates, otherwise the result is `{"success": true, "location": entity}` |
| LocationsTools.DeleteLocation | src/mcp/tools/locations.py:132-144 | sends exactly the request of `LocationsApi.DeleteLocation`; a raised error propagates, otherwise `success` is the client's boolean and the message is "Location deleted successfully" when true and "Failed to delete location" when false |
| UsersTools.FlagValues | src/mcp/tools/users.py:57-61 | the nine permission flags, one value per flag the guard lists |
| UsersTools.PermissionsOf | src/mcp/tools/users.py:56-72 | the permissions object exists exactly when some flag is True; it then holds no null, only the nine flag fields, each flag exactly when it was given, with the given value (an explicit False kept) |
| UsersTools.FalseFlagsBuildNothing | src/mcp/tools/users.py:57-61 | flags that are each absent or False build no permissions object |
| UsersTools.TrueFlagKeepsExplicitFalse | src/mcp/tools/users.py:62-72 | one True flag builds the object, and an explicit False given beside it is sent as false |
| UsersTools.UserCreateOf | src/mcp/tools/users.py:74-87 | the payload has exactly the 12 `UserCreate` fields, each holding the given value (None when not given), with the permissions object of the nine flags |
| UsersTools.UserUpdateOf | src/mcp/tools/users.py:116-128 | the payload has exactly the 11 `UserUpdate` fields, without a company, each holding the given value (None when not given), with the permissions object of the nine flags |
| UsersTools.PermissionsSentIffSomeFlagTrue | src/mcp/tools/users.py:56-87 | the create body holds `permissions` exactly when some flag is True |
| UsersTools.MinimalUserBody | src/mcp/tools/users.py:74-87 | a user created with only company, name and email is sent as exactly those three |
| UsersTools.GetUsers | src/mcp/tools/users.py:28-40 | sends exactly the request of `UsersApi.GetUsers`; a raised error propagates, otherwise the result is `{"success": true, "users": items, "count", "total"}` with the count and total of the client's list |
| UsersTools.GetUser | src/mcp/tools/users.py:43-48 | sends exactly the requests of `UsersApi.GetUser`; a raised error propagates, otherwise the result is `{"success": true, "user": entity}` |
| UsersTools.CreateUser | src/mcp/tools/users.py:51-90 | sends exactly the requests of `UsersApi.CreateUser` for the built payload; a raised error propagates, otherwise the result is `{"success": true, "user": entity}` |
| UsersTools.UpdateUser | src/mcp/tools/users.py:93-131 | sends exactly the requests of `UsersApi.UpdateUser` for the built update; a raised error propagates, otherwise the result is `{"success": true, "user": entity}` |
| UsersTools.DeleteUser | src/mcp/tools/users.py:134-146 | sends exactly the request of `UsersApi.DeleteUser`; a raised error propagates, otherwise `success` is the client's boolean and the message is "User deleted successfully" when true and "Failed to delete user" when false |
| BusinessesTools.AddressValues | src/mcp/tools/businesses.py:57-60 | the six address values, one per field the guard lists |
| BusinessesTools.AddressOf | src/mcp/tools/businesses.py:55-68 | the address exists exactly when some address field is truthy; it then holds no null, and each of the six fields exactly when it was given, with the given value |
| BusinessesTools.CustomFieldsOf | src/mcp/tools/businesses.py:82-84 | custom fields are sent exactly when the dict is given and non-empty, as a list reading back as the same items |
| BusinessesTools.BusinessCreateOf | src/mcp/tools/businesses.py:70-86 | the payload has exactly the 13 `BusinessCreate` fields, each holding the given value, is scoped by the given location, and carries the guarded address and custom fields |
| BusinessesTools.BusinessUpdateOf | src/mcp/tools/businesses.py:111-128 | the payload has exactly the 12 `BusinessUpdate` fields, each holding the given value, with the guarded address and custom fields |
| BusinessesTools.DefaultCountryBuildsAddress | src/mcp/tools/businesses.py:55-68 | a business created from its name alone, with the default country, is sent with address `{"country": "US"}` |
| BusinessesTools.UpdateWithoutAddressSendsNone | src/mcp/tools/businesses.py:96-109 | an update naming no address field sends no address |
| BusinessesTools.CustomFieldsSentIffNonEmpty | src/mcp/tools/businesses.py:82-84 | the create body holds custom fields exactly when the dict is non-empty, and they read back as the same items |
| BusinessesTools.GetBusinesses | src/mcp/tools/businesses.py:28-40 | sends exactly the request of `BusinessesApi.GetBusinesses`; a raised error propagates, otherwise the result is `{"success": true, "businesses": items, "count", "total"}` with the count and total of the client's list |
| BusinessesTools.GetBusiness | src/mcp/tools/businesses.py:43-48 | sends exactly the requests of `BusinessesApi.GetBusiness`; a raised error propagates, otherwise the result is `{"success": true, "business": entity}` |
| BusinessesTools.CreateBusiness | src/mcp/tools/businesses.py:51-89 | sends exactly the requests of `BusinessesApi.CreateBusiness` for the built payload, scoped by the given location; a raised error propagates, otherwise the result is `{"success": true, "business": entity}` |
| BusinessesTools.UpdateBusiness | src/mcp/tools/businesses.py:92-131 | sends exactly the requests of `BusinessesApi.UpdateBusiness` for the built update; a raised error propagates, otherwise the result is `{"success": true, "business": entity}` |
| BusinessesTools.DeleteBusiness | src/mcp/tools/businesses.py:134-146 | sends exactly the request of `BusinessesApi.DeleteBusiness`; a raised error propagates, otherwise `success` is the client's boolean and the message is "Business deleted successfully" when true and "Failed to delete business" when false |
| CalendarAdminTools.CalendarCreateOf | src/mcp/tools/calendar_admin.py:34-49 | the payload has exactly the 14 `CalendarCreate` fields, each holding the given value (None when not given), and is scoped by the given location |
| CalendarAdminTools.CalendarUpdateOf | src/mcp/tools/calendar_admin.py:58-73 | the payload has exactly the 13 `CalendarUpdate` fields, without a location, each holding the given value (None when not given) |
| CalendarAdminTools.DefaultCalendarBody | src/mcp/tools/calendar_admin.py:34-49 | a calendar created with only its location and name is sent as exactly those and `"isActive": true` |
| CalendarAdminTools.CreateCalendar | src/mcp/tools/calendar_admin.py:30-52 | sends exactly the requests of `CalendarAdminApi.CreateCalendar`, scoped by the calendar's location; a raised error propagates, otherwise the result is `{"success": true, "calendar": entity}` |
| CalendarAdminTools.UpdateCalendar | src/mcp/tools/calendar_admin.py:55-76 | sends exactly the requests of `CalendarAdminApi.UpdateCalendar`; a raised error propagates, otherwise the result is `{"success": true, "calendar": entity}` |
| CalendarAdminTools.DeleteCalendar | src/mcp/tools/calendar_admin.py:79-91 | sends exactly the request of `CalendarAdminApi.DeleteCalendar`; a raised error propagates, otherwise `success` is the client's boolean and the message is "Calendar deleted successfully" when true and "Failed to delete calendar" when false |
| CalendarAdminTools.GetCalendarGroups | src/mcp/tools/calendar_admin.py:94-106 | sends exactly the request of `CalendarAdminApi.GetCalendarGroups`; a raised error propagates, otherwise the result is `{"success": true, "groups": items, "count", "total"}` with the count and total of the client's list |
| CalendarAdminTools.DeleteCalendarEvent | src/mcp/tools/calendar_admin.py:111-123 | sends exactly the request of `CalendarAdminApi.DeleteCalendarEvent`; a raised error propagates, otherwise `success` is the client's boolean and the message is "Calendar event deleted successfully" when true and "Failed to delete calendar event" when false |
| CalendarAdminTools.NewBlockSlot | src/mcp/tools/calendar_admin.py:130-136 | the dict holds calendarId, startTime and endTime always, and title exactly when it is truthy, with the given values and nothing else |
| CalendarAdminTools.BlockSlotUpdate | src/mcp/tools/calendar_admin.py:146-154 | the dict holds each of calendarId, startTime, endTime, title exactly when it is truthy, with the given value, and nothing else |
| CalendarAdminTools.NewBlockSlotHasNoNull | src/mcp/tools/calendar_admin.py:130-136 | a new block-slot dict never holds a null, although it is sent unfiltered |
| CalendarAdminTools.EmptyBlockSlotUpdate | src/mcp/tools/calendar_admin.py:146-154 | an update naming nothing truthy sends `{}` |
| CalendarAdminTools.BlockSlotOf | src/mcp/tools/calendar_admin.py:139 | a raised error propagates; otherwise exactly `{"success": true, "block_slot": reply}` with the raw reply |
| CalendarAdminTools.CreateBlockSlot | src/mcp/tools/calendar_admin.py:126-139 | exactly one request, POST /calendars/events/block-slots scoped to the location with the new-block-slot dict as body; the result wraps the raw reply |
| CalendarAdminTools.UpdateBlockSlot | src/mcp/tools/calendar_admin.py:142-159 | exactly one request, PUT /calendars/events/block-slots/{id} scoped to the location with the update dict as body; the result wraps the raw reply |
| LocationsExtendedTools.GetLocationTags | src/mcp/tools/locations_extended.py:33-38 | sends exactly the request of `LocationsExtendedApi.GetLocationTags`; a raised error propagates, otherwise the result is `{"success": true, "tags": {"tags", "count", "total"}}`, the whole list object |
| LocationsExtendedTools.GetLocationTag | src/mcp/tools/locations_extended.py:41-46 | sends exactly the requests of `LocationsExtendedApi.GetLocationTag`; a raised error propagates, otherwise the result is `{"success": true, "tag": entity}` |
| LocationsExtendedTools.TagOf | src/mcp/tools/locations_extended.py:53-56 | the tag payload has exactly the fields name and color |
| LocationsExtendedTools.ColourlessTagBody | src/mcp/tools/locations_extended.py:53-56 | a tag without a colour is sent as exactly `{"name": name}` |
| LocationsExtendedTools.CreateLocationTag | src/mcp/tools/locations_extended.py:49-59 | sends exactly the requests of `LocationsExtendedApi.CreateLocationTag` for the tag payload; a raised error propagates, otherwise the result is `{"success": true, "tag": entity}` |
| LocationsExtendedTools.UpdateLocationTag | src/mcp/tools/locations_extended.py:62-72 | sends exactly the requests of `LocationsExtendedApi.UpdateLocationTag` for the tag payload; a raised error propagates, otherwise the result is `{"success": true, "tag": entity}` |
| LocationsExtendedTools.DeleteLocationTag | src/mcp/tools/locations_extended.py:75-80 | the call and outcome are exactly the client's; a completed request gives `{"success": true, "message": "Tag deleted successfully"}` |
| LocationsExtendedTools.GetLocationCustomValues | src/mcp/tools/locations_extended.py:84-89 | sends exactly the request of `LocationsExtendedApi.GetLocationCustomValues`; a raised error propagates, otherwise the result is `{"success": true, "customValues": {"customValues", "count", "total"}}`, the whole list object |
| LocationsExtendedTools.GetLocationCustomValue | src/mcp/tools/locations_extended.py:92-97 | sends exactly the requests of `LocationsExtendedApi.GetLocationCustomValue`; a raised error propagates, otherwise the result is `{"success": true, "customValue": entity}` |
| LocationsExtendedTools.CustomValueOf | src/mcp/tools/locations_extended.py:104-107 | the custom-value payload has exactly the fields key and value |
| LocationsExtendedTools.CreateLocationCustomValue | src/mcp/tools/locations_extended.py:100-110 | sends exactly the requests of `LocationsExtendedApi.CreateLocationCustomValue`, whose body is exactly `{"key", "value"}` as given; a raised error propagates, otherwise the result is `{"success": true, "customValue": entity}` |
| LocationsExtendedTools.UpdateLocationCustomValue | src/mcp/tools/locations_extended.py:113-123 | sends exactly the requests of `LocationsExtendedApi.UpdateLocationCustomValue` for the given key and value; a raised error propagates, otherwise the result is `{"success": true, "customValue": entity}` |
| LocationsExtendedTools.DeleteLocationCustomValue | src/mcp/tools/locations_extended.py:126-131 | the call and outcome are exactly the client's; a completed request gives the fixed custom-value confirmation |
| LocationsExtendedTools.GetLocationCustomFields | src/mcp/tools/locations_extended.py:135-140 | sends exactly the request of `LocationsExtendedApi.GetLocationCustomFields`; a raised error propagates, otherwise the result is `{"success": true, "customFields": {"customFields", "count", "total"}}`, the whole list object |
| LocationsExtendedTools.GetLocationCustomField | src/mcp/tools/locations_extended.py:143-148 | sends exactly the requests of `LocationsExtendedApi.GetLocationCustomField`; a raised error propagates, otherwise the result is `{"success": true, "customField": entity}` |
| LocationsExtendedTools.OptionOf | src/models/location.py:201-208 | an option converts exactly when it has a string name and value; the result has name, value and the id only when given |
| LocationsExtendedTools.OptionsOf | src/mcp/tools/locations_extended.py:157-158 | the list converts exactly when every option does, to as many options in the same order, each the conversion of its source |
| LocationsExtendedTools.OptionsField | src/mcp/tools/locations_extended.py:155-158 | absent or empty options give None; otherwise the converted list, or a validation error when an option lacks a name or value |
| LocationsExtendedTools.OptionNamesKept | src/mcp/tools/locations_extended.py:157-158 | the option names sent are the names given, in the same order |
| LocationsExtendedTools.OneBadOptionRejectsAll | src/mcp/tools/locations_extended.py:157-158 | one option without a value anywhere in the list rejects the whole list |
| LocationsExtendedTools.CustomFieldOf | src/mcp/tools/locations_extended.py:160-168 | the custom-field payload has exactly its seven fields, the converted options among them |
| LocationsExtendedTools.CreateLocationCustomField | src/mcp/tools/locations_extended.py:151-171 | an invalid option sends nothing and gives the validation error; otherwise exactly the client's create call for the payload, its field under "customField" |
| LocationsExtendedTools.UpdateLocationCustomField | src/mcp/tools/locations_extended.py:174-194 | an invalid option sends nothing and gives the validation error; otherwise exactly the client's update call for the payload, its field under "customField" |
| LocationsExtendedTools.DefaultCustomFieldSendsIsRequired | src/mcp/tools/locations_extended.py:160-168 | a new field with the default `isRequired` and empty options is sent as exactly its name, data type and `"isRequired": false` |
| LocationsExtendedTools.DeleteLocationCustomField | src/mcp/tools/locations_extended.py:197-202 | the call and outcome are exactly the client's; a completed request gives the fixed custom-field confirmation |
| LocationsExtendedTools.GetLocationTemplates | src/mcp/tools/locations_extended.py:206-211 | sends exactly the request of `LocationsExtendedApi.GetLocationTemplates`; a raised error propagates, otherwise the result is `{"success": true, "templates": {"templates", "count", "total"}}`, the whole list object |
| LocationsExtendedTools.FilterValues | src/mcp/tools/locations_extended.py:221 | the five filter values, one per field the guard lists |
| LocationsExtendedTools.FiltersOf | src/mcp/tools/locations_extended.py:219-228 | filters are built exactly when some filter value is truthy, and are then exactly the given filters |
| LocationsExtendedTools.SearchLocationTasks | src/mcp/tools/locations_extended.py:215-231 | exactly one request, the unscoped POST /locations/{loc}/tasks/search whose body is the search body for the guarded filters; the result nests the list under "tasks" |
| LocationsExtendedTools.EmptyStatusFilterIsDropped | src/mcp/tools/locations_extended.py:219-230 | an empty status alone builds no filters, so the body is the page query, whereas the same filters passed to the client would send `"status": ""` |

## Left out

- The transport: `_request`, bearer-token acquisition, base URLs and HTTP error raising are the `Transport` parameter. `src/api/base.py` is not part of this model.
- Async: the `async`/`await` structure and the client context managers (`src/api/client.py:118-133`) carry no marshalling decision. Each call is one synchronous step of the trace.
- The `GoHighLevelClient` facade in `src/api/client.py` only delegates to the resource clients, which are modelled directly.
- Pydantic validation, type coercion, field aliases (`_id`) and defaults on response entities: a decoded entity is the field map of the reply object. Only a reply that is not an object, or a list element that is not an object, is an error (`DecodeFailure`).
- Datetime fields are opaque strings. They are never parsed.
- Floating-point fields (`annualRevenue`, `amount`, `monetary_value`): opaque JSON values, passed through unchanged.
- Key order: query maps, request bodies and envelopes are maps. The order of the source's dict insertions is not modelled.
- Server behaviour: which ids exist and what the CRM stores are part of the transport's replies, not of the model.
- The tool wrappers that only pass parameters through and wrap results in the envelopes already modelled: `src/mcp/tools/{payments,links,surveys,oauth_management,products,campaigns,workflows,contact_assignment}.py`.
- The `web-ui/` tree: the mock dashboard routes, the chat loop, the LLM client and webhook handling.
- The MCP registration decorators and the argument parsing of the parameter classes: a tool's parameters are a datatype holding the values the tool reads.
- `src/models/contact.py`, `src/models/calendar.py` and `src/mcp/params/contacts.py` are not part of this model. The field sets of `ContactCreate`, `ContactUpdate`, `CalendarCreate` and `CalendarUpdate` are those the tool wrappers pass.
- LocationsTools.LocationCreateOf: states the exact field set of the payload; the value of every field is stated by `LocationsTools.LocationCreateCarriesSite` and `LocationsTools.LocationCreateCarriesProfile`, because one contract holding all eighteen fields is too costly for the solver.
- LocationsTools.LocationUpdateOf: states the exact field set of the update; the value of every field is stated by `LocationsTools.LocationUpdateCarriesSite` and `LocationsTools.LocationUpdateCarriesProfile`, for the same reason.
