/**
 * The contact tools: each builds the client payload from the tool parameters,
 * calls the contacts client and wraps the outcome in the tool's envelope.
 * Creating a contact always sends a custom-field list; updating one sends it
 * only when custom fields are given.
 */
module ContactsTools {
  import opened Wrappers
  import opened Json
  import opened Http
  import opened Marshal
  import opened Envelope
  import CustomFields
  import ContactsApi

  /** The parameters of the create-contact tool. */
  datatype CreateContactParams = CreateContactParams(
    locationId: string,
    firstName: Option<string>, lastName: Option<string>,
    email: Option<string>, phone: Option<string>,
    tags: Option<seq<string>>, source: Option<string>, companyName: Option<string>,
    address: Option<string>, city: Option<string>, state: Option<string>, postalCode: Option<string>,
    customFields: Option<CustomFields.Pairs>)

  /** The parameters of the update-contact tool. */
  datatype UpdateContactParams = UpdateContactParams(
    contactId: string, locationId: string,
    firstName: Option<string>, lastName: Option<string>,
    email: Option<string>, phone: Option<string>,
    tags: Option<seq<string>>, companyName: Option<string>,
    address: Option<string>, city: Option<string>, state: Option<string>, postalCode: Option<string>,
    customFields: Option<CustomFields.Pairs>)

  /** The `ContactCreate` built by the create tool: the address goes out as `address1`, custom fields always as a list. */
  function ContactCreateOf(p: CreateContactParams): (m: Model)
    ensures m.Keys == {"locationId", "firstName", "lastName", "email", "phone", "tags", "source", "companyName",
                       "address1", "city", "state", "postalCode", "customFields"}
    ensures m["locationId"] == JStr(p.locationId) && ScopeOf(m) == Some(p.locationId)
    ensures m["firstName"] == Str(p.firstName) && m["lastName"] == Str(p.lastName)
    ensures m["email"] == Str(p.email) && m["phone"] == Str(p.phone) && m["tags"] == StrList(p.tags)
    ensures m["source"] == Str(p.source) && m["companyName"] == Str(p.companyName)
    ensures m["address1"] == Str(p.address)
    ensures m["city"] == Str(p.city) && m["state"] == Str(p.state) && m["postalCode"] == Str(p.postalCode)
    ensures m["customFields"].JArr?
    ensures p.customFields.None? ==> m["customFields"] == JArr([])
    ensures CustomFields.FromList(m["customFields"].items) == Some(if p.customFields.None? then [] else p.customFields.value)
  {
    var pairs := if p.customFields.None? then [] else p.customFields.value;
    CustomFields.FromToList(pairs);
    map["locationId" := JStr(p.locationId), "firstName" := Str(p.firstName), "lastName" := Str(p.lastName),
        "email" := Str(p.email), "phone" := Str(p.phone), "tags" := StrList(p.tags),
        "source" := Str(p.source), "companyName" := Str(p.companyName),
        "address1" := Str(p.address), "city" := Str(p.city), "state" := Str(p.state),
        "postalCode" := Str(p.postalCode), "customFields" := JArr(CustomFields.ToList(pairs))]
  }

  /** The `ContactUpdate` built by the update tool: custom fields only when some are given. */
  function ContactUpdateOf(p: UpdateContactParams): (m: Model)
    ensures m.Keys == {"firstName", "lastName", "email", "phone", "tags", "companyName",
                       "address1", "city", "state", "postalCode", "customFields"}
    ensures m["firstName"] == Str(p.firstName) && m["lastName"] == Str(p.lastName)
    ensures m["email"] == Str(p.email) && m["phone"] == Str(p.phone) && m["tags"] == StrList(p.tags)
    ensures m["companyName"] == Str(p.companyName)
    ensures m["address1"] == Str(p.address)
    ensures m["city"] == Str(p.city) && m["state"] == Str(p.state) && m["postalCode"] == Str(p.postalCode)
    ensures p.customFields.None? || p.customFields.value == [] ==> m["customFields"] == JNull
    ensures p.customFields.Some? && p.customFields.value != [] ==>
      m["customFields"].JArr? && CustomFields.FromList(m["customFields"].items) == Some(p.customFields.value)
  {
    var fields :=
      if p.customFields.Some? && p.customFields.value != [] then
        CustomFields.FromToList(p.customFields.value);
        JArr(CustomFields.ToList(p.customFields.value))
      else JNull;
    map["firstName" := Str(p.firstName), "lastName" := Str(p.lastName),
        "email" := Str(p.email), "phone" := Str(p.phone), "tags" := StrList(p.tags),
        "companyName" := Str(p.companyName),
        "address1" := Str(p.address), "city" := Str(p.city), "state" := Str(p.state),
        "postalCode" := Str(p.postalCode), "customFields" := fields]
  }

  /** With no custom fields given, a create still sends an empty list while an update sends nothing. */
  lemma NoCustomFieldsCreateVersusUpdate(c: CreateContactParams, u: UpdateContactParams)
    requires c.customFields.None? && u.customFields.None?
    ensures Dump(ContactCreateOf(c))["customFields"] == JArr([])
    ensures "customFields" !in Dump(ContactUpdateOf(u))
  {
  }

  const ContactDeleted := "Contact deleted successfully"
  const ContactNotDeleted := "Failed to delete contact"
  const TaskDeleted := "Task deleted successfully"
  const TaskNotDeleted := "Failed to delete task"
  const NoteDeleted := "Note deleted successfully"
  const NoteNotDeleted := "Failed to delete note"

  /** `create_contact` tool: the create call with the built payload, its contact under "contact". */
  function CreateContact(send: Transport, p: CreateContactParams): (c: Call<Json>)
    ensures c.trace == ContactsApi.CreateContact(send, ContactCreateOf(p)).trace
    ensures c.trace[0].scope == Some(p.locationId)
    ensures c.result == EntityOf(ContactsApi.CreateContact(send, ContactCreateOf(p)).result, "contact")
  {
    var inner := ContactsApi.CreateContact(send, ContactCreateOf(p));
    Call(inner.trace, EntityOf(inner.result, "contact"))
  }

  /** `update_contact` tool. */
  function UpdateContact(send: Transport, p: UpdateContactParams): (c: Call<Json>)
    ensures c.trace == ContactsApi.UpdateContact(send, p.contactId, ContactUpdateOf(p), p.locationId).trace
    ensures c.result == EntityOf(ContactsApi.UpdateContact(send, p.contactId, ContactUpdateOf(p), p.locationId).result, "contact")
  {
    var inner := ContactsApi.UpdateContact(send, p.contactId, ContactUpdateOf(p), p.locationId);
    Call(inner.trace, EntityOf(inner.result, "contact"))
  }

  /** `delete_contact` tool: success is the client's boolean, and the message says which. */
  function DeleteContact(send: Transport, contactId: string, locationId: string): (c: Call<Json>)
    ensures c.trace == ContactsApi.DeleteContact(send, contactId, locationId).trace
    ensures c.result == DeletionOf(ContactsApi.DeleteContact(send, contactId, locationId).result,
                                   "Contact deleted successfully", "Failed to delete contact")
  {
    var inner := ContactsApi.DeleteContact(send, contactId, locationId);
    Call(inner.trace, DeletionOf(inner.result, ContactDeleted, ContactNotDeleted))
  }

  /** `get_contact` tool. */
  function GetContact(send: Transport, contactId: string, locationId: string): (c: Call<Json>)
    ensures c.trace == ContactsApi.GetContact(send, contactId, locationId).trace
    ensures c.result == EntityOf(ContactsApi.GetContact(send, contactId, locationId).result, "contact")
  {
    var inner := ContactsApi.GetContact(send, contactId, locationId);
    Call(inner.trace, EntityOf(inner.result, "contact"))
  }

  /** The search envelope: the contacts, and the count and total (possibly None) copied from the client's list. */
  function SearchEnvelope(r: Result<ContactsApi.ContactList, Error>): (e: Result<Json, Error>)
    ensures r.Err? ==> e == Err(r.error)
    ensures r.Ok? ==> e == Ok(Listing(Page(r.value.contacts, r.value.count, r.value.total), "contacts"))
  {
    if r.Err? then Err(r.error) else Ok(Listing(Page(r.value.contacts, r.value.count, r.value.total), "contacts"))
  }

  /** `search_contacts` tool: the contacts search, wrapped. */
  method SearchContacts(
    send: Transport, locationId: string, limit: int, skip: int,
    query: Option<string>, email: Option<string>, phone: Option<string>, tags: Option<seq<string>>)
    returns (c: Call<Json>)
    ensures |c.trace| == 1
    ensures c.trace[0].verb == GET && c.trace[0].path == "/contacts"
    ensures c.trace[0].body == None && c.trace[0].scope == Some(locationId)
    ensures ContactsApi.IsContactsQuery(c.trace[0].query, locationId, limit, skip, query, email, phone, tags)
    ensures c.result == SearchEnvelope(ContactsApi.ContactListReply(send(c.trace[0])))
  {
    var inner := ContactsApi.GetContacts(send, locationId, limit, skip, query, email, phone, tags);
    c := Call(inner.trace, SearchEnvelope(inner.result));
  }

  /** `add_contact_tags` tool: the two-call tag addition, the refetched contact under "contact". */
  function AddContactTags(send: Transport, contactId: string, tags: seq<string>, locationId: string): (c: Call<Json>)
    ensures c.trace == ContactsApi.AddContactTags(send, contactId, tags, locationId).trace
    ensures c.result == EntityOf(ContactsApi.AddContactTags(send, contactId, tags, locationId).result, "contact")
  {
    var inner := ContactsApi.AddContactTags(send, contactId, tags, locationId);
    Call(inner.trace, EntityOf(inner.result, "contact"))
  }

  /** `remove_contact_tags` tool. */
  function RemoveContactTags(send: Transport, contactId: string, tags: seq<string>, locationId: string): (c: Call<Json>)
    ensures c.trace == ContactsApi.RemoveContactTags(send, contactId, tags, locationId).trace
    ensures c.result == EntityOf(ContactsApi.RemoveContactTags(send, contactId, tags, locationId).result, "contact")
  {
    var inner := ContactsApi.RemoveContactTags(send, contactId, tags, locationId);
    Call(inner.trace, EntityOf(inner.result, "contact"))
  }

  // Tasks

  /** The parameters of the create-task tool; `completed` is False unless given. */
  datatype CreateTaskParams = CreateTaskParams(
    contactId: string, locationId: string, title: string,
    body: Option<string>, dueDate: Option<string>, assignedTo: Option<string>, completed: bool)

  /** The parameters of the update-task tool. */
  datatype UpdateTaskParams = UpdateTaskParams(
    contactId: string, taskId: string, locationId: string, title: Option<string>,
    body: Option<string>, dueDate: Option<string>, assignedTo: Option<string>, completed: Option<bool>)

  function TaskCreateOf(p: CreateTaskParams): Model {
    map["title" := JStr(p.title), "body" := Str(p.body), "dueDate" := Str(p.dueDate),
        "assignedTo" := Str(p.assignedTo), "completed" := JBool(p.completed)]
  }

  function TaskUpdateOf(p: UpdateTaskParams): Model {
    map["title" := Str(p.title), "body" := Str(p.body), "dueDate" := Str(p.dueDate),
        "assignedTo" := Str(p.assignedTo), "completed" := Bool(p.completed)]
  }

  /** A new task always carries its title and its completion flag, False included. */
  lemma NewTaskBodyAlwaysHasCompleted(p: CreateTaskParams)
    ensures Dump(TaskCreateOf(p))["title"] == JStr(p.title)
    ensures Dump(TaskCreateOf(p))["completed"] == JBool(p.completed)
  {
  }

  /** A task update with no field given sends an empty body. */
  lemma EmptyTaskUpdateSendsNothing(contactId: string, taskId: string, locationId: string)
    ensures Dump(TaskUpdateOf(UpdateTaskParams(contactId, taskId, locationId, None, None, None, None, None))) == map[]
  {
    var d := Dump(TaskUpdateOf(UpdateTaskParams(contactId, taskId, locationId, None, None, None, None, None)));
    assert d.Keys == {} by {
      forall k | k in d ensures false { }
    }
  }

  /** `get_contact_tasks` tool: the tasks with count and total. */
  function GetContactTasks(send: Transport, contactId: string, locationId: string): (c: Call<Json>)
    ensures c.trace == ContactsApi.GetContactTasks(send, contactId, locationId).trace
    ensures c.result == ListingOf(ContactsApi.GetContactTasks(send, contactId, locationId).result, "tasks")
  {
    var inner := ContactsApi.GetContactTasks(send, contactId, locationId);
    Call(inner.trace, ListingOf(inner.result, "tasks"))
  }

  /** `get_contact_task` tool. */
  function GetContactTask(send: Transport, contactId: string, taskId: string, locationId: string): (c: Call<Json>)
    ensures c.trace == ContactsApi.GetContactTask(send, contactId, taskId, locationId).trace
    ensures c.result == EntityOf(ContactsApi.GetContactTask(send, contactId, taskId, locationId).result, "task")
  {
    var inner := ContactsApi.GetContactTask(send, contactId, taskId, locationId);
    Call(inner.trace, EntityOf(inner.result, "task"))
  }

  /** `create_contact_task` tool. */
  function CreateContactTask(send: Transport, p: CreateTaskParams): (c: Call<Json>)
    ensures c.trace == ContactsApi.CreateContactTask(send, p.contactId, TaskCreateOf(p), p.locationId).trace
    ensures c.result == EntityOf(ContactsApi.CreateContactTask(send, p.contactId, TaskCreateOf(p), p.locationId).result, "task")
  {
    var inner := ContactsApi.CreateContactTask(send, p.contactId, TaskCreateOf(p), p.locationId);
    Call(inner.trace, EntityOf(inner.result, "task"))
  }

  /** `update_contact_task` tool. */
  function UpdateContactTask(send: Transport, p: UpdateTaskParams): (c: Call<Json>)
    ensures c.trace == ContactsApi.UpdateContactTask(send, p.contactId, p.taskId, TaskUpdateOf(p), p.locationId).trace
    ensures c.result == EntityOf(ContactsApi.UpdateContactTask(send, p.contactId, p.taskId, TaskUpdateOf(p), p.locationId).result, "task")
  {
    var inner := ContactsApi.UpdateContactTask(send, p.contactId, p.taskId, TaskUpdateOf(p), p.locationId);
    Call(inner.trace, EntityOf(inner.result, "task"))
  }

  /** `delete_contact_task` tool. */
  function DeleteContactTask(send: Transport, contactId: string, taskId: string, locationId: string): (c: Call<Json>)
    ensures c.trace == ContactsApi.DeleteContactTask(send, contactId, taskId, locationId).trace
    ensures c.result == DeletionOf(ContactsApi.DeleteContactTask(send, contactId, taskId, locationId).result,
                                   "Task deleted successfully", "Failed to delete task")
  {
    var inner := ContactsApi.DeleteContactTask(send, contactId, taskId, locationId);
    Call(inner.trace, DeletionOf(inner.result, TaskDeleted, TaskNotDeleted))
  }

  /** `complete_contact_task` tool; the tool's `completed` parameter is True unless given. */
  function CompleteContactTask(send: Transport, contactId: string, taskId: string, completed: bool, locationId: string)
    : (c: Call<Json>)
    ensures c.trace == ContactsApi.CompleteContactTask(send, contactId, taskId, completed, locationId).trace
    ensures c.result == EntityOf(ContactsApi.CompleteContactTask(send, contactId, taskId, completed, locationId).result, "task")
  {
    var inner := ContactsApi.CompleteContactTask(send, contactId, taskId, completed, locationId);
    Call(inner.trace, EntityOf(inner.result, "task"))
  }

  // Notes

  /** `get_contact_notes` tool: the notes with count and total. */
  function GetContactNotes(send: Transport, contactId: string, locationId: string): (c: Call<Json>)
    ensures c.trace == ContactsApi.GetContactNotes(send, contactId, locationId).trace
    ensures c.result == ListingOf(ContactsApi.GetContactNotes(send, contactId, locationId).result, "notes")
  {
    var inner := ContactsApi.GetContactNotes(send, contactId, locationId);
    Call(inner.trace, ListingOf(inner.result, "notes"))
  }

  /** `get_contact_note` tool. */
  function GetContactNote(send: Transport, contactId: string, noteId: string, locationId: string): (c: Call<Json>)
    ensures c.trace == ContactsApi.GetContactNote(send, contactId, noteId, locationId).trace
    ensures c.result == EntityOf(ContactsApi.GetContactNote(send, contactId, noteId, locationId).result, "note")
  {
    var inner := ContactsApi.GetContactNote(send, contactId, noteId, locationId);
    Call(inner.trace, EntityOf(inner.result, "note"))
  }

  /** `create_contact_note` tool: the note payload is just its body. */
  function CreateContactNote(send: Transport, contactId: string, body: string, locationId: string): (c: Call<Json>)
    ensures c.trace == ContactsApi.CreateContactNote(send, contactId, map["body" := JStr(body)], locationId).trace
    ensures c.trace[0].body == Some(JObj(map["body" := JStr(body)]))
    ensures c.result == EntityOf(ContactsApi.CreateContactNote(send, contactId, map["body" := JStr(body)], locationId).result, "note")
  {
    var note := map["body" := JStr(body)];
    assert Dump(note) == note;
    var inner := ContactsApi.CreateContactNote(send, contactId, note, locationId);
    Call(inner.trace, EntityOf(inner.result, "note"))
  }

  /** `update_contact_note` tool: the update payload is just the new body. */
  function UpdateContactNote(send: Transport, contactId: string, noteId: string, body: string, locationId: string)
    : (c: Call<Json>)
    ensures c.trace == ContactsApi.UpdateContactNote(send, contactId, noteId, map["body" := JStr(body)], locationId).trace
    ensures c.trace[0].body == Some(JObj(map["body" := JStr(body)]))
    ensures c.result == EntityOf(ContactsApi.UpdateContactNote(send, contactId, noteId, map["body" := JStr(body)], locationId).result, "note")
  {
    var note := map["body" := JStr(body)];
    assert Dump(note) == note;
    var inner := ContactsApi.UpdateContactNote(send, contactId, noteId, note, locationId);
    Call(inner.trace, EntityOf(inner.result, "note"))
  }

  /** `delete_contact_note` tool. */
  function DeleteContactNote(send: Transport, contactId: string, noteId: string, locationId: string): (c: Call<Json>)
    ensures c.trace == ContactsApi.DeleteContactNote(send, contactId, noteId, locationId).trace
    ensures c.result == DeletionOf(ContactsApi.DeleteContactNote(send, contactId, noteId, locationId).result,
                                   "Note deleted successfully", "Failed to delete note")
  {
    var inner := ContactsApi.DeleteContactNote(send, contactId, noteId, locationId);
    Call(inner.trace, DeletionOf(inner.result, NoteDeleted, NoteNotDeleted))
  }

  /** A reply status other than 200 to a contact delete gives `success: false` with the failure message. */
  lemma FailedContactDeleteEnvelope(send: Transport, contactId: string, locationId: string, status: int)
    requires status != 200
    requires send(Request(DELETE, "/contacts/" + contactId, map[], None, Some(locationId))) == Ok(Response(status, None))
    ensures DeleteContact(send, contactId, locationId).result ==
      Ok(JObj(map["success" := JBool(false), "message" := JStr("Failed to delete contact")]))
  {
  }
}
