/**
 * The user tools. Creating or updating a user builds a permissions object from
 * nine flags, but only when at least one of them is True; once built, it keeps
 * every flag that was given, False ones included.
 */
module UsersTools {
  import opened Wrappers
  import opened Json
  import opened Http
  import opened Marshal
  import opened Envelope
  import UsersApi

  /** The nine permission flags the user tools accept. */
  datatype PermissionFlags = PermissionFlags(
    campaignsEnabled: Option<bool>, campaignsReadOnly: Option<bool>, contactsEnabled: Option<bool>,
    workflowsEnabled: Option<bool>, workflowsReadOnly: Option<bool>, opportunitiesEnabled: Option<bool>,
    appointmentsEnabled: Option<bool>, conversationsEnabled: Option<bool>, settingsEnabled: Option<bool>)

  /** The parameters of the create-user tool. */
  datatype CreateUserParams = CreateUserParams(
    companyId: string, name: string, firstName: Option<string>, lastName: Option<string>,
    email: string, phone: Option<string>, extension: Option<string>,
    flags: PermissionFlags,
    roles: Option<seq<string>>, locationIds: Option<seq<string>>,
    profilePhoto: Option<string>, userType: Option<string>)

  /** The parameters of the update-user tool. */
  datatype UpdateUserParams = UpdateUserParams(
    userId: string, name: Option<string>, firstName: Option<string>, lastName: Option<string>,
    email: Option<string>, phone: Option<string>, extension: Option<string>,
    flags: PermissionFlags,
    roles: Option<seq<string>>, locationIds: Option<seq<string>>,
    profilePhoto: Option<string>, userType: Option<string>)

  /** The `UserPermissions` field names of the nine flags, in the order the guard lists them. */
  const FlagNames: seq<string> :=
    ["campaignsEnabled", "campaignsReadOnly", "contactsEnabled", "workflowsEnabled", "workflowsReadOnly",
     "opportunitiesEnabled", "appointmentsEnabled", "conversationsEnabled", "settingsEnabled"]

  /** The flags in the order the guard lists them. */
  function FlagValues(f: PermissionFlags): (vs: seq<Json>)
    ensures |vs| == 9
  {
    [Bool(f.campaignsEnabled), Bool(f.campaignsReadOnly), Bool(f.contactsEnabled),
     Bool(f.workflowsEnabled), Bool(f.workflowsReadOnly), Bool(f.opportunitiesEnabled),
     Bool(f.appointmentsEnabled), Bool(f.conversationsEnabled), Bool(f.settingsEnabled)]
  }

  /**
   * The permissions object, as it is serialised inside the payload: built only
   * when some flag is True, and then holding exactly the flags that were given.
   */
  function PermissionsOf(f: PermissionFlags): (j: Json)
    ensures j != JNull <==> AnyTruthy(FlagValues(f))
    ensures j != JNull ==> j.JObj? && JNull !in j.fields.Values
    ensures j != JNull ==> forall k | k in j.fields :: k in FlagNames
    ensures j != JNull ==> forall i | 0 <= i < 9 :: FlagNames[i] in j.fields <==> FlagValues(f)[i] != JNull
    ensures j != JNull ==> forall i | 0 <= i < 9 && FlagNames[i] in j.fields :: j.fields[FlagNames[i]] == FlagValues(f)[i]
  {
    if AnyTruthy(FlagValues(f)) then
      var m := map["campaignsEnabled" := Bool(f.campaignsEnabled),
                    "campaignsReadOnly" := Bool(f.campaignsReadOnly),
                    "contactsEnabled" := Bool(f.contactsEnabled),
                    "workflowsEnabled" := Bool(f.workflowsEnabled),
                    "workflowsReadOnly" := Bool(f.workflowsReadOnly),
                    "opportunitiesEnabled" := Bool(f.opportunitiesEnabled),
                    "appointmentsEnabled" := Bool(f.appointmentsEnabled),
                    "conversationsEnabled" := Bool(f.conversationsEnabled),
                    "settingsEnabled" := Bool(f.settingsEnabled)];
      assert forall i | 0 <= i < 9 :: FlagNames[i] in m && m[FlagNames[i]] == FlagValues(f)[i];
      assert forall k | k in m :: k in FlagNames;
      JObj(Dump(m))
    else JNull
  }

  /** Flags that are all absent or all explicitly False build no permissions object. */
  lemma FalseFlagsBuildNothing(f: PermissionFlags)
    requires forall i | 0 <= i < 9 :: FlagValues(f)[i] in {JNull, JBool(false)}
    ensures PermissionsOf(f) == JNull
  {
  }

  /** One True flag builds the object, and an explicit False given beside it is kept. */
  lemma TrueFlagKeepsExplicitFalse(f: PermissionFlags)
    requires f.campaignsEnabled == Some(true) && f.contactsEnabled == Some(false)
    ensures PermissionsOf(f).JObj?
    ensures "contactsEnabled" in PermissionsOf(f).fields
    ensures PermissionsOf(f).fields["contactsEnabled"] == JBool(false)
  {
    assert Truthy(FlagValues(f)[0]);
  }

  /** The `UserCreate` sent. */
  function UserCreateOf(p: CreateUserParams): (m: Model)
    ensures m.Keys == {"companyId", "name", "email", "firstName", "lastName", "phone", "extension",
                       "roles", "locationIds", "profilePhoto", "type", "permissions"}
    ensures m["companyId"] == JStr(p.companyId) && m["name"] == JStr(p.name)
    ensures m["email"] == JStr(p.email) && m["firstName"] == Str(p.firstName)
    ensures m["lastName"] == Str(p.lastName) && m["phone"] == Str(p.phone)
    ensures m["extension"] == Str(p.extension) && m["roles"] == StrList(p.roles)
    ensures m["locationIds"] == StrList(p.locationIds) && m["profilePhoto"] == Str(p.profilePhoto)
    ensures m["type"] == Str(p.userType) && m["permissions"] == PermissionsOf(p.flags)
  {
    map["companyId" := JStr(p.companyId), "name" := JStr(p.name), "email" := JStr(p.email),
        "firstName" := Str(p.firstName), "lastName" := Str(p.lastName),
        "phone" := Str(p.phone), "extension" := Str(p.extension),
        "roles" := StrList(p.roles), "locationIds" := StrList(p.locationIds),
        "profilePhoto" := Str(p.profilePhoto), "type" := Str(p.userType),
        "permissions" := PermissionsOf(p.flags)]
  }

  /** The `UserUpdate` sent: the same fields without a company, all optional. */
  function UserUpdateOf(p: UpdateUserParams): (m: Model)
    ensures m.Keys == {"name", "email", "firstName", "lastName", "phone", "extension",
                       "roles", "locationIds", "profilePhoto", "type", "permissions"}
    ensures m["name"] == Str(p.name) && m["email"] == Str(p.email)
    ensures m["firstName"] == Str(p.firstName) && m["lastName"] == Str(p.lastName)
    ensures m["phone"] == Str(p.phone) && m["extension"] == Str(p.extension)
    ensures m["roles"] == StrList(p.roles) && m["locationIds"] == StrList(p.locationIds)
    ensures m["profilePhoto"] == Str(p.profilePhoto) && m["type"] == Str(p.userType)
    ensures m["permissions"] == PermissionsOf(p.flags)
  {
    map["name" := Str(p.name), "email" := Str(p.email),
        "firstName" := Str(p.firstName), "lastName" := Str(p.lastName),
        "phone" := Str(p.phone), "extension" := Str(p.extension),
        "roles" := StrList(p.roles), "locationIds" := StrList(p.locationIds),
        "profilePhoto" := Str(p.profilePhoto), "type" := Str(p.userType),
        "permissions" := PermissionsOf(p.flags)]
  }

  /** Permissions reach the request body exactly when some flag is True. */
  lemma PermissionsSentIffSomeFlagTrue(p: CreateUserParams)
    ensures "permissions" in Dump(UserCreateOf(p)) <==> AnyTruthy(FlagValues(p.flags))
  {
  }

  /** A user created with only the required fields is sent as its company, name and email. */
  lemma MinimalUserBody(companyId: string, name: string, email: string)
    ensures var none := PermissionFlags(None, None, None, None, None, None, None, None, None);
            Dump(UserCreateOf(CreateUserParams(companyId, name, None, None, email, None, None, none,
                                               None, None, None, None)))
            == map["companyId" := JStr(companyId), "name" := JStr(name), "email" := JStr(email)]
  {
    var none := PermissionFlags(None, None, None, None, None, None, None, None, None);
    FalseFlagsBuildNothing(none);
    DumpKeepsExactlySetFields(UserCreateOf(CreateUserParams(companyId, name, None, None, email, None, None, none,
                                                            None, None, None, None)),
                              {"companyId", "name", "email"});
  }

  /** `get_users` tool: the users, count and total copied from the list. */
  method GetUsers(send: Transport, locationId: Option<string>, limit: int, skip: int) returns (c: Call<Json>)
    ensures |c.trace| == 1
    ensures c.trace[0].verb == GET && c.trace[0].path == "/users"
    ensures c.trace[0].body == None && c.trace[0].scope == None
    ensures UsersApi.IsUsersQuery(c.trace[0].query, locationId, limit, skip)
    ensures c.result == ListingOf(PageReply(send(c.trace[0]), "users"), "users")
  {
    var inner := UsersApi.GetUsers(send, locationId, limit, skip);
    c := Call(inner.trace, ListingOf(inner.result, "users"));
  }

  /** `get_user` tool. */
  function GetUser(send: Transport, userId: string): (c: Call<Json>)
    ensures c.trace == UsersApi.GetUser(send, userId).trace
    ensures c.result == EntityOf(UsersApi.GetUser(send, userId).result, "user")
  {
    var inner := UsersApi.GetUser(send, userId);
    Call(inner.trace, EntityOf(inner.result, "user"))
  }

  /** `create_user` tool. */
  function CreateUser(send: Transport, p: CreateUserParams): (c: Call<Json>)
    ensures c.trace == UsersApi.CreateUser(send, UserCreateOf(p)).trace
    ensures c.result == EntityOf(UsersApi.CreateUser(send, UserCreateOf(p)).result, "user")
  {
    var inner := UsersApi.CreateUser(send, UserCreateOf(p));
    Call(inner.trace, EntityOf(inner.result, "user"))
  }

  /** `update_user` tool. */
  function UpdateUser(send: Transport, p: UpdateUserParams): (c: Call<Json>)
    ensures c.trace == UsersApi.UpdateUser(send, p.userId, UserUpdateOf(p)).trace
    ensures c.result == EntityOf(UsersApi.UpdateUser(send, p.userId, UserUpdateOf(p)).result, "user")
  {
    var inner := UsersApi.UpdateUser(send, p.userId, UserUpdateOf(p));
    Call(inner.trace, EntityOf(inner.result, "user"))
  }

  /** `delete_user` tool. */
  function DeleteUser(send: Transport, userId: string): (c: Call<Json>)
    ensures c.trace == UsersApi.DeleteUser(send, userId).trace
    ensures c.result == DeletionOf(UsersApi.DeleteUser(send, userId).result,
                                   "User deleted successfully", "Failed to delete user")
  {
    var inner := UsersApi.DeleteUser(send, userId);
    Call(inner.trace, DeletionOf(inner.result, "User deleted successfully", "Failed to delete user"))
  }
}
