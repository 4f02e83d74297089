/**
 * The users client: agency users, optionally filtered by location. No request
 * here is scoped to a location; entities are read from under "user" when present.
 */
module UsersApi {
  import opened Wrappers
  import opened Json
  import opened Http
  import opened Marshal

  /** The users query: the page query, plus `locationId` only when it is truthy. */
  ghost predicate IsUsersQuery(params: map<string, Json>, locationId: Option<string>, limit: int, skip: int) {
    && params.Keys <= {"limit", "skip", "locationId"}
    && "limit" in params && params["limit"] == JInt(limit)
    && ("skip" in params <==> skip > 0)
    && ("locationId" in params <==> Truthy(Str(locationId)))
    && ("skip" in params ==> params["skip"] == JInt(skip))
    && ("locationId" in params ==> params["locationId"] == Str(locationId))
  }

  /** Builds the users query by conditional insertions. */
  method UsersQuery(locationId: Option<string>, limit: int, skip: int) returns (params: map<string, Json>)
    ensures IsUsersQuery(params, locationId, limit, skip)
  {
    params := map["limit" := JInt(limit)];
    if skip > 0 {
      params := params["skip" := JInt(skip)];
    }
    if locationId.Some? && locationId.value != "" {
      params := params["locationId" := JStr(locationId.value)];
    }
  }

  /** `get_users`: unscoped GET /users with the users query, read under "users". */
  method GetUsers(send: Transport, locationId: Option<string>, limit: int, skip: int) returns (c: Call<Page>)
    ensures |c.trace| == 1
    ensures c.trace[0].verb == GET && c.trace[0].path == "/users"
    ensures c.trace[0].body == None && c.trace[0].scope == None
    ensures IsUsersQuery(c.trace[0].query, locationId, limit, skip)
    ensures c.result == PageReply(send(c.trace[0]), "users")
  {
    var params := UsersQuery(locationId, limit, skip);
    var req := Request(GET, "/users", params, None, None);
    c := Call([req], PageReply(send(req), "users"));
  }

  /** `get_user`: GET /users/{id}, the user under "user" or the whole body. */
  function GetUser(send: Transport, userId: string): (c: Call<Model>)
    ensures c.trace == [Request(GET, "/users/" + userId, map[], None, None)]
    ensures c.result == UnwrapReply(send(c.trace[0]), "user")
  {
    var req := Request(GET, "/users/" + userId, map[], None, None);
    Call([req], UnwrapReply(send(req), "user"))
  }

  /** `create_user`: POST /users with the set fields. */
  function CreateUser(send: Transport, user: Model): (c: Call<Model>)
    ensures c.trace == [Request(POST, "/users", map[], Some(JObj(Dump(user))), None)]
    ensures c.result == UnwrapReply(send(c.trace[0]), "user")
  {
    var req := Request(POST, "/users", map[], Some(JObj(Dump(user))), None);
    Call([req], UnwrapReply(send(req), "user"))
  }

  /** `update_user`: PUT /users/{id} with the set fields. */
  function UpdateUser(send: Transport, userId: string, updates: Model): (c: Call<Model>)
    ensures c.trace == [Request(PUT, "/users/" + userId, map[], Some(JObj(Dump(updates))), None)]
    ensures c.result == UnwrapReply(send(c.trace[0]), "user")
  {
    var req := Request(PUT, "/users/" + userId, map[], Some(JObj(Dump(updates))), None);
    Call([req], UnwrapReply(send(req), "user"))
  }

  /** `delete_user`: DELETE /users/{id}; true exactly on status 200. */
  function DeleteUser(send: Transport, userId: string): (c: Call<bool>)
    ensures c.trace == [Request(DELETE, "/users/" + userId, map[], None, None)]
    ensures c.result.Ok? <==> send(c.trace[0]).Ok?
    ensures c.result.Ok? ==> (c.result.value <==> send(c.trace[0]).value.status == 200)
  {
    var req := Request(DELETE, "/users/" + userId, map[], None, None);
    Call([req], StatusReply(send(req), {200}))
  }
}
