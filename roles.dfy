// RoleService: listing, reading, creating, updating and deleting roles.
// Every call goes through `httpGet`, `httpPost`, `httpPatch` or
// `httpDelete`; no response is handed to transformResult.

module RoleService {
  import opened Values
  import opened Bodies

  const Path := "roles"

  /** `"roles/" . $roleId`. */
  function RolePath(id: Value): string {
    Path + "/" + Text(id)
  }

  /** The body of `get`: each argument when not null. */
  function GetQuery(page: Value, perPage: Value): seq<Field> {
    [Optional("page", page), Optional("per_page", perPage)]
  }

  /** `get($page, $perPage)`. */
  method Get(page: Value, perPage: Value) returns (c: Call)
    ensures Sends(c, Helper, GET, Path, GetQuery(page, perPage), false)
  {
    c := Send(Helper, GET, Path, GetQuery(page, perPage), false);
  }

  /** `getById($roleId)`: `httpGet` with no data. */
  method GetById(id: Value) returns (c: Call)
    ensures SendsBare(c, Helper, GET, RolePath(id), false)
  {
    c := Call(Helper, GET, RolePath(id), None, false);
  }

  /** The body of `create` and of `update`: `name` always, null included; `user_ids` when not null. */
  function RoleFields(name: Value, userIds: Value): seq<Field> {
    [Always("name", name), Optional("user_ids", userIds)]
  }

  /** `create($name, $userIds)`. */
  method Create(name: Value, userIds: Value) returns (c: Call)
    ensures Sends(c, Helper, POST, Path, RoleFields(name, userIds), false)
  {
    c := Send(Helper, POST, Path, RoleFields(name, userIds), false);
  }

  /** `update($roleId, $name, $userIds)`: `name` is sent even when null. */
  method Update(id: Value, name: Value, userIds: Value) returns (c: Call)
    ensures Sends(c, Helper, PATCH, RolePath(id), RoleFields(name, userIds), false)
    ensures Lookup(c.body.value, "name") == Some(name)
  {
    c := Send(Helper, PATCH, RolePath(id), RoleFields(name, userIds), false);
    assert Lookup(c.body.value, RoleFields(name, userIds)[0].key) == Some(name);
  }

  /** `delete($roleId)`. */
  method Delete(id: Value) returns (c: Call)
    ensures SendsBare(c, Helper, DELETE, RolePath(id), false)
  {
    c := Call(Helper, DELETE, RolePath(id), None, false);
  }
}
