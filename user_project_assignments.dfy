// UserProjectAssignmentService: the project assignments of one user, or of
// the user the credentials belong to. Both calls go through `httpGet`.

module UserProjectAssignmentService {
  import opened Values
  import opened Bodies

  /** `"/users/" . $userId . "/project_assignments"`, with its leading slash. */
  function AssignmentsPath(userId: Value): string {
    "/users/" + Text(userId) + "/project_assignments"
  }

  const CurrentUserPath := "users/me/project_assignments"

  /** The body of `get`: each argument when not null. */
  function GetQuery(updatedSince: Value, page: Value, perPage: Value): seq<Field> {
    [Optional("updated_since", updatedSince), Optional("page", page), Optional("per_page", perPage)]
  }

  /** `get($userId, ...)`. */
  method Get(userId: Value, updatedSince: Value, page: Value, perPage: Value) returns (c: Call)
    ensures Sends(c, Helper, GET, AssignmentsPath(userId), GetQuery(updatedSince, page, perPage), false)
    ensures c.path[0] == '/'
  {
    c := Send(Helper, GET, AssignmentsPath(userId), GetQuery(updatedSince, page, perPage), false);
  }

  /** `getForCurrentUser($page, $perPage)`: both arguments are dropped; no data is sent. */
  method GetForCurrentUser(page: Value, perPage: Value) returns (c: Call)
    ensures SendsBare(c, Helper, GET, CurrentUserPath, false)
  {
    c := Call(Helper, GET, CurrentUserPath, None, false);
  }
}
