// ExpenseCategoryService: listing, reading, creating, updating and
// deleting expense categories. Calls go through the Gateway; no response
// is handed to transformResult.

module ExpenseCategoryService {
  import opened Values
  import opened Bodies

  const Path := "expense_categories"

  /** `"expense_categories/" . $expenseCategoryId`. */
  function CategoryPath(id: Value): string {
    Path + "/" + Text(id)
  }

  /** The body of `get`: each argument when not null. */
  function GetQuery(isActive: Value, updatedSince: Value, page: Value, perPage: Value): seq<Field> {
    [Optional("is_active", isActive), Optional("updated_since", updatedSince), Optional("page", page),
     Optional("per_page", perPage)]
  }

  /** `get(...)`. */
  method Get(isActive: Value, updatedSince: Value, page: Value, perPage: Value) returns (c: Call)
    ensures Sends(c, Api, GET, Path, GetQuery(isActive, updatedSince, page, perPage), false)
  {
    c := Send(Api, GET, Path, GetQuery(isActive, updatedSince, page, perPage), false);
  }

  /** `getById($expenseCategoryId)`: a Gateway `get` with an empty array as data. */
  method GetById(id: Value) returns (c: Call)
    ensures Sends(c, Api, GET, CategoryPath(id), [], false)
    ensures c.body == Some(map[])
  {
    c := Send(Api, GET, CategoryPath(id), [], false);
  }

  /** The body of `create`: `name` always, the others when not null. */
  function CreateFields(name: Value, unitName: Value, unitPrice: Value, isActive: Value): seq<Field> {
    [Always("name", name), Optional("unit_name", unitName), Optional("unit_price", unitPrice),
     Optional("is_active", isActive)]
  }

  /** `create($name, ...)`. */
  method Create(name: Value, unitName: Value, unitPrice: Value, isActive: Value) returns (c: Call)
    ensures Sends(c, Api, POST, Path, CreateFields(name, unitName, unitPrice, isActive), false)
  {
    c := Send(Api, POST, Path, CreateFields(name, unitName, unitPrice, isActive), false);
  }

  /** The body of `update`: each argument when not null. */
  function UpdateFields(name: Value, unitName: Value, unitPrice: Value, isActive: Value): seq<Field> {
    [Optional("name", name), Optional("unit_name", unitName), Optional("unit_price", unitPrice),
     Optional("is_active", isActive)]
  }

  /** `update($expenseCategoryId, ...)`. */
  method Update(id: Value, name: Value, unitName: Value, unitPrice: Value, isActive: Value) returns (c: Call)
    ensures Sends(c, Api, PATCH, CategoryPath(id), UpdateFields(name, unitName, unitPrice, isActive), false)
  {
    c := Send(Api, PATCH, CategoryPath(id), UpdateFields(name, unitName, unitPrice, isActive), false);
  }

  /** `delete($expenseCategoryId)`. */
  method Delete(id: Value) returns (c: Call)
    ensures SendsBare(c, Api, DELETE, CategoryPath(id), false)
  {
    c := Call(Api, DELETE, CategoryPath(id), None, false);
  }
}
