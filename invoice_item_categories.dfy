// InvoiceItemCategoryService: listing, reading, creating, renaming and deleting
// invoice item categories. Calls go through the Gateway; `get` and `getById` hand the response to
// transformResult.

module InvoiceItemCategoryService {
  import opened Values
  import opened Bodies

  const Path := "invoice_item_categories"

  /** `"invoice_item_categories/" . $id`. */
  function CategoryPath(id: Value): string {
    Path + "/" + Text(id)
  }

  /** The body of `get`: each argument when not null. */
  function GetQuery(updatedSince: Value, page: Value, perPage: Value): seq<Field> {
    [Optional("updated_since", updatedSince), Optional("page", page), Optional("per_page", perPage)]
  }

  /** `get(...)`. */
  method Get(updatedSince: Value, page: Value, perPage: Value) returns (c: Call)
    ensures Sends(c, Api, GET, Path, GetQuery(updatedSince, page, perPage), true)
  {
    c := Send(Api, GET, Path, GetQuery(updatedSince, page, perPage), true);
  }

  /** `getById($id)`: a Gateway `get` with an empty array as data. */
  method GetById(id: Value) returns (c: Call)
    ensures Sends(c, Api, GET, CategoryPath(id), [], true)
    ensures c.body == Some(map[])
  {
    c := Send(Api, GET, CategoryPath(id), [], true);
  }

  /** `create($name)`: exactly `['name' => $name]`, null included. */
  method Create(name: Value) returns (c: Call)
    ensures Sends(c, Api, POST, Path, [Always("name", name)], false)
    ensures c.body == Some(map["name" := name])
  {
    c := Send(Api, POST, Path, [Always("name", name)], false);
    FillSingle(Always("name", name));
  }

  /**
   * `update($name)`: exactly `['name' => $name]`, PATCHed to the
   * collection path; the method takes no id, so no category is named.
   */
  method Update(name: Value) returns (c: Call)
    ensures Sends(c, Api, PATCH, Path, [Always("name", name)], false)
    ensures c.body == Some(map["name" := name])
  {
    c := Send(Api, PATCH, Path, [Always("name", name)], false);
    FillSingle(Always("name", name));
  }

  /** `delete($id)`. */
  method Delete(id: Value) returns (c: Call)
    ensures SendsBare(c, Api, DELETE, CategoryPath(id), false)
  {
    c := Call(Api, DELETE, CategoryPath(id), None, false);
  }
}
