// EstimateItemCategoryService: listing, reading, creating, renaming and deleting
// estimate item categories. Every call goes through `httpGet`, `httpPost`, `httpPatch` or
// `httpDelete`; no response is handed to transformResult.

module EstimateItemCategoryService {
  import opened Values
  import opened Bodies

  const Path := "estimate_item_categories"

  /** `"estimate_item_categories/" . $id`. */
  function CategoryPath(id: Value): string {
    Path + "/" + Text(id)
  }

  /** The body of `get`: each argument when not null. */
  function GetQuery(updatedSince: Value, page: Value, perPage: Value): seq<Field> {
    [Optional("updated_since", updatedSince), Optional("page", page), Optional("per_page", perPage)]
  }

  /** `get(...)`. */
  method Get(updatedSince: Value, page: Value, perPage: Value) returns (c: Call)
    ensures Sends(c, Helper, GET, Path, GetQuery(updatedSince, page, perPage), false)
  {
    c := Send(Helper, GET, Path, GetQuery(updatedSince, page, perPage), false);
  }

  /** `getById($id)`: `httpGet` with an empty array as data. */
  method GetById(id: Value) returns (c: Call)
    ensures Sends(c, Helper, GET, CategoryPath(id), [], false)
    ensures c.body == Some(map[])
  {
    c := Send(Helper, GET, CategoryPath(id), [], false);
  }

  /** `create($name)`: exactly `['name' => $name]`, null included. */
  method Create(name: Value) returns (c: Call)
    ensures Sends(c, Helper, POST, Path, [Always("name", name)], false)
    ensures c.body == Some(map["name" := name])
  {
    c := Send(Helper, POST, Path, [Always("name", name)], false);
    FillSingle(Always("name", name));
  }

  /**
   * `update($name)`: exactly `['name' => $name]`, PATCHed to the
   * collection path; the method takes no id, so no category is named.
   */
  method Update(name: Value) returns (c: Call)
    ensures Sends(c, Helper, PATCH, Path, [Always("name", name)], false)
    ensures c.body == Some(map["name" := name])
  {
    c := Send(Helper, PATCH, Path, [Always("name", name)], false);
    FillSingle(Always("name", name));
  }

  /** `delete($id)`. */
  method Delete(id: Value) returns (c: Call)
    ensures SendsBare(c, Helper, DELETE, CategoryPath(id), false)
  {
    c := Call(Helper, DELETE, CategoryPath(id), None, false);
  }
}
