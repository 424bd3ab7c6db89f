// ClientService: listing, creating, updating and deleting clients. Every
// call goes through `httpGet`, `httpPost`, `patch` or `httpDelete`; none of
// the responses is handed to transformResult.

module ClientService {
  import opened Values
  import opened Bodies

  const Path := "clients"

  /** `"clients/" . $clientId`. */
  function ClientPath(id: Value): string {
    Path + "/" + Text(id)
  }

  /** The page `get` asks for and the page size, when the caller passes none. */
  const DefaultPage := Int(1)
  const DefaultPerPage := Int(100)

  /** The body of `get`: `page` and `per_page` always, the filters when not null. */
  function GetQuery(isActive: Value, updatedSince: Value, page: Value, perPage: Value): seq<Field> {
    [Always("page", page), Always("per_page", perPage), Optional("is_active", isActive),
     Optional("updated_since", updatedSince)]
  }

  /** `get($isActive, $updatedSince, $page, $perPage)`. */
  method Get(isActive: Value, updatedSince: Value, page: Value, perPage: Value) returns (c: Call)
    ensures Sends(c, Helper, GET, Path, GetQuery(isActive, updatedSince, page, perPage), false)
    ensures Lookup(c.body.value, "page") == Some(page) && Lookup(c.body.value, "per_page") == Some(perPage)
  {
    c := Send(Helper, GET, Path, GetQuery(isActive, updatedSince, page, perPage), false);
    assert Lookup(c.body.value, GetQuery(isActive, updatedSince, page, perPage)[0].key) == Some(page);
    assert Lookup(c.body.value, GetQuery(isActive, updatedSince, page, perPage)[1].key) == Some(perPage);
  }

  /** `get()` with its defaults: page 1 of 100 clients, no filter. */
  method GetFirst() returns (c: Call)
    ensures c.sender == Helper && c.verb == GET && c.path == Path
    ensures c.body == Some(map["page" := DefaultPage, "per_page" := DefaultPerPage])
  {
    c := Get(Null, Null, DefaultPage, DefaultPerPage);
    DefaultsOnly(c.body.value, GetQuery(Null, Null, DefaultPage, DefaultPerPage));
  }

  /** Only the two paging entries survive when both filters are null. */
  lemma DefaultsOnly(data: map<string, Value>, fields: seq<Field>)
    requires fields == GetQuery(Null, Null, DefaultPage, DefaultPerPage)
    requires Conforms(data, fields)
    ensures data == map["page" := DefaultPage, "per_page" := DefaultPerPage]
  {
    forall k | k in data
      ensures k == "page" || k == "per_page"
    {
      var j :| 0 <= j < |fields| && fields[j].key == k;
      assert Lookup(data, k) == Expected(fields[j]);
    }
    assert Lookup(data, fields[0].key) == Expected(fields[0]);
    assert Lookup(data, fields[1].key) == Expected(fields[1]);
  }

  /** `getById($clientId)`: `httpGet` with no data. */
  method GetById(id: Value) returns (c: Call)
    ensures SendsBare(c, Helper, GET, ClientPath(id), false)
  {
    c := Call(Helper, GET, ClientPath(id), None, false);
  }

  /** The body of `create`: `name` always, the others when not null; `currency` is not checked. */
  function CreateFields(name: Value, isActive: Value, address: Value, currency: Value): seq<Field> {
    [Always("name", name), Optional("is_active", isActive), Optional("address", address),
     Optional("currency", currency)]
  }

  /** `create($name, ...)`; with only a name it sends exactly `['name' => $name]`. */
  method Create(name: Value, isActive: Value, address: Value, currency: Value) returns (c: Call)
    ensures Sends(c, Helper, POST, Path, CreateFields(name, isActive, address, currency), false)
    ensures isActive.Null? && address.Null? && currency.Null? ==> c.body == Some(map["name" := name])
  {
    c := Send(Helper, POST, Path, CreateFields(name, isActive, address, currency), false);
    if isActive.Null? && address.Null? && currency.Null? {
      Lone(c.body.value, CreateFields(name, isActive, address, currency), 0);
    }
  }

  /** The body of `update`: each argument when not null. */
  function UpdateFields(name: Value, isActive: Value, address: Value, currency: Value): seq<Field> {
    [Optional("name", name), Optional("is_active", isActive), Optional("address", address),
     Optional("currency", currency)]
  }

  /** `update($clientId, ...)`, sent with `patch`. */
  method Update(id: Value, name: Value, isActive: Value, address: Value, currency: Value) returns (c: Call)
    ensures Sends(c, Helper, PATCH, ClientPath(id), UpdateFields(name, isActive, address, currency), false)
  {
    c := Send(Helper, PATCH, ClientPath(id), UpdateFields(name, isActive, address, currency), false);
  }

  /** `delete($clientId)`: `httpDelete`. */
  method Delete(id: Value) returns (c: Call)
    ensures SendsBare(c, Helper, DELETE, ClientPath(id), false)
  {
    c := Call(Helper, DELETE, ClientPath(id), None, false);
  }
}
