// ClientContactService: listing, creating, updating and deleting client
// contacts. Every call goes through `httpGet`, `httpPost`, `patch` or
// `httpDelete`; none of the responses is handed to transformResult.

module ClientContactService {
  import opened Values
  import opened Bodies

  const Path := "contacts"

  /** `"contacts/" . $contactId`. */
  function ContactPath(id: Value): string {
    Path + "/" + Text(id)
  }

  /** The page `get` asks for and the page size, when the caller passes none. */
  const DefaultPage := Int(1)
  const DefaultPerPage := Int(100)

  /** The body of `get`: `page` and `per_page` always, the filters when not null. */
  function GetQuery(clientId: Value, updatedSince: Value, page: Value, perPage: Value): seq<Field> {
    [Always("page", page), Always("per_page", perPage), Optional("client_id", clientId),
     Optional("updated_since", updatedSince)]
  }

  /** `get($clientId, $updatedSince, $page, $perPage)`. */
  method Get(clientId: Value, updatedSince: Value, page: Value, perPage: Value) returns (c: Call)
    ensures Sends(c, Helper, GET, Path, GetQuery(clientId, updatedSince, page, perPage), false)
    ensures Lookup(c.body.value, "page") == Some(page) && Lookup(c.body.value, "per_page") == Some(perPage)
  {
    c := Send(Helper, GET, Path, GetQuery(clientId, updatedSince, page, perPage), false);
    assert Lookup(c.body.value, GetQuery(clientId, updatedSince, page, perPage)[0].key) == Some(page);
    assert Lookup(c.body.value, GetQuery(clientId, updatedSince, page, perPage)[1].key) == Some(perPage);
  }

  /** `get($clientId)` with the paging defaults: page 1 of 100 contacts. */
  method GetForClient(clientId: Value) returns (c: Call)
    ensures Sends(c, Helper, GET, Path, GetQuery(clientId, Null, DefaultPage, DefaultPerPage), false)
    ensures Lookup(c.body.value, "page") == Some(Int(1)) && Lookup(c.body.value, "per_page") == Some(Int(100))
  {
    c := Get(clientId, Null, DefaultPage, DefaultPerPage);
  }

  /** `getById($contactId)`: `httpGet` with no data. */
  method GetById(id: Value) returns (c: Call)
    ensures SendsBare(c, Helper, GET, ContactPath(id), false)
  {
    c := Call(Helper, GET, ContactPath(id), None, false);
  }

  /** The six details `create` and `update` write when not null, in their order. */
  function Details(lastName: Value, title: Value, email: Value, phoneOffice: Value, phoneMobile: Value,
                   fax: Value): seq<Field> {
    [Optional("last_name", lastName), Optional("title", title), Optional("email", email),
     Optional("phone_office", phoneOffice), Optional("phone_mobile", phoneMobile), Optional("fax", fax)]
  }

  /** The body of `create`: `client_id` and `first_name` always, the details when not null. */
  function CreateFields(clientId: Value, firstName: Value, details: seq<Field>): seq<Field> {
    [Always("client_id", clientId), Always("first_name", firstName)] + details
  }

  /** `create($clientId, $firstName, ...)`. */
  method Create(clientId: Value, firstName: Value, lastName: Value, title: Value, email: Value, phoneOffice: Value,
                phoneMobile: Value, fax: Value) returns (c: Call)
    ensures Sends(c, Helper, POST, Path,
                  CreateFields(clientId, firstName, Details(lastName, title, email, phoneOffice, phoneMobile, fax)),
                  false)
  {
    c := Send(Helper, POST, Path,
              CreateFields(clientId, firstName, Details(lastName, title, email, phoneOffice, phoneMobile, fax)), false);
  }

  /** The body of `update`: `client_id` and `first_name` too only when not null. */
  function UpdateFields(clientId: Value, firstName: Value, details: seq<Field>): seq<Field> {
    [Optional("client_id", clientId), Optional("first_name", firstName)] + details
  }

  /** `update($contactId, $clientId, ...)`, sent with `patch`; `client_id` is positional but may be left out. */
  method Update(id: Value, clientId: Value, firstName: Value, lastName: Value, title: Value, email: Value,
                phoneOffice: Value, phoneMobile: Value, fax: Value) returns (c: Call)
    ensures Sends(c, Helper, PATCH, ContactPath(id),
                  UpdateFields(clientId, firstName, Details(lastName, title, email, phoneOffice, phoneMobile, fax)),
                  false)
    ensures clientId.Null? <==> "client_id" !in c.body.value
  {
    var fields := UpdateFields(clientId, firstName, Details(lastName, title, email, phoneOffice, phoneMobile, fax));
    c := Send(Helper, PATCH, ContactPath(id), fields, false);
    assert Lookup(c.body.value, fields[0].key) == Expected(fields[0]);
  }

  /** `delete($contactId)`: `httpDelete`. */
  method Delete(id: Value) returns (c: Call)
    ensures SendsBare(c, Helper, DELETE, ContactPath(id), false)
  {
    c := Call(Helper, DELETE, ContactPath(id), None, false);
  }
}
