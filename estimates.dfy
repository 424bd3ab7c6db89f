// EstimateService: listing, creating, updating and deleting estimates and
// their line items. Calls go through the Gateway; `get` and `getById` hand
// the response to transformResult.

module EstimateService {
  import opened Values
  import opened Bodies

  const Path := "estimates"

  /** `"estimates/" . $estimateId`. */
  function EstimatePath(id: Value): string {
    Path + "/" + Text(id)
  }

  /** The body of `get`: each argument when not null. */
  function GetQuery(clientId: Value, updatedSince: Value, from: Value, to: Value, state: Value, page: Value,
                    perPage: Value): seq<Field> {
    [Optional("client_id", clientId), Optional("updated_since", updatedSince), Optional("from", from),
     Optional("to", to), Optional("state", state), Optional("page", page), Optional("per_page", perPage)]
  }

  /** `get(...)`. */
  method Get(clientId: Value, updatedSince: Value, from: Value, to: Value, state: Value, page: Value,
             perPage: Value) returns (c: Call)
    ensures Sends(c, Api, GET, Path, GetQuery(clientId, updatedSince, from, to, state, page, perPage), true)
  {
    c := Send(Api, GET, Path, GetQuery(clientId, updatedSince, from, to, state, page, perPage), true);
  }

  /** `getById($estimateId)`: a Gateway `get` with no data. */
  method GetById(id: Value) returns (c: Call)
    ensures SendsBare(c, Api, GET, EstimatePath(id), true)
  {
    c := Call(Api, GET, EstimatePath(id), None, true);
  }

  /** The ten settings `create` and `update` write when not null, in their order. */
  function Details(number: Value, purchaseOrder: Value, tax: Value, tax2: Value, discount: Value, subject: Value,
                   notes: Value, currency: Value, issueDate: Value, lineItems: Value): seq<Field> {
    [Optional("number", number), Optional("purchase_order", purchaseOrder), Optional("tax", tax),
     Optional("tax2", tax2), Optional("discount", discount), Optional("subject", subject),
     Optional("notes", notes), Optional("currency", currency), Optional("issue_date", issueDate),
     Optional("line_items", lineItems)]
  }

  /** The keys `create` and `update` write, in the order they write them. */
  const EstimateKeys := ["client_id", "number", "purchase_order", "tax", "tax2", "discount", "subject", "notes",
                         "currency", "issue_date", "line_items"]

  /** No key appears twice among them. */
  lemma EstimateKeysDistinct()
    ensures DistinctStrings(EstimateKeys)
  {
  }

  /** The details write all but the first of those keys. */
  lemma DetailsKeys(number: Value, purchaseOrder: Value, tax: Value, tax2: Value, discount: Value, subject: Value,
                    notes: Value, currency: Value, issueDate: Value, lineItems: Value)
    ensures KeysOf(Details(number, purchaseOrder, tax, tax2, discount, subject, notes, currency, issueDate,
                           lineItems)) == EstimateKeys[1..]
  {
  }

  /** A client step followed by the details writes each key once. */
  lemma FieldsDistinct(client: Field, details: seq<Field>)
    requires client.key == "client_id" && KeysOf(details) == EstimateKeys[1..]
    ensures DistinctKeys([client] + details)
  {
    KeysAppend([client], details);
    assert EstimateKeys == [EstimateKeys[0]] + EstimateKeys[1..];
    EstimateKeysDistinct();
    KeysDistinct([client] + details, EstimateKeys);
  }

  /** The body of `create`: `client_id` always, the details when not null. */
  function CreateFields(clientId: Value, details: seq<Field>): seq<Field> {
    [Always("client_id", clientId)] + details
  }

  /** `create($clientId, ...)`: a Gateway `post`. */
  method Create(clientId: Value, number: Value, purchaseOrder: Value, tax: Value, tax2: Value, discount: Value,
                subject: Value, notes: Value, currency: Value, issueDate: Value, lineItems: Value) returns (c: Call)
    ensures Sends(c, Api, POST, Path,
                  CreateFields(clientId, Details(number, purchaseOrder, tax, tax2, discount, subject, notes, currency,
                                                 issueDate, lineItems)), false)
  {
    var details := Details(number, purchaseOrder, tax, tax2, discount, subject, notes, currency, issueDate, lineItems);
    DetailsKeys(number, purchaseOrder, tax, tax2, discount, subject, notes, currency, issueDate, lineItems);
    FieldsDistinct(Always("client_id", clientId), details);
    c := Send(Api, POST, Path, CreateFields(clientId, details), false);
  }

  /** The body of `update`: every argument when not null. */
  function UpdateFields(clientId: Value, details: seq<Field>): seq<Field> {
    [Optional("client_id", clientId)] + details
  }

  /** `update($estimateId, ...)`: a Gateway `patch`. */
  method Update(id: Value, clientId: Value, number: Value, purchaseOrder: Value, tax: Value, tax2: Value,
                discount: Value, subject: Value, notes: Value, currency: Value, issueDate: Value, lineItems: Value)
    returns (c: Call)
    ensures Sends(c, Api, PATCH, EstimatePath(id),
                  UpdateFields(clientId, Details(number, purchaseOrder, tax, tax2, discount, subject, notes, currency,
                                                 issueDate, lineItems)), false)
  {
    var details := Details(number, purchaseOrder, tax, tax2, discount, subject, notes, currency, issueDate, lineItems);
    DetailsKeys(number, purchaseOrder, tax, tax2, discount, subject, notes, currency, issueDate, lineItems);
    FieldsDistinct(Optional("client_id", clientId), details);
    c := Send(Api, PATCH, EstimatePath(id), UpdateFields(clientId, details), false);
  }

  /**
   * An `update` whose only non-null argument is the list of line items
   * holding one item sends exactly `['line_items' => [$item]]`.
   */
  lemma OnlyLineItems(c: Call, id: Value, item: seq<Field>)
    requires DistinctKeys(item)
    requires Sends(c, Api, PATCH, EstimatePath(id),
                   UpdateFields(Null, Details(Null, Null, Null, Null, Null, Null, Null, Null, Null,
                                              List([Dict(Fill(item))]))), false)
    ensures SendsItem(c, Api, PATCH, EstimatePath(id), "line_items", item, false)
  {
    var fields := UpdateFields(Null, Details(Null, Null, Null, Null, Null, Null, Null, Null, Null,
                                             List([Dict(Fill(item))])));
    Lone(c.body.value, fields, 10);
    FillConforms(item);
  }

  /** The item `createLineItem` adds: all six keys, null ones included. */
  function NewItemFields(kind: Value, description: Value, quantity: Value, unitPrice: Value, taxed: Value,
                         taxed2: Value): seq<Field> {
    [Always("kind", kind), Always("description", description), Always("quantity", quantity),
     Always("unit_price", unitPrice), Always("taxed", taxed), Always("taxed2", taxed2)]
  }

  /** `createLineItem($estimateId, $kind, $unitPrice, ...)`: an `update` carrying only the new item. */
  method CreateLineItem(id: Value, kind: Value, unitPrice: Value, description: Value, quantity: Value, taxed: Value,
                        taxed2: Value) returns (c: Call)
    ensures SendsItem(c, Api, PATCH, EstimatePath(id), "line_items",
                      NewItemFields(kind, description, quantity, unitPrice, taxed, taxed2), false)
  {
    var item := NewItemFields(kind, description, quantity, unitPrice, taxed, taxed2);
    c := Update(id, Null, Null, Null, Null, Null, Null, Null, Null, Null, Null, List([Dict(Fill(item))]));
    OnlyLineItems(c, id, item);
  }

  /** The item `updateLineItem` sends: the id and all six keys, null ones included. */
  function ChangedItemFields(lineItemId: Value, kind: Value, description: Value, quantity: Value, unitPrice: Value,
                             taxed: Value, taxed2: Value): seq<Field> {
    [Always("id", lineItemId), Always("kind", kind), Always("description", description),
     Always("quantity", quantity), Always("unit_price", unitPrice), Always("taxed", taxed),
     Always("taxed2", taxed2)]
  }

  /** `updateLineItem($estimateId, $lineItemId, ...)`: an `update` carrying only the changed item. */
  method UpdateLineItem(id: Value, lineItemId: Value, kind: Value, description: Value, quantity: Value,
                        unitPrice: Value, taxed: Value, taxed2: Value) returns (c: Call)
    ensures SendsItem(c, Api, PATCH, EstimatePath(id), "line_items",
                      ChangedItemFields(lineItemId, kind, description, quantity, unitPrice, taxed, taxed2), false)
  {
    var item := ChangedItemFields(lineItemId, kind, description, quantity, unitPrice, taxed, taxed2);
    c := Update(id, Null, Null, Null, Null, Null, Null, Null, Null, Null, Null, List([Dict(Fill(item))]));
    OnlyLineItems(c, id, item);
  }

  /** The item `deleteLineItem` sends: the id and the `_destroy` flag. */
  function DestroyFields(lineItemId: Value): seq<Field> {
    [Always("id", lineItemId), Always("_destroy", Bool(true))]
  }

  /** `deleteLineItem($estimateId, $lineItemId)`: an `update` carrying only `['id' => ..., '_destroy' => true]`. */
  method DeleteLineItem(id: Value, lineItemId: Value) returns (c: Call)
    ensures SendsItem(c, Api, PATCH, EstimatePath(id), "line_items", DestroyFields(lineItemId), false)
    ensures c.body == Some(map["line_items" := List([Dict(map["id" := lineItemId, "_destroy" := Bool(true)])])])
  {
    var item := DestroyFields(lineItemId);
    c := Update(id, Null, Null, Null, Null, Null, Null, Null, Null, Null, Null, List([Dict(Fill(item))]));
    OnlyLineItems(c, id, item);
    assert item[..1] == [item[0]] && item[..1][..0] == [];
    assert Fill(item[..1]) == map["id" := lineItemId];
    assert Fill(item) == map["id" := lineItemId, "_destroy" := Bool(true)];
    assert c.body.value == map["line_items" := List([Dict(Fill(item))])];
  }

  /** `delete($estimateId)`: a Gateway `delete`. */
  method Delete(id: Value) returns (c: Call)
    ensures SendsBare(c, Api, DELETE, EstimatePath(id), false)
  {
    c := Call(Api, DELETE, EstimatePath(id), None, false);
  }
}
