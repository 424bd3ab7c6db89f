// InvoiceService: listing, creating, updating and deleting invoices and
// their line items. Every call goes through `httpGet`, `httpPost`,
// `httpPatch` or `httpDelete`; none of the responses is handed to
// transformResult.

module InvoiceService {
  import opened Values
  import opened Bodies

  const Path := "invoices"

  /** `"invoices/" . $invoiceId`. */
  function InvoicePath(id: Value): string {
    Path + "/" + Text(id)
  }

  /** The body of `get`: each argument when not null. */
  function GetQuery(clientId: Value, projectId: Value, updatedSince: Value, page: Value, perPage: Value): seq<Field> {
    [Optional("client_id", clientId), Optional("project_id", projectId), Optional("updated_since", updatedSince),
     Optional("page", page), Optional("per_page", perPage)]
  }

  /** `get(...)`. */
  method Get(clientId: Value, projectId: Value, updatedSince: Value, page: Value, perPage: Value) returns (c: Call)
    ensures Sends(c, Helper, GET, Path, GetQuery(clientId, projectId, updatedSince, page, perPage), false)
  {
    c := Send(Helper, GET, Path, GetQuery(clientId, projectId, updatedSince, page, perPage), false);
  }

  /** `getById($invoiceId)`: `httpGet` with no data. */
  method GetById(id: Value) returns (c: Call)
    ensures SendsBare(c, Helper, GET, InvoicePath(id), false)
  {
    c := Call(Helper, GET, InvoicePath(id), None, false);
  }

  /** The thirteen settings `create` and `update` write when not null, in their order. */
  function Details(retainerId: Value, estimateId: Value, number: Value, purchaseOrder: Value, tax: Value,
                   tax2: Value, discount: Value, subject: Value, notes: Value, currency: Value,
                   issueDate: Value, dueDate: Value, lineItems: Value): seq<Field> {
    [Optional("retainer_id", retainerId), Optional("estimate_id", estimateId), Optional("number", number),
     Optional("purchase_order", purchaseOrder), Optional("tax", tax), Optional("tax2", tax2),
     Optional("discount", discount), Optional("subject", subject), Optional("notes", notes),
     Optional("currency", currency), Optional("issue_date", issueDate), Optional("due_date", dueDate),
     Optional("line_items", lineItems)]
  }

  /** The keys `create` and `update` write, in the order they write them. */
  const InvoiceKeys := ["client_id", "retainer_id", "estimate_id", "number", "purchase_order", "tax", "tax2",
                        "discount", "subject", "notes", "currency", "issue_date", "due_date", "line_items"]

  /** No key appears twice among them. */
  lemma InvoiceKeysDistinct()
    ensures DistinctStrings(InvoiceKeys)
  {
  }

  /** The details write the last thirteen of those keys. */
  lemma DetailsKeys(retainerId: Value, estimateId: Value, number: Value, purchaseOrder: Value, tax: Value,
                    tax2: Value, discount: Value, subject: Value, notes: Value, currency: Value,
                    issueDate: Value, dueDate: Value, lineItems: Value)
    ensures KeysOf(Details(retainerId, estimateId, number, purchaseOrder, tax, tax2, discount, subject, notes,
                           currency, issueDate, dueDate, lineItems)) == InvoiceKeys[1..]
  {
  }

  /** A client step followed by the details writes each key once. */
  lemma FieldsDistinct(client: Field, details: seq<Field>)
    requires client.key == "client_id" && KeysOf(details) == InvoiceKeys[1..]
    ensures DistinctKeys([client] + details)
  {
    KeysAppend([client], details);
    assert InvoiceKeys == [InvoiceKeys[0]] + InvoiceKeys[1..];
    InvoiceKeysDistinct();
    KeysDistinct([client] + details, InvoiceKeys);
  }

  /** The body of `create`: `client_id` always, the details when not null. */
  function CreateFields(clientId: Value, details: seq<Field>): seq<Field> {
    [Always("client_id", clientId)] + details
  }

  /** `create($clientId, ...)`. */
  method Create(clientId: Value, retainerId: Value, estimateId: Value, number: Value, purchaseOrder: Value,
                tax: Value, tax2: Value, discount: Value, subject: Value, notes: Value, currency: Value,
                issueDate: Value, dueDate: Value, lineItems: Value) returns (c: Call)
    ensures Sends(c, Helper, POST, Path,
                  CreateFields(clientId, Details(retainerId, estimateId, number, purchaseOrder, tax, tax2, discount,
                                                 subject, notes, currency, issueDate, dueDate, lineItems)), false)
  {
    var details := Details(retainerId, estimateId, number, purchaseOrder, tax, tax2, discount,
                           subject, notes, currency, issueDate, dueDate, lineItems);
    DetailsKeys(retainerId, estimateId, number, purchaseOrder, tax, tax2, discount,
                subject, notes, currency, issueDate, dueDate, lineItems);
    FieldsDistinct(Always("client_id", clientId), details);
    c := Send(Helper, POST, Path, CreateFields(clientId, details), false);
  }

  /** The body of `update`: `client_id` too only when not null, although it is a positional argument. */
  function UpdateFields(clientId: Value, details: seq<Field>): seq<Field> {
    [Optional("client_id", clientId)] + details
  }

  /** `update($invoiceId, $clientId, ...)`. */
  method Update(id: Value, clientId: Value, retainerId: Value, estimateId: Value, number: Value,
                purchaseOrder: Value, tax: Value, tax2: Value, discount: Value, subject: Value, notes: Value,
                currency: Value, issueDate: Value, dueDate: Value, lineItems: Value) returns (c: Call)
    ensures Sends(c, Helper, PATCH, InvoicePath(id),
                  UpdateFields(clientId, Details(retainerId, estimateId, number, purchaseOrder, tax, tax2, discount,
                                                 subject, notes, currency, issueDate, dueDate, lineItems)), false)
    ensures clientId.Null? ==> "client_id" !in c.body.value
  {
    var details := Details(retainerId, estimateId, number, purchaseOrder, tax, tax2, discount,
                           subject, notes, currency, issueDate, dueDate, lineItems);
    DetailsKeys(retainerId, estimateId, number, purchaseOrder, tax, tax2, discount,
                subject, notes, currency, issueDate, dueDate, lineItems);
    FieldsDistinct(Optional("client_id", clientId), details);
    c := Send(Helper, PATCH, InvoicePath(id), UpdateFields(clientId, details), false);
    assert Lookup(c.body.value, UpdateFields(clientId, details)[0].key) == Expected(UpdateFields(clientId, details)[0]);
  }

  /** The item `createLineItem` adds: `kind` and `unit_price` always, the others when not null. */
  function NewItemFields(kind: Value, unitPrice: Value, projectId: Value, description: Value, quantity: Value,
                         taxed: Value, taxed2: Value): seq<Field> {
    [Always("kind", kind), Always("unit_price", unitPrice), Optional("project_id", projectId),
     Optional("description", description), Optional("quantity", quantity), Optional("taxed", taxed),
     Optional("taxed2", taxed2)]
  }

  /** `createLineItem($invoiceId, $kind, $unitPrice, ...)`: POSTs `['line_items' => [$item]]` to the invoice. */
  method CreateLineItem(id: Value, kind: Value, unitPrice: Value, projectId: Value, description: Value,
                        quantity: Value, taxed: Value, taxed2: Value) returns (c: Call)
    ensures SendsItem(c, Helper, POST, InvoicePath(id), "line_items",
                      NewItemFields(kind, unitPrice, projectId, description, quantity, taxed, taxed2), false)
  {
    c := SendItem(Helper, POST, InvoicePath(id), "line_items",
                  NewItemFields(kind, unitPrice, projectId, description, quantity, taxed, taxed2), false);
  }

  /** The item `updateLineItem` changes: `id` always, the others when not null. */
  function ChangedItemFields(lineItemId: Value, kind: Value, unitPrice: Value, projectId: Value,
                             description: Value, quantity: Value, taxed: Value, taxed2: Value): seq<Field> {
    [Always("id", lineItemId), Optional("kind", kind), Optional("unit_price", unitPrice),
     Optional("project_id", projectId), Optional("description", description), Optional("quantity", quantity),
     Optional("taxed", taxed), Optional("taxed2", taxed2)]
  }

  /** `updateLineItem($invoiceId, $lineItemId, ...)`: PATCHes `['line_items' => [$item]]` to the invoice. */
  method UpdateLineItem(id: Value, lineItemId: Value, kind: Value, unitPrice: Value, projectId: Value,
                        description: Value, quantity: Value, taxed: Value, taxed2: Value) returns (c: Call)
    ensures SendsItem(c, Helper, PATCH, InvoicePath(id), "line_items",
                      ChangedItemFields(lineItemId, kind, unitPrice, projectId, description, quantity, taxed, taxed2),
                      false)
  {
    c := SendItem(Helper, PATCH, InvoicePath(id), "line_items",
                  ChangedItemFields(lineItemId, kind, unitPrice, projectId, description, quantity, taxed, taxed2),
                  false);
  }

  /** The item `deleteLineItem` sends: the id and the `_destroy` flag. */
  function DestroyFields(lineItemId: Value): seq<Field> {
    [Always("id", lineItemId), Always("_destroy", Bool(true))]
  }

  /** `deleteLineItem($invoiceId, $lineItemId)`: PATCHes `['line_items' => [['id' => ..., '_destroy' => true]]]`. */
  method DeleteLineItem(id: Value, lineItemId: Value) returns (c: Call)
    ensures SendsItem(c, Helper, PATCH, InvoicePath(id), "line_items", DestroyFields(lineItemId), false)
    ensures c.body == Some(map["line_items" := List([Dict(map["id" := lineItemId, "_destroy" := Bool(true)])])])
  {
    c := SendItem(Helper, PATCH, InvoicePath(id), "line_items", DestroyFields(lineItemId), false);
    var f := DestroyFields(lineItemId);
    assert f[..1] == [f[0]] && f[..1][..0] == [];
    assert Fill(f[..1]) == map["id" := lineItemId];
    assert Fill(f) == map["id" := lineItemId, "_destroy" := Bool(true)];
  }

  /** `delete($invoiceId)`: `httpDelete`. */
  method Delete(id: Value) returns (c: Call)
    ensures SendsBare(c, Helper, DELETE, InvoicePath(id), false)
  {
    c := Call(Helper, DELETE, InvoicePath(id), None, false);
  }
}
