// InvoicePaymentService: listing, recording and deleting the payments of
// an invoice. Calls go through the Gateway; `get` hands the response to
// transformResult.

module InvoicePaymentService {
  import opened Values
  import opened Bodies

  /** `"invoices/" . $invoiceId . "/payments"`. */
  function PaymentsPath(invoiceId: Value): string {
    "invoices/" + Text(invoiceId) + "/payments"
  }

  /** The body of `get`: each argument when not null. */
  function GetQuery(updatedSince: Value, page: Value, perPage: Value): seq<Field> {
    [Optional("updated_since", updatedSince), Optional("page", page), Optional("per_page", perPage)]
  }

  /** `get($invoiceId, ...)`. */
  method Get(invoiceId: Value, updatedSince: Value, page: Value, perPage: Value) returns (c: Call)
    ensures Sends(c, Api, GET, PaymentsPath(invoiceId), GetQuery(updatedSince, page, perPage), true)
  {
    c := Send(Api, GET, PaymentsPath(invoiceId), GetQuery(updatedSince, page, perPage), true);
  }

  /** The body of `create`: `amount` always, the others when not null. */
  function CreateFields(amount: Value, paidAt: Value, notes: Value): seq<Field> {
    [Always("amount", amount), Optional("paid_at", paidAt), Optional("notes", notes)]
  }

  /** `create($invoiceId, $amount, $paidAt, $notes)`. */
  method Create(invoiceId: Value, amount: Value, paidAt: Value, notes: Value) returns (c: Call)
    ensures Sends(c, Api, POST, PaymentsPath(invoiceId), CreateFields(amount, paidAt, notes), false)
  {
    c := Send(Api, POST, PaymentsPath(invoiceId), CreateFields(amount, paidAt, notes), false);
  }

  /** `delete($invoiceId, $paymentId)`. */
  method Delete(invoiceId: Value, paymentId: Value) returns (c: Call)
    ensures SendsBare(c, Api, DELETE, PaymentsPath(invoiceId) + "/" + Text(paymentId), false)
  {
    c := Call(Api, DELETE, PaymentsPath(invoiceId) + "/" + Text(paymentId), None, false);
  }
}
