// InvoiceMessageService: listing, sending and deleting the messages of an
// invoice, and the four calls that move an invoice between states by
// posting a bare event. Calls go through the Gateway; no response is
// handed to transformResult.

module InvoiceMessageService {
  import opened Values
  import opened Bodies

  /** `"invoices/" . $invoiceId . "/messages"`. */
  function MessagesPath(invoiceId: Value): string {
    "invoices/" + Text(invoiceId) + "/messages"
  }

  /** The body of `get`: each argument when not null. */
  function GetQuery(updatedSince: Value, page: Value, perPage: Value): seq<Field> {
    [Optional("updated_since", updatedSince), Optional("page", page), Optional("per_page", perPage)]
  }

  /** `get($invoiceId, ...)`. */
  method Get(invoiceId: Value, updatedSince: Value, page: Value, perPage: Value) returns (c: Call)
    ensures Sends(c, Api, GET, MessagesPath(invoiceId), GetQuery(updatedSince, page, perPage), false)
  {
    c := Send(Api, GET, MessagesPath(invoiceId), GetQuery(updatedSince, page, perPage), false);
  }

  /** The body of `create`: the recipients as given, always; the others when not null. */
  function CreateFields(recipients: Value, subject: Value, body: Value, includeLinkToClientInvoice: Value,
                        attachPdf: Value, sendMeACopy: Value, thankYou: Value, eventType: Value): seq<Field> {
    [Always("recipients", recipients), Optional("subject", subject), Optional("body", body),
     Optional("include_link_to_client_invoice", includeLinkToClientInvoice), Optional("attach_pdf", attachPdf),
     Optional("send_me_a_copy", sendMeACopy), Optional("thank_you", thankYou), Optional("event_type", eventType)]
  }

  /** `create($invoiceId, $recipients, ...)`. */
  method Create(invoiceId: Value, recipients: Value, subject: Value, body: Value, includeLinkToClientInvoice: Value,
                attachPdf: Value, sendMeACopy: Value, thankYou: Value, eventType: Value) returns (c: Call)
    ensures Sends(c, Api, POST, MessagesPath(invoiceId),
                  CreateFields(recipients, subject, body, includeLinkToClientInvoice, attachPdf, sendMeACopy,
                               thankYou, eventType), false)
    ensures Lookup(c.body.value, "recipients") == Some(recipients)
  {
    var fields := CreateFields(recipients, subject, body, includeLinkToClientInvoice, attachPdf, sendMeACopy,
                               thankYou, eventType);
    c := Send(Api, POST, MessagesPath(invoiceId), fields, false);
    assert Lookup(c.body.value, fields[0].key) == Expected(fields[0]);
  }

  /** `delete($invoiceId, $messageId)`. */
  method Delete(invoiceId: Value, messageId: Value) returns (c: Call)
    ensures SendsBare(c, Api, DELETE, MessagesPath(invoiceId) + "/" + Text(messageId), false)
  {
    c := Call(Api, DELETE, MessagesPath(invoiceId) + "/" + Text(messageId), None, false);
  }

  /** The body of the four state changes: the event alone. */
  function EventFields(eventType: string): seq<Field> {
    [Always("event_type", Str(eventType))]
  }

  /** `markDraftInvoiceAsSent($invoiceId)`. */
  method MarkDraftInvoiceAsSent(invoiceId: Value) returns (c: Call)
    ensures Sends(c, Api, POST, MessagesPath(invoiceId), EventFields("send"), false)
    ensures c.body == Some(map["event_type" := Str("send")])
  {
    c := Send(Api, POST, MessagesPath(invoiceId), EventFields("send"), false);
  }

  /** `markOpenInvoiceAsClosed($invoiceId)`. */
  method MarkOpenInvoiceAsClosed(invoiceId: Value) returns (c: Call)
    ensures Sends(c, Api, POST, MessagesPath(invoiceId), EventFields("close"), false)
    ensures c.body == Some(map["event_type" := Str("close")])
  {
    c := Send(Api, POST, MessagesPath(invoiceId), EventFields("close"), false);
  }

  /** `reopenClosedInvoice($invoiceId)`. */
  method ReopenClosedInvoice(invoiceId: Value) returns (c: Call)
    ensures Sends(c, Api, POST, MessagesPath(invoiceId), EventFields("re-open"), false)
    ensures c.body == Some(map["event_type" := Str("re-open")])
  {
    c := Send(Api, POST, MessagesPath(invoiceId), EventFields("re-open"), false);
  }

  /** `markOpenInvoiceAsDraft($invoiceId)`. */
  method MarkOpenInvoiceAsDraft(invoiceId: Value) returns (c: Call)
    ensures Sends(c, Api, POST, MessagesPath(invoiceId), EventFields("draft"), false)
    ensures c.body == Some(map["event_type" := Str("draft")])
  {
    c := Send(Api, POST, MessagesPath(invoiceId), EventFields("draft"), false);
  }
}
