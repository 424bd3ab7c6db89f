// EstimateMessageService: listing, sending and deleting the messages of an
// estimate, and the four calls that move an estimate between states. Every
// call goes through `httpGet`, `httpPost` or `httpDelete`; no response is
// handed to transformResult.

module EstimateMessageService {
  import opened Values
  import opened Bodies
  import opened EstimateMessageRecipient

  /** `"estimates/" . $estimateId . "/messages"`. */
  function MessagesPath(estimateId: Value): string {
    "estimates/" + Text(estimateId) + "/messages"
  }

  /** The body of `get`: each argument when not null. */
  function GetQuery(updatedSince: Value, page: Value, perPage: Value): seq<Field> {
    [Optional("updated_since", updatedSince), Optional("page", page), Optional("per_page", perPage)]
  }

  /** `get($estimateId, ...)`. */
  method Get(estimateId: Value, updatedSince: Value, page: Value, perPage: Value) returns (c: Call)
    ensures Sends(c, Helper, GET, MessagesPath(estimateId), GetQuery(updatedSince, page, perPage), false)
  {
    c := Send(Helper, GET, MessagesPath(estimateId), GetQuery(updatedSince, page, perPage), false);
  }

  /** The body of `create`: the recipients' arrays always, the others when not null. */
  function CreateFields(recipients: seq<Recipient>, subject: Value, body: Value, sendMeACopy: Value,
                        eventType: Value): seq<Field> {
    [Always("recipients", Arrays(recipients)), Optional("subject", subject), Optional("body", body),
     Optional("send_me_a_copy", sendMeACopy), Optional("event_type", eventType)]
  }

  /** `create($estimateId, $recipients, ...)`: one array per recipient, in the order given. */
  method Create(estimateId: Value, recipients: seq<Recipient>, subject: Value, body: Value, sendMeACopy: Value,
                eventType: Value) returns (c: Call)
    ensures Sends(c, Helper, POST, MessagesPath(estimateId),
                  CreateFields(recipients, subject, body, sendMeACopy, eventType), false)
    ensures "recipients" in c.body.value
    ensures var v := c.body.value["recipients"];
            v.List? && |v.elems| == |recipients|
            && forall i :: 0 <= i < |recipients| ==> v.elems[i] == Dict(ToArray(recipients[i]))
  {
    var fields := CreateFields(recipients, subject, body, sendMeACopy, eventType);
    c := Send(Helper, POST, MessagesPath(estimateId), fields, false);
    assert Lookup(c.body.value, fields[0].key) == Expected(fields[0]);
  }

  /** `delete($estimateId, $messageId)`. */
  method Delete(estimateId: Value, messageId: Value) returns (c: Call)
    ensures SendsBare(c, Helper, DELETE, MessagesPath(estimateId) + "/" + Text(messageId), false)
  {
    c := Call(Helper, DELETE, MessagesPath(estimateId) + "/" + Text(messageId), None, false);
  }

  /** `updateEstimateMessage($estimateId, $eventType)`: posts the event alone. */
  method UpdateEstimateMessage(estimateId: Value, eventType: Value) returns (c: Call)
    ensures Sends(c, Helper, POST, MessagesPath(estimateId), [Always("event_type", eventType)], false)
    ensures c.body == Some(map["event_type" := eventType])
  {
    c := Send(Helper, POST, MessagesPath(estimateId), [Always("event_type", eventType)], false);
    FillSingle(Always("event_type", eventType));
  }

  /** `markDraftEstimateAsSent($estimateId)`. */
  method MarkDraftEstimateAsSent(estimateId: Value) returns (c: Call)
    ensures c == Call(Helper, POST, MessagesPath(estimateId), Some(map["event_type" := Str("send")]), false)
  {
    c := UpdateEstimateMessage(estimateId, Str("send"));
  }

  /** `markOpenEstimateAsAccepted($estimateId)`. */
  method MarkOpenEstimateAsAccepted(estimateId: Value) returns (c: Call)
    ensures c == Call(Helper, POST, MessagesPath(estimateId), Some(map["event_type" := Str("accept")]), false)
  {
    c := UpdateEstimateMessage(estimateId, Str("accept"));
  }

  /** `markOpenEstimateAsDeclined($estimateId)`. */
  method MarkOpenEstimateAsDeclined(estimateId: Value) returns (c: Call)
    ensures c == Call(Helper, POST, MessagesPath(estimateId), Some(map["event_type" := Str("decline")]), false)
  {
    c := UpdateEstimateMessage(estimateId, Str("decline"));
  }

  /** `reopenClosedEstimate($estimateId)`. */
  method ReopenClosedEstimate(estimateId: Value) returns (c: Call)
    ensures c == Call(Helper, POST, MessagesPath(estimateId), Some(map["event_type" := Str("re-open")]), false)
  {
    c := UpdateEstimateMessage(estimateId, Str("re-open"));
  }
}
