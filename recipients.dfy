// EstimateMessageRecipient: a name and an e-mail address, stored as given
// and turned into the array an estimate message lists its recipients in.

module EstimateMessageRecipient {
  import opened Values

  /** `new EstimateMessageRecipient($name, $email)`: both kept unchecked. */
  datatype Recipient = Recipient(name: Value, email: Value)

  /** `toArray()`: exactly the keys `name` and `email`, holding what the constructor was given. */
  function ToArray(r: Recipient): (a: map<string, Value>)
    ensures a.Keys == {"name", "email"}
    ensures a["name"] == r.name && a["email"] == r.email
  {
    map["name" := r.name, "email" := r.email]
  }

  /** The recipient an array of that shape describes. */
  function FromArray(a: map<string, Value>): Recipient
    requires "name" in a && "email" in a
  {
    Recipient(a["name"], a["email"])
  }

  /** Nothing is lost: the array gives the recipient back. */
  lemma ArrayRoundTrip(r: Recipient)
    ensures FromArray(ToArray(r)) == r
  {
  }

  /** The `array_map` in EstimateMessageService `create`: each recipient's array, in order. */
  function Arrays(rs: seq<Recipient>): (v: Value)
    ensures v.List? && |v.elems| == |rs|
    ensures forall i :: 0 <= i < |rs| ==> v.elems[i] == Dict(ToArray(rs[i]))
  {
    List(seq(|rs|, i requires 0 <= i < |rs| => Dict(ToArray(rs[i]))))
  }

  /** Different recipient lists give different arrays: order and length are kept. */
  lemma ArraysInjective(rs: seq<Recipient>, ts: seq<Recipient>)
    requires Arrays(rs) == Arrays(ts)
    ensures rs == ts
  {
    forall i | 0 <= i < |rs|
      ensures rs[i] == ts[i]
    {
      ArrayRoundTrip(rs[i]);
      ArrayRoundTrip(ts[i]);
      assert Dict(ToArray(rs[i])) == Arrays(rs).elems[i] == Arrays(ts).elems[i] == Dict(ToArray(ts[i]));
    }
  }
}
