// Request bodies built the way every service builds `$data`: a run of
// `$data[key] = $arg` steps, some unconditional and some guarded by
// `!is_null($arg)`, and the calls the services hand their bodies to.

module Bodies {
  import opened Values

  /**
   * One assignment step. `Always(k, a)` is an unconditional `$data[k] = $a`
   * (also an entry of the array literal `$data` starts from); `Optional(k, a)`
   * is `if (!is_null($a)) $data[k] = $a;`.
   */
  datatype Field = Always(key: string, arg: Value) | Optional(key: string, arg: Value)

  /** Whether the step writes its key. */
  predicate Sent(f: Field) {
    f.Always? || !f.arg.Null?
  }

  /** What a step leaves under its key when no later step writes it. */
  function Expected(f: Field): Option<Value> {
    if Sent(f) then Some(f.arg) else None
  }

  function Lookup(data: map<string, Value>, key: string): Option<Value> {
    if key in data then Some(data[key]) else None
  }

  /** The array the steps produce, performed in order from an empty array. */
  function Fill(fields: seq<Field>): map<string, Value> {
    if |fields| == 0 then map[]
    else
      var f := fields[|fields| - 1];
      var data := Fill(fields[..|fields| - 1]);
      if Sent(f) then data[f.key := f.arg] else data
  }

  /** Steps none of which writes leave the array empty. */
  lemma {:induction false} FillNone(fields: seq<Field>)
    requires forall i :: 0 <= i < |fields| ==> !Sent(fields[i])
    ensures Fill(fields) == map[]
    decreases |fields|
  {
    if |fields| > 0 {
      FillNone(fields[..|fields| - 1]);
    }
  }

  predicate DistinctKeys(fields: seq<Field>) {
    forall i, j :: 0 <= i < j < |fields| ==> fields[i].key != fields[j].key
  }

  /** The keys a schema writes, in order. */
  function KeysOf(fields: seq<Field>): (keys: seq<string>)
    ensures |keys| == |fields|
    ensures forall i :: 0 <= i < |fields| ==> keys[i] == fields[i].key
  {
    seq(|fields|, i requires 0 <= i < |fields| => fields[i].key)
  }

  lemma KeysAppend(a: seq<Field>, b: seq<Field>)
    ensures KeysOf(a + b) == KeysOf(a) + KeysOf(b)
  {
  }

  predicate DistinctStrings(keys: seq<string>) {
    forall i, j :: 0 <= i < j < |keys| ==> keys[i] != keys[j]
  }

  /** A schema whose keys are a list of distinct strings has distinct keys. */
  lemma KeysDistinct(fields: seq<Field>, keys: seq<string>)
    requires KeysOf(fields) == keys && DistinctStrings(keys)
    ensures DistinctKeys(fields)
  {
  }

  /**
   * `data` is exactly what the schema `fields` describes: every
   * unconditional key is present with its argument (null included), every
   * guarded key is present exactly when its argument is not null, and no
   * other key is present.
   */
  predicate Conforms(data: map<string, Value>, fields: seq<Field>) {
    && DistinctKeys(fields)
    && (forall i :: 0 <= i < |fields| ==> Lookup(data, fields[i].key) == Expected(fields[i]))
    && (forall k :: k in data ==> exists i :: 0 <= i < |fields| && fields[i].key == k)
  }

  /** Later steps win: a key takes the value of the last step that writes it. */
  lemma {:induction false} FillAppend(x: seq<Field>, y: seq<Field>, k: string)
    ensures Lookup(Fill(x + y), k) ==
      if Lookup(Fill(y), k).Some? then Lookup(Fill(y), k) else Lookup(Fill(x), k)
  {
    if |y| == 0 {
      assert x + y == x;
    } else {
      var y' := y[..|y| - 1];
      assert (x + y)[..|x + y| - 1] == x + y';
      FillAppend(x, y', k);
    }
  }

  /** A key the steps never mention is absent. */
  lemma {:induction false} FillUnmentioned(fields: seq<Field>, k: string)
    requires forall i :: 0 <= i < |fields| ==> fields[i].key != k
    ensures k !in Fill(fields)
  {
    if |fields| > 0 {
      FillUnmentioned(fields[..|fields| - 1], k);
    }
  }

  /** A key present in the result was written by one of the steps. */
  lemma {:induction false} FillMentioned(fields: seq<Field>, k: string)
    requires k in Fill(fields)
    ensures exists i :: 0 <= i < |fields| && fields[i].key == k && Sent(fields[i])
  {
    var n := |fields|;
    if fields[n - 1].key == k && Sent(fields[n - 1]) {
    } else {
      FillMentioned(fields[..n - 1], k);
      var i :| 0 <= i < n - 1 && fields[..n - 1][i].key == k && Sent(fields[..n - 1][i]);
      assert fields[i] == fields[..n - 1][i];
    }
  }

  /** With distinct keys, each step alone decides its key. */
  lemma {:induction false} FillDistinct(fields: seq<Field>, i: nat)
    requires DistinctKeys(fields)
    requires i < |fields|
    ensures Lookup(Fill(fields), fields[i].key) == Expected(fields[i])
  {
    var n := |fields|;
    var init := fields[..n - 1];
    assert DistinctKeys(init) by {
      forall a, b | 0 <= a < b < |init| ensures init[a].key != init[b].key {
        assert init[a] == fields[a] && init[b] == fields[b];
      }
    }
    if i == n - 1 {
      FillUnmentioned(init, fields[i].key);
    } else {
      assert init[i] == fields[i];
      FillDistinct(init, i);
    }
  }

  /** The steps of a schema with distinct keys produce a conforming array. */
  lemma FillConforms(fields: seq<Field>)
    requires DistinctKeys(fields)
    ensures Conforms(Fill(fields), fields)
  {
    forall i | 0 <= i < |fields|
      ensures Lookup(Fill(fields), fields[i].key) == Expected(fields[i])
    {
      FillDistinct(fields, i);
    }
    forall k | k in Fill(fields)
      ensures exists i :: 0 <= i < |fields| && fields[i].key == k
    {
      FillMentioned(fields, k);
    }
  }

  /** A schema pins the array down: two arrays conforming to it are equal. */
  lemma ConformsUnique(a: map<string, Value>, b: map<string, Value>, fields: seq<Field>)
    requires Conforms(a, fields) && Conforms(b, fields)
    ensures a == b
  {
    forall k | k in a || k in b
      ensures k in a && k in b && a[k] == b[k]
    {
      var i :| 0 <= i < |fields| && fields[i].key == k;
      assert Lookup(a, k) == Expected(fields[i]) == Lookup(b, k);
    }
  }

  /**
   * Two guarded steps on one key in a row act as one step on that key
   * carrying the later argument when it is not null and the earlier one
   * otherwise.
   */
  lemma Overwrite(p: seq<Field>, k: string, a: Value, b: Value, q: seq<Field>)
    ensures Fill(p + [Optional(k, a), Optional(k, b)] + q)
         == Fill(p + [Optional(k, if b.Null? then a else b)] + q)
  {
    var x := p + [Optional(k, a), Optional(k, b)] + q;
    var y := p + [Optional(k, if b.Null? then a else b)] + q;
    forall j | j in Fill(x) || j in Fill(y)
      ensures j in Fill(x) && j in Fill(y) && Fill(x)[j] == Fill(y)[j]
    {
      var two := [Optional(k, a), Optional(k, b)];
      var one := [Optional(k, if b.Null? then a else b)];
      assert x == (p + two) + q && y == (p + one) + q;
      FillAppend(p + two, q, j);
      FillAppend(p + one, q, j);
      FillAppend(p, two, j);
      FillAppend(p, one, j);
      assert two[..1] == [Optional(k, a)] && [Optional(k, a)][..0] == [];
      assert Lookup(Fill(two), j) == Lookup(Fill(one), j);
    }
  }

  /** Performs the steps one after another, as the services do. */
  method Build(fields: seq<Field>) returns (data: map<string, Value>)
    ensures data == Fill(fields)
    ensures DistinctKeys(fields) ==> Conforms(data, fields)
  {
    data := map[];
    var i := 0;
    while i < |fields|
      invariant 0 <= i <= |fields|
      invariant data == Fill(fields[..i])
    {
      assert fields[..i + 1][..i] == fields[..i];
      var f := fields[i];
      if f.Always? || !f.arg.Null? {
        data := data[f.key := f.arg];
      }
      i := i + 1;
    }
    assert fields[..i] == fields;
    if DistinctKeys(fields) {
      FillConforms(fields);
    }
  }

  datatype Verb = GET | POST | PATCH | DELETE

  /**
   * Who sends a call: the Gateway (`$this->api->get/post/patch/delete`), or
   * one of `httpGet`, `httpPost`, `httpPatch`, `httpDelete` and `patch`,
   * which services call on themselves but BaseService does not define.
   */
  datatype Sender = Api | Helper

  /**
   * A call a service method makes: the sender, the verb, the path relative
   * to the API base, the body (`None` when the method passes none) and
   * whether the service hands the response to `transformResult`.
   */
  datatype Call = Call(sender: Sender, verb: Verb, path: string, body: Option<map<string, Value>>, shaped: bool)

  /** A call whose body is exactly what `fields` describes. */
  predicate Sends(c: Call, sender: Sender, verb: Verb, path: string, fields: seq<Field>, shaped: bool) {
    && c.sender == sender && c.verb == verb && c.path == path && c.shaped == shaped
    && c.body.Some? && Conforms(c.body.value, fields)
  }

  /** A call that carries no body at all. */
  predicate SendsBare(c: Call, sender: Sender, verb: Verb, path: string, shaped: bool) {
    c == Call(sender, verb, path, None, shaped)
  }

  /** The call carrying the body the steps `fields` build. */
  function CallOf(sender: Sender, verb: Verb, path: string, fields: seq<Field>, shaped: bool): Call {
    Call(sender, verb, path, Some(Fill(fields)), shaped)
  }

  /** A schema with distinct keys leaves one call that sends it: the one its steps build. */
  lemma SendsOnly(c: Call, sender: Sender, verb: Verb, path: string, fields: seq<Field>, shaped: bool)
    requires Sends(c, sender, verb, path, fields, shaped)
    ensures c == CallOf(sender, verb, path, fields, shaped)
  {
    FillConforms(fields);
    ConformsUnique(c.body.value, Fill(fields), fields);
  }

  /** Builds the body described by `fields` and wraps it in a call. */
  method Send(sender: Sender, verb: Verb, path: string, fields: seq<Field>, shaped: bool) returns (c: Call)
    requires DistinctKeys(fields)
    ensures Sends(c, sender, verb, path, fields, shaped)
    ensures c == CallOf(sender, verb, path, fields, shaped)
  {
    var data := Build(fields);
    c := Call(sender, verb, path, Some(data), shaped);
  }

  /**
   * When only the step at `i` writes anything, the array is that one
   * entry.
   */
  lemma Lone(data: map<string, Value>, fields: seq<Field>, i: nat)
    requires Conforms(data, fields)
    requires i < |fields| && Sent(fields[i])
    requires forall j :: 0 <= j < |fields| && j != i ==> !Sent(fields[j])
    ensures data == map[fields[i].key := fields[i].arg]
  {
    forall k | k in data
      ensures k == fields[i].key
    {
      var j :| 0 <= j < |fields| && fields[j].key == k;
      assert Lookup(data, k) == Expected(fields[j]);
    }
    assert Lookup(data, fields[i].key) == Expected(fields[i]);
  }

  /** A single written step builds the one-entry array. */
  lemma FillSingle(f: Field)
    requires Sent(f)
    ensures Fill([f]) == map[f.key := f.arg]
  {
    assert [f][..0] == [];
  }

  /** The array `[$key => [$item]]`: a one-element list holding the item the steps `fields` build. */
  function Wrapped(key: string, fields: seq<Field>): map<string, Value> {
    map[key := List([Dict(Fill(fields))])]
  }

  /**
   * A call whose body holds the single key `key`, a list whose only
   * element is exactly what `fields` describes.
   */
  predicate SendsItem(c: Call, sender: Sender, verb: Verb, path: string, key: string, fields: seq<Field>,
                      shaped: bool) {
    && c.sender == sender && c.verb == verb && c.path == path && c.shaped == shaped
    && c.body.Some? && c.body.value.Keys == {key}
    && var v := c.body.value[key];
       v.List? && |v.elems| == 1 && v.elems[0].Dict? && Conforms(v.elems[0].entries, fields)
  }

  /** Builds the item described by `fields` step by step and sends it wrapped under `key`. */
  method SendItem(sender: Sender, verb: Verb, path: string, key: string, fields: seq<Field>, shaped: bool)
    returns (c: Call)
    requires DistinctKeys(fields)
    ensures SendsItem(c, sender, verb, path, key, fields, shaped)
    ensures c == Call(sender, verb, path, Some(Wrapped(key, fields)), shaped)
  {
    var item := Build(fields);
    c := Call(sender, verb, path, Some(map[key := List([Dict(item)])]), shaped);
  }
}
