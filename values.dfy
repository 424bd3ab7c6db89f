// PHP values as the client sees them: decoded JSON, call arguments and
// the objects the client builds out of them.

module Values {

  datatype Option<T> = None | Some(value: T)

  /** Why a PHP call ends by throwing instead of returning. */
  datatype Error =
    | MissingCredentials   // Exception thrown by the Gateway constructor
    | InvalidArgument      // InvalidArgumentException thrown by a getAll guard
    | TooFewArguments      // ArgumentCountError: a required positional parameter was not passed
    | UndefinedMethod      // Error: the service class has no such method

  datatype Outcome<T> = Returned(value: T) | Thrown(error: Error)

  /**
   * One PHP value. `Object` is a stdClass (decoded JSON object) or a model
   * instance, identified by its class name; `Coll` is a Laravel Collection;
   * `Date` is the Carbon instance built from `source` (parsing itself is not
   * interpreted: `Date(Null)` stands for the current time).
   */
  datatype Value =
    | Null
    | Bool(b: bool)
    | Int(i: int)
    | Num(r: real)
    | Str(s: string)
    | List(elems: seq<Value>)
    | Dict(entries: map<string, Value>)
    | Object(cls: string, props: map<string, Value>)
    | Coll(items: seq<Value>)
    | Date(source: Value)

  function DigitChar(d: nat): (c: char)
    requires d < 10
    ensures '0' <= c <= '9'
  {
    "0123456789"[d]
  }

  /** Decimal digits of a natural number, most significant first. */
  function Digits(n: nat): (s: string)
    ensures |s| >= 1
    ensures forall k :: 0 <= k < |s| ==> '0' <= s[k] <= '9'
    ensures n < 10 <==> |s| == 1
  {
    if n < 10 then [DigitChar(n)] else Digits(n / 10) + [DigitChar(n % 10)]
  }

  /** PHP's conversion of an integer to a string. */
  function IntText(i: int): (s: string)
    ensures |s| >= 1
  {
    if i < 0 then "-" + Digits(-i) else Digits(i)
  }

  /**
   * PHP's string conversion, as used by `.` when an id is appended to a
   * path or a token to "Bearer ". Floats, objects, collections and dates
   * are not converted by this model and give "".
   */
  function Text(v: Value): (s: string)
    ensures v.Null? ==> s == ""
    ensures v.Str? ==> s == v.s
    ensures v.Int? ==> s == IntText(v.i)
  {
    match v
    case Null => ""
    case Bool(b) => if b then "1" else ""
    case Int(i) => IntText(i)
    case Str(s) => s
    case List(_) => "Array"
    case Dict(_) => "Array"
    case _ => ""
  }

  lemma {:induction false} DigitsInjective(a: nat, b: nat)
    requires Digits(a) == Digits(b)
    ensures a == b
  {
    if a < 10 || b < 10 {
      assert |Digits(a)| == 1 && |Digits(b)| == 1;
      assert "0123456789"[a] == Digits(a)[0] == Digits(b)[0] == "0123456789"[b];
    } else {
      var da, db := Digits(a), Digits(b);
      assert da[..|da| - 1] == Digits(a / 10);
      assert db[..|db| - 1] == Digits(b / 10);
      DigitsInjective(a / 10, b / 10);
      assert "0123456789"[a % 10] == da[|da| - 1] == db[|db| - 1] == "0123456789"[b % 10];
    }
  }

  lemma SignChar(i: int)
    ensures (IntText(i)[0] == '-') == (i < 0)
  {
    if i >= 0 {
      assert '0' <= Digits(i)[0] <= '9';
    }
  }

  /** Distinct integers print differently, so distinct numeric ids give distinct paths. */
  lemma IntTextInjective(a: int, b: int)
    requires IntText(a) == IntText(b)
    ensures a == b
  {
    if a < 0 && b < 0 {
      assert IntText(a)[1..] == Digits(-a) && IntText(b)[1..] == Digits(-b);
      DigitsInjective(-a, -b);
    } else if a >= 0 && b >= 0 {
      DigitsInjective(a, b);
    } else {
      SignChar(a);
      SignChar(b);
      assert false;
    }
  }

  /** Appending distinct integer ids to one prefix gives distinct paths. */
  lemma PathsDistinct(prefix: string, a: int, b: int)
    requires a != b
    ensures prefix + Text(Int(a)) != prefix + Text(Int(b))
  {
    if prefix + IntText(a) == prefix + IntText(b) {
      assert (prefix + IntText(a))[|prefix|..] == IntText(a);
      assert (prefix + IntText(b))[|prefix|..] == IntText(b);
      IntTextInjective(a, b);
    }
  }

  /**
   * `collect($x)`: the items a Laravel Collection is made from. A list or
   * a collection gives its elements, null gives none and a scalar gives a
   * one-element collection. Collecting an object or an associative array
   * is not modelled (it keeps the keys, which a sequence cannot) and gives
   * no items here.
   */
  function Collect(v: Value): (items: seq<Value>)
    ensures v.Null? ==> items == []
    ensures v.List? ==> items == v.elems
    ensures v.Coll? ==> items == v.items
    ensures !v.Null? && !v.List? && !v.Coll? && !v.Dict? && !v.Object? ==> items == [v]
  {
    match v
    case Null => []
    case List(xs) => xs
    case Coll(xs) => xs
    case Dict(_) => []
    case Object(_, _) => []
    case _ => [v]
  }
}
