// Hydration: how a model (Models/Base) or a plain object
// (Objects/BaseObject) copies a decoded record onto itself, turning date
// fields into Carbon instances.

module Hydration {
  import opened Values

  /** The fields a model parses as dates (`Base::$carbonParseable`). */
  const DateFields: set<string> := {
    "accepted_at", "closed_at", "created_at", "declined_at", "due_date",
    "ends_on", "issue_date", "over_budget_notification_date", "paid_at",
    "period_end", "period_start", "sent_at", "spent_date", "starts_on",
    "timer_started_at", "updated_at"
  }

  /** The two fields a plain object parses as dates (the `switch` of `BaseObject::processValue`). */
  const ObjectDateFields: set<string> := {"created_at", "updated_at"}

  /** Which `processValue` runs: the model's (Models/Base) or the plain object's (Objects/BaseObject). */
  datatype Kind = Model | PlainObject

  /** `processValue($key, $value)`: the value stored under `key`. */
  function Process(kind: Kind, key: string, value: Value): Value {
    match kind
    case Model => if key in DateFields && !value.Null? then Date(value) else value
    case PlainObject => if key in ObjectDateFields then Date(value) else value
  }

  /**
   * The key/value pairs `foreach ($data as $key => $value)` visits: an
   * array's entries or an object's properties (a decoded record is one or
   * the other); anything else yields none.
   */
  function Members(data: Value): map<string, Value> {
    match data
    case Dict(entries) => entries
    case Object(_, props) => props
    case _ => map[]
  }

  /**
   * The properties a fresh instance has after `hydrate($data)`: the raw
   * input under `original_data`, then every member of the input, processed,
   * under its own key (so a member named `original_data` replaces the raw
   * input).
   */
  function Hydrated(kind: Kind, data: Value): map<string, Value> {
    var members := Members(data);
    map k | k in members.Keys + {"original_data"} ::
      if k in members then Process(kind, k, members[k]) else data
  }

  /** The properties after `original_data` and the members in `done` have been assigned. */
  function HydratedSoFar(kind: Kind, data: Value, done: set<string>): map<string, Value>
    requires done <= Members(data).Keys
  {
    map k | k in done + {"original_data"} ::
      if k in done then Process(kind, k, Members(data)[k]) else data
  }

  lemma SoFarStart(kind: Kind, data: Value)
    ensures HydratedSoFar(kind, data, {}) == map["original_data" := data]
  {
  }

  lemma SoFarStep(kind: Kind, data: Value, done: set<string>, k: string)
    requires done <= Members(data).Keys && k in Members(data) && k !in done
    ensures HydratedSoFar(kind, data, done + {k})
         == HydratedSoFar(kind, data, done)[k := Process(kind, k, Members(data)[k])]
  {
  }

  lemma SoFarEnd(kind: Kind, data: Value)
    ensures HydratedSoFar(kind, data, Members(data).Keys) == Hydrated(kind, data)
  {
  }

  /** `new $class($data)`: an instance of `cls` whose constructor hydrates it from `data`. */
  method Hydrate(kind: Kind, cls: string, data: Value) returns (instance: Value)
    ensures instance.Object? && instance.cls == cls
    ensures instance.props == Hydrated(kind, data)
  {
    var members := Members(data);
    var props := map["original_data" := data];
    var todo := members.Keys;
    ghost var done: set<string> := {};
    SoFarStart(kind, data);
    while todo != {}
      invariant todo <= members.Keys && done == members.Keys - todo
      invariant props == HydratedSoFar(kind, data, done)
      decreases |todo|
    {
      var k :| k in todo;
      SoFarStep(kind, data, done, k);
      props := props[k := Process(kind, k, members[k])];
      todo := todo - {k};
      done := done + {k};
    }
    SoFarEnd(kind, data);
    instance := Object(cls, props);
  }

  /** Every member of the input becomes a property, and so does `original_data`. */
  lemma HydratedKeys(kind: Kind, data: Value)
    ensures Hydrated(kind, data).Keys == Members(data).Keys + {"original_data"}
  {
  }

  /** The raw input is kept under `original_data` unless the input has a member of that name. */
  lemma KeepsOriginal(kind: Kind, data: Value)
    ensures "original_data" !in Members(data) ==> Hydrated(kind, data)["original_data"] == data
    ensures "original_data" in Members(data) ==>
      Hydrated(kind, data)["original_data"] == Members(data)["original_data"]
  {
  }

  /**
   * On a model, a date field with a value becomes a date built from it, a
   * null date field stays null and every other member is copied unchanged.
   */
  lemma ModelFields(data: Value, k: string)
    requires k in Members(data) && k != "original_data"
    ensures k in DateFields && !Members(data)[k].Null? ==> Hydrated(Model, data)[k] == Date(Members(data)[k])
    ensures k in DateFields && Members(data)[k].Null? ==> Hydrated(Model, data)[k] == Null
    ensures k !in DateFields ==> Hydrated(Model, data)[k] == Members(data)[k]
  {
  }

  /**
   * On a plain object, `created_at` and `updated_at` always become dates,
   * null included (Carbon then reads the current time), and every other
   * member, date-like or not, is copied unchanged.
   */
  lemma PlainObjectFields(data: Value, k: string)
    requires k in Members(data)
    ensures k in ObjectDateFields ==> Hydrated(PlainObject, data)[k] == Date(Members(data)[k])
    ensures k !in ObjectDateFields ==> Hydrated(PlainObject, data)[k] == Members(data)[k]
  {
  }

  /**
   * The two processValue variants disagree exactly on a null `created_at`
   * or `updated_at` (the object builds a date, the model keeps null) and on
   * a non-null value of the other fourteen date fields (the model parses
   * it, the object does not).
   */
  lemma ModelVersusObject(key: string, value: Value)
    ensures Process(Model, key, value) != Process(PlainObject, key, value) <==>
      (key in ObjectDateFields && value.Null?) ||
      (key in DateFields - ObjectDateFields && !value.Null?)
  {
    assert Date(value) != value by {
      assert value < Date(value);
    }
  }
}
