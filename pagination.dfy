// Objects/PaginatedCollection: the object a paginated response becomes,
// which remembers its service and asks it for neighbouring pages.

module Pagination {
  import opened Values
  import opened Services

  /** `$service->getPage($page, $perPage)`: the call every navigation method ends in. */
  datatype PageRequest = PageRequest(service: Service, page: Value, perPage: Value)

  /** Reading a property: its value, or null when the property does not exist. */
  function Prop(props: map<string, Value>, key: string): Value {
    if key in props then props[key] else Null
  }

  /** The public properties the class declares, all null until assigned. */
  const Declared: map<string, Value> := map[
    "path" := Null, "next_page" := Null, "per_page" := Null,
    "previous_page" := Null, "first_page" := Null, "last_page" := Null]

  /** The public properties once the constructor has copied `data`. */
  function Copied(data: map<string, Value>): map<string, Value> {
    Declared["path" := Prop(data, "path")] + data
  }

  /** The properties once every key of `data` outside `todo` has been copied over `start`. */
  function CopiedSoFar(start: map<string, Value>, data: map<string, Value>, todo: set<string>): map<string, Value> {
    start + (data - todo)
  }

  lemma CopyStart(start: map<string, Value>, data: map<string, Value>)
    ensures CopiedSoFar(start, data, data.Keys) == start
  {
  }

  lemma CopyStep(start: map<string, Value>, data: map<string, Value>, todo: set<string>, k: string)
    requires k in todo && k in data
    ensures CopiedSoFar(start, data, todo - {k}) == CopiedSoFar(start, data, todo)[k := data[k]]
  {
  }

  lemma CopyEnd(start: map<string, Value>, data: map<string, Value>)
    ensures CopiedSoFar(start, data, {}) == start + data
  {
    assert data - {} == data;
  }

  /** The constructor's `foreach ($data as $key => $val) $this->$key = $val;` over the properties `start`. */
  method CopyOnto(start: map<string, Value>, data: map<string, Value>) returns (copy: map<string, Value>)
    ensures copy == start + data
  {
    copy := start;
    var todo := data.Keys;
    CopyStart(start, data);
    while todo != {}
      invariant todo <= data.Keys
      invariant copy == CopiedSoFar(start, data, todo)
      decreases |todo|
    {
      var k :| k in todo;
      CopyStep(start, data, todo, k);
      copy := copy[k := data[k]];
      todo := todo - {k};
    }
    CopyEnd(start, data);
  }

  class PaginatedCollection {
    /** The private `$service`. */
    var service: Service
    /** The public properties, declared and dynamic. */
    var props: map<string, Value>

    /**
     * `new PaginatedCollection($data)`: takes `path` and the service, then
     * copies every property of `data` onto itself. The service travels
     * beside `data` here rather than inside it.
     */
    constructor (data: map<string, Value>, service: Service)
      ensures this.service == service
      ensures props == Copied(data)
    {
      var copy := CopyOnto(Declared["path" := Prop(data, "path")], data);
      this.service := service;
      props := copy;
    }

    /** `getCollection()`: the property named by `path`. */
    function Collection(): Value
      reads this
    {
      Prop(props, Text(Prop(props, "path")))
    }

    /** `getPage($page, $perPage)`. */
    function GetPage(page: Value, perPage: Value): PageRequest
      reads this
    {
      PageRequest(service, page, perPage)
    }

    /** `getNextPage()`. */
    function NextPage(): PageRequest
      reads this
    {
      GetPage(Prop(props, "next_page"), Prop(props, "per_page"))
    }

    /** `getPreviousPage()`. */
    function PreviousPage(): PageRequest
      reads this
    {
      GetPage(Prop(props, "previous_page"), Prop(props, "per_page"))
    }

    /** `getFirstPage()`. */
    function FirstPage(): PageRequest
      reads this
    {
      GetPage(Prop(props, "first_page"), Prop(props, "per_page"))
    }

    /** `getLastPage()`, which calls the service directly. */
    function LastPage(): PageRequest
      reads this
    {
      PageRequest(service, Prop(props, "last_page"), Prop(props, "per_page"))
    }
  }

  /**
   * What a collection built from `data` holds: every property of `data`
   * under its own name, and each declared property that `data` lacks as
   * null.
   */
  lemma CopiedProps(data: map<string, Value>, k: string)
    ensures k in data ==> Prop(Copied(data), k) == data[k]
    ensures k !in data ==> Prop(Copied(data), k) == Null
    ensures Copied(data).Keys == data.Keys + Declared.Keys
  {
  }

  /**
   * Navigation from a collection built from `data` asks the same service
   * for the pages `data` names, at the page size `data` reports; the
   * direct call of getLastPage asks for the same thing getPage would.
   */
  lemma Navigation(c: PaginatedCollection, data: map<string, Value>)
    requires c.props == Copied(data)
    ensures c.NextPage() == PageRequest(c.service, Prop(data, "next_page"), Prop(data, "per_page"))
    ensures c.PreviousPage() == PageRequest(c.service, Prop(data, "previous_page"), Prop(data, "per_page"))
    ensures c.FirstPage() == PageRequest(c.service, Prop(data, "first_page"), Prop(data, "per_page"))
    ensures c.LastPage() == c.GetPage(Prop(data, "last_page"), Prop(data, "per_page"))
  {
    CopiedProps(data, "next_page");
    CopiedProps(data, "previous_page");
    CopiedProps(data, "first_page");
    CopiedProps(data, "last_page");
    CopiedProps(data, "per_page");
  }

  /** The collection a collection built from `data` returns is `data`'s property named by its `path`. */
  lemma CollectionOf(c: PaginatedCollection, data: map<string, Value>)
    requires c.props == Copied(data)
    requires "path" in data
    ensures c.Collection() == Prop(data, Text(data["path"]))
  {
    CopiedProps(data, "path");
    CopiedProps(data, Text(data["path"]));
  }
}
