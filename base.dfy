// BaseService: turning responses into models, and the generic getAll,
// getLastPage and getLastItem every listing service inherits.

module BaseService {
  import opened Values
  import opened Bodies
  import opened Paging
  import opened Hydration
  import opened Services
  import opened Pagination

  /** The model `mapToModel($item)` builds: an instance of the service's model class hydrated from the item. */
  function ModelOf(svc: Service, item: Value): Value {
    Object(ModelClassOf(svc), Hydrated(Model, item))
  }

  /** `mapToModel` over a sequence of items, in order. */
  function ModelsOf(svc: Service, items: seq<Value>): (models: seq<Value>)
    ensures |models| == |items|
    ensures forall i :: 0 <= i < |items| ==> models[i] == ModelOf(svc, items[i])
  {
    seq(|items|, i requires 0 <= i < |items| => ModelOf(svc, items[i]))
  }

  /** `mapToModel($result)`: `new $class($result)`. */
  method MapToModel(svc: Service, result: Value) returns (model: Value)
    ensures model.Object? && model.cls == ModelClassOf(svc)
    ensures model.props == Hydrated(Model, result)
  {
    model := Hydrate(Model, ModelClassOf(svc), result);
  }

  /** `$collection->map(fn ($item) => $this->mapToModel($item))`. */
  method MapEach(svc: Service, items: seq<Value>) returns (models: seq<Value>)
    ensures models == ModelsOf(svc, items)
  {
    models := [];
    var i := 0;
    while i < |items|
      invariant 0 <= i <= |items|
      invariant models == ModelsOf(svc, items[..i])
    {
      var m := MapToModel(svc, items[i]);
      assert items[..i + 1] == items[..i] + [items[i]];
      models := models + [m];
      i := i + 1;
    }
    assert items[..i] == items;
  }

  /** `isset($result->total_entries)`: the response is a paginated envelope. */
  predicate IsPaginated(result: Value) {
    result.Object? && "total_entries" in result.props && !result.props["total_entries"].Null?
  }

  /**
   * The envelope's properties after transformResult rewrites them: the
   * items under the service's path become models, and `path` records the
   * path.
   */
  function Envelope(svc: Service, props: map<string, Value>): map<string, Value> {
    var key := Text(PathOf(svc));
    props[key := Coll(ModelsOf(svc, Collect(Prop(props, key))))]["path" := PathOf(svc)]
  }

  /** What transformResult returns: a paginated collection, or a plain value. */
  datatype Transformed = Paginated(collection: PaginatedCollection) | Plain(value: Value)

  /** `transformResult($result)`. */
  method TransformResult(svc: Service, result: Value) returns (r: Transformed)
    ensures IsPaginated(result) ==>
      r.Paginated? && fresh(r.collection) && r.collection.service == svc
      && r.collection.props == Copied(Envelope(svc, result.props))
    ensures !IsPaginated(result) && result.Coll? ==> r == Plain(Coll(ModelsOf(svc, result.items)))
    ensures !IsPaginated(result) && !result.Coll? ==> r == Plain(ModelOf(svc, result))
  {
    var path := PathOf(svc);
    if IsPaginated(result) {
      var props := result.props;
      var key := Text(path);
      var models := MapEach(svc, Collect(Prop(props, key)));
      props := props[key := Coll(models)];
      props := props["path" := path];
      var c := new PaginatedCollection(props, svc);
      r := Paginated(c);
    } else if result.Coll? {
      var models := MapEach(svc, result.items);
      r := Plain(Coll(models));
    } else {
      var model := MapToModel(svc, result);
      r := Plain(model);
    }
  }

  /**
   * A paginated result keeps every property of the envelope except the
   * items, which it holds as models in the same order, and it records the
   * service's path (for the eight services that declare one).
   */
  lemma EnvelopeContents(svc: Service, props: map<string, Value>, k: string)
    requires PathOf(svc).Str?
    ensures Prop(Envelope(svc, props), "path") == PathOf(svc)
    ensures Prop(Envelope(svc, props), PathOf(svc).s)
         == Coll(ModelsOf(svc, Collect(Prop(props, PathOf(svc).s))))
    ensures k != "path" && k != PathOf(svc).s ==> Prop(Envelope(svc, props), k) == Prop(props, k)
  {
    assert PathOf(svc).s != "path";
  }

  /**
   * The collection of a paginated result lists the envelope's items as
   * models, one per item, in order.
   */
  lemma PaginatedItems(svc: Service, c: PaginatedCollection, props: map<string, Value>)
    requires PathOf(svc).Str?
    requires c.props == Copied(Envelope(svc, props))
    ensures c.Collection().Coll?
    ensures |c.Collection().items| == |Collect(Prop(props, PathOf(svc).s))|
    ensures forall i :: 0 <= i < |c.Collection().items| ==>
      c.Collection().items[i] == ModelOf(svc, Collect(Prop(props, PathOf(svc).s))[i])
  {
    EnvelopeContents(svc, props, "path");
    CollectionOf(c, Envelope(svc, props));
  }

  // ---- getAll, getLastPage, getLastItem ----------------------------------

  /** `mapToModel` over a merged list is `mapToModel` over each part, merged. */
  lemma ModelsOfAppend(svc: Service, a: seq<Value>, b: seq<Value>)
    ensures ModelsOf(svc, a + b) == ModelsOf(svc, a) + ModelsOf(svc, b)
  {
  }

  /**
   * What getAll returns for the gathered records. get() and getPage() pass
   * each batch through transformResult, so the items the loop merges are
   * already models (page by page, which `ModelsOfAppend` shows is the same
   * as mapping the merged records), and getAll's own `transformResult`
   * maps them once more. `None` when the walk did not end.
   */
  function Shaped(svc: Service, items: Option<seq<Value>>): Option<Value> {
    match items
    case None => None
    case Some(xs) => Some(Coll(ModelsOf(svc, ModelsOf(svc, xs))))
  }

  /**
   * `getAll()`: fetch the first batch with `first` (the call `get()` makes),
   * follow `next_page` with `page` (the call `getPage($n)` makes) and map the
   * merged items to models; `pages` are the page numbers handed to
   * `getPage`. `None` when the walk is still going after `fuel` follow-up
   * fetches. A first batch of at most one page is the whole answer: no
   * follow-up request is made, even when it reports a `next_page`.
   */
  method GetAll(svc: Service, server: Call -> Batch, first: Call, page: int -> Call, fuel: nat)
    returns (r: Option<Value>, pages: seq<int>)
    ensures r == Shaped(svc, Gather(n => server(page(n)), server(first), fuel))
    ensures pages == Fetched(n => server(page(n)), server(first), fuel)
    ensures server(first).totalPages <= 1 ==>
      pages == [] && r == Some(Coll(ModelsOf(svc, ModelsOf(svc, server(first).items))))
  {
    var batch := server(first);
    var items;
    items, pages := Walk(n => server(page(n)), batch, fuel);
    r := Finish(svc, items);
  }

  /**
   * How the getAll loops end: the merged records, as the models get() and
   * getPage() made of them, go through `transformResult($items)`.
   */
  method Finish(svc: Service, items: Option<seq<Value>>) returns (r: Option<Value>)
    ensures r == Shaped(svc, items)
  {
    if items.None? {
      return None;
    }
    var models := MapEach(svc, items.value);
    var shaped := TransformResult(svc, Coll(models));
    r := Some(shaped.value);
  }

  /**
   * What getAll's second mapping makes of a model get() already built from
   * a record: the same keys, `original_data` the raw record again, a date
   * field that had a value a date of a date, every other field unchanged.
   */
  lemma Rehydrated(svc: Service, item: Value, k: string)
    requires "original_data" !in Members(item)
    ensures ModelOf(svc, ModelOf(svc, item)).props.Keys == Members(item).Keys + {"original_data"}
    ensures ModelOf(svc, ModelOf(svc, item)).props["original_data"] == item
    ensures k in Members(item) && k in DateFields && !Members(item)[k].Null? ==>
      ModelOf(svc, ModelOf(svc, item)).props[k] == Date(Date(Members(item)[k]))
    ensures k in Members(item) && k !in DateFields ==>
      ModelOf(svc, ModelOf(svc, item)).props[k] == Members(item)[k]
  {
  }

  /** `getLastPage()`: the batch `getPage($totalPages, 1)` yields after a probe of `getPage(1, 1)`. */
  function GetLastPage(server: Call -> Batch, page: (int, int) -> Call): Batch {
    LastPage((p, s) => server(page(p, s)))
  }

  /**
   * `getLastItem()`: `->first()` of the last page's collection, which
   * getPage's transformResult filled with models; null when it is empty.
   */
  function GetLastItem(svc: Service, server: Call -> Batch, page: (int, int) -> Call): Value {
    var items := GetLastPage(server, page).items;
    if |items| == 0 then Null else ModelOf(svc, items[0])
  }

  /** Against a listing at one item per page, getLastItem is the model of the last item, null when empty. */
  lemma LastItemListing(svc: Service, all: seq<Value>, server: Call -> Batch, page: (int, int) -> Call)
    requires forall p :: p >= 1 ==> server(page(p, 1)) == PageOf(all, 1, p)
    ensures GetLastItem(svc, server, page) == if |all| == 0 then Null else ModelOf(svc, all[|all| - 1])
  {
    var fetch := (p, s) => server(page(p, s));
    forall p | p >= 1
      ensures fetch(p, 1) == PageOf(all, 1, p)
    {
    }
    LastPageListing(all, fetch);
  }

  /**
   * Following `next_page` with a fetch that yields the listing's pages is
   * the same walk as following the listing's pages directly.
   */
  lemma {:induction false} FollowAgrees(all: seq<Value>, size: nat, fetch: int -> Batch, b: Batch, fuel: nat)
    requires size >= 1
    requires forall n :: n >= 1 ==> fetch(n) == PageOf(all, size, n)
    requires b.nextPage.Some? ==> b.nextPage.value >= 1
    ensures Follow(fetch, b, fuel) == Follow(n => PageOf(all, size, n), b, fuel)
    ensures Followed(fetch, b, fuel) == Followed(n => PageOf(all, size, n), b, fuel)
    decreases fuel
  {
    if b.nextPage.Some? && fuel > 0 {
      var n := b.nextPage.value;
      FollowAgrees(all, size, fetch, PageOf(all, size, n), fuel - 1);
    }
  }

  /**
   * Against a listing endpoint, when the first batch is page 1 and each
   * follow-up fetch of page `n` yields page `n`, getAll returns every
   * item in the listing, in order, mapped to a model twice, and it asks
   * for pages 2 to the last, each once.
   */
  lemma GetAllListing(svc: Service, all: seq<Value>, size: nat, fetch: int -> Batch, first: Batch, fuel: nat)
    requires size >= 1
    requires first == PageOf(all, size, 1)
    requires forall n :: n >= 1 ==> fetch(n) == PageOf(all, size, n)
    requires fuel >= PageCount(|all|, size)
    ensures Shaped(svc, Gather(fetch, first, fuel)) == Some(Coll(ModelsOf(svc, ModelsOf(svc, all))))
    ensures Fetched(fetch, first, fuel) == Pages(2, PageCount(|all|, size))
  {
    FollowAgrees(all, size, fetch, first, fuel);
    GatherListing(all, size, fuel);
  }
}
