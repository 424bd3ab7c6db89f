// TaskService: listing, paging, creating, updating and deleting tasks.

module TaskService {
  import opened Values
  import opened Bodies
  import opened Paging
  import opened Services
  import BaseService

  const Path := "tasks"

  /** `"tasks/" . $taskId`. */
  function TaskPath(id: Value): string {
    Path + "/" + Text(id)
  }

  /** The body of `get`: `page` and `per_page` always (null included), the filters when not null. */
  function GetQuery(isActive: Value, updatedSince: Value, page: Value, perPage: Value): seq<Field> {
    [Always("page", page), Always("per_page", perPage),
     Optional("is_active", isActive), Optional("updated_since", updatedSince)]
  }

  /** `get($isActive, $updatedSince, $page, $perPage)`. */
  method Get(isActive: Value, updatedSince: Value, page: Value, perPage: Value) returns (c: Call)
    ensures Sends(c, Api, GET, Path, GetQuery(isActive, updatedSince, page, perPage), true)
    ensures "page" in c.body.value && "per_page" in c.body.value
  {
    c := Send(Api, GET, Path, GetQuery(isActive, updatedSince, page, perPage), true);
    assert Lookup(c.body.value, GetQuery(isActive, updatedSince, page, perPage)[0].key).Some?;
    assert Lookup(c.body.value, GetQuery(isActive, updatedSince, page, perPage)[1].key).Some?;
  }

  /** The call `getPage($page, $perPage)` makes. */
  function PageCall(page: Value, perPage: Value): Call {
    CallOf(Api, GET, Path, GetQuery(Null, Null, page, perPage), true)
  }

  /** `getPage($page, $perPage)`: the same call as `get(null, null, $page, $perPage)`. */
  method GetPage(page: Value, perPage: Value) returns (c: Call)
    ensures Sends(c, Api, GET, Path, GetQuery(Null, Null, page, perPage), true)
    ensures c == PageCall(page, perPage)
  {
    c := Get(Null, Null, page, perPage);
    SendsOnly(c, Api, GET, Path, GetQuery(Null, Null, page, perPage), true);
  }

  /** A call built from `GetQuery` asks the listing for the page and size it carries. */
  lemma QueryAsks(isActive: Value, updatedSince: Value, page: Value, perPage: Value, default: nat)
    ensures RequestedPage(CallOf(Api, GET, Path, GetQuery(isActive, updatedSince, page, perPage), true))
         == if page.Int? && page.i >= 1 then page.i else 1
    ensures RequestedSize(CallOf(Api, GET, Path, GetQuery(isActive, updatedSince, page, perPage), true), default)
         == if perPage.Int? && perPage.i >= 1 then perPage.i else default
  {
    var fields := GetQuery(isActive, updatedSince, page, perPage);
    PageRequested(CallOf(Api, GET, Path, fields, true), fields, 0);
    SizeRequested(CallOf(Api, GET, Path, fields, true), fields, 1, default);
  }

  /** The first call of `getAll`: `get($isActive, $updatedSince)`. */
  function FirstCall(isActive: Value, updatedSince: Value): Call {
    CallOf(Api, GET, Path, GetQuery(isActive, updatedSince, Null, Null), true)
  }

  /**
   * What `getAll($isActive, $updatedSince)` returns as written: every
   * follow-up is `getPage($isActive, $updatedSince, $batch->next_page)`,
   * which binds the filters to `$page` and `$perPage` and drops the page
   * number, so each follow-up is the same call.
   */
  function AllTasks(server: Call -> Batch, isActive: Value, updatedSince: Value, fuel: nat): Option<Value> {
    BaseService.Shaped(Tasks,
      Gather(n => server(PageCall(isActive, updatedSince)), server(FirstCall(isActive, updatedSince)), fuel))
  }

  /** `getAll($isActive, $updatedSince)` as written. */
  method GetAll(server: Call -> Batch, isActive: Value, updatedSince: Value, fuel: nat) returns (r: Option<Value>)
    ensures r == AllTasks(server, isActive, updatedSince, fuel)
  {
    var first := Get(isActive, updatedSince, Null, Null);
    SendsOnly(first, Api, GET, Path, GetQuery(isActive, updatedSince, Null, Null), true);
    var items, _ := Walk(n => server(PageCall(isActive, updatedSince)), server(first), fuel);
    r := BaseService.Finish(Tasks, items);
  }

  /**
   * The discrepancy: against a listing of more than one page, with the
   * usual filter values (`isActive` a boolean or null, `updatedSince` a
   * date string or null), getAll keeps fetching page 1 and never ends,
   * whatever the fuel.
   */
  lemma AllTasksNeverEnds(all: seq<Value>, default: nat, isActive: Value, updatedSince: Value, fuel: nat)
    requires default >= 1 && |all| > default
    requires !isActive.Int? && !updatedSince.Int?
    ensures AllTasks(c => Serve(all, default, c), isActive, updatedSince, fuel) == None
  {
    var server := c => Serve(all, default, c);
    QueryAsks(isActive, updatedSince, Null, Null, default);
    QueryAsks(Null, Null, isActive, updatedSince, default);
    PageBounds(|all|, default, 1);
    var page1 := PageOf(all, default, 1);
    assert server(FirstCall(isActive, updatedSince)) == page1;
    assert page1.nextPage == Some(2);
    var fetch := n => server(PageCall(isActive, updatedSince));
    forall n | n >= 1
      ensures fetch(n).nextPage.Some? && fetch(n).nextPage.value >= 1
    {
      assert fetch(n) == page1;
    }
    FollowStuck(fetch, page1, fuel);
  }

  /** What `getAll` evidently means to return: each follow-up asks for `next_page`, filters kept. */
  function AllTasksIntended(server: Call -> Batch, isActive: Value, updatedSince: Value, fuel: nat): Option<Value> {
    BaseService.Shaped(Tasks,
      Gather(n => server(CallOf(Api, GET, Path, GetQuery(isActive, updatedSince, Int(n), Null), true)),
             server(FirstCall(isActive, updatedSince)), fuel))
  }

  /** `getAll` with the follow-up `get($isActive, $updatedSince, $batch->next_page)`. */
  method GetAllIntended(server: Call -> Batch, isActive: Value, updatedSince: Value, fuel: nat) returns (r: Option<Value>)
    ensures r == AllTasksIntended(server, isActive, updatedSince, fuel)
  {
    var first := Get(isActive, updatedSince, Null, Null);
    SendsOnly(first, Api, GET, Path, GetQuery(isActive, updatedSince, Null, Null), true);
    var items, _ := Walk(n => server(CallOf(Api, GET, Path, GetQuery(isActive, updatedSince, Int(n), Null), true)),
                      server(first), fuel);
    r := BaseService.Finish(Tasks, items);
  }

  /** Against a listing endpoint, the intended getAll returns every task as a model, in order. */
  lemma AllTasksIntendedListing(all: seq<Value>, default: nat, isActive: Value, updatedSince: Value, fuel: nat)
    requires default >= 1
    requires fuel >= PageCount(|all|, default)
    ensures AllTasksIntended(c => Serve(all, default, c), isActive, updatedSince, fuel)
         == Some(Coll(BaseService.ModelsOf(Tasks, BaseService.ModelsOf(Tasks, all))))
  {
    var server := c => Serve(all, default, c);
    QueryAsks(isActive, updatedSince, Null, Null, default);
    var fetch := n => server(CallOf(Api, GET, Path, GetQuery(isActive, updatedSince, Int(n), Null), true));
    forall n | n >= 1
      ensures fetch(n) == PageOf(all, default, n)
    {
      QueryAsks(isActive, updatedSince, Int(n), Null, default);
    }
    BaseService.GetAllListing(Tasks, all, default, fetch, server(FirstCall(isActive, updatedSince)), fuel);
  }

  /** `getById($taskId)`. */
  method GetById(id: Value) returns (c: Call)
    ensures SendsBare(c, Api, GET, TaskPath(id), true)
  {
    c := Call(Api, GET, TaskPath(id), None, true);
  }

  /** The body of `create`: `name` always, the rest when not null. */
  function CreateFields(name: Value, billableByDefault: Value, defaultHourlyRate: Value, isDefault: Value,
                        isActive: Value): seq<Field> {
    [Always("name", name), Optional("billable_by_default", billableByDefault),
     Optional("default_hourly_rate", defaultHourlyRate), Optional("is_default", isDefault),
     Optional("is_active", isActive)]
  }

  /** `create(...)`. */
  method Create(name: Value, billableByDefault: Value, defaultHourlyRate: Value, isDefault: Value, isActive: Value)
    returns (c: Call)
    ensures Sends(c, Api, POST, Path, CreateFields(name, billableByDefault, defaultHourlyRate, isDefault, isActive), false)
  {
    c := Send(Api, POST, Path, CreateFields(name, billableByDefault, defaultHourlyRate, isDefault, isActive), false);
  }

  /** The body of `update`: each argument when not null. */
  function UpdateFields(name: Value, billableByDefault: Value, defaultHourlyRate: Value, isDefault: Value,
                        isActive: Value): seq<Field> {
    [Optional("name", name), Optional("billable_by_default", billableByDefault),
     Optional("default_hourly_rate", defaultHourlyRate), Optional("is_default", isDefault),
     Optional("is_active", isActive)]
  }

  /** `update($taskId, ...)`. */
  method Update(id: Value, name: Value, billableByDefault: Value, defaultHourlyRate: Value, isDefault: Value,
                isActive: Value) returns (c: Call)
    ensures Sends(c, Api, PATCH, TaskPath(id), UpdateFields(name, billableByDefault, defaultHourlyRate, isDefault, isActive), false)
  {
    c := Send(Api, PATCH, TaskPath(id), UpdateFields(name, billableByDefault, defaultHourlyRate, isDefault, isActive), false);
  }

  /** `delete($taskId)`. */
  method Delete(id: Value) returns (c: Call)
    ensures SendsBare(c, Api, DELETE, TaskPath(id), false)
  {
    c := Call(Api, DELETE, TaskPath(id), None, false);
  }
}
