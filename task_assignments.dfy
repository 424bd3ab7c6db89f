// ProjectTaskAssignmentService: the task assignments of one project.

module ProjectTaskAssignmentService {
  import opened Values
  import opened Bodies
  import opened Paging
  import opened Services
  import BaseService

  /** `"projects/" . $projectId . "/task_assignments"`. */
  function ListPath(projectId: Value): string {
    "projects/" + Text(projectId) + "/task_assignments"
  }

  /** The path of one assignment: the list path, `/`, then its id. */
  function ItemPath(projectId: Value, id: Value): string {
    ListPath(projectId) + "/" + Text(id)
  }

  /** The body of `get`: each argument when not null. */
  function GetQuery(isActive: Value, updatedSince: Value, page: Value, perPage: Value): seq<Field> {
    [Optional("is_active", isActive), Optional("updated_since", updatedSince),
     Optional("page", page), Optional("per_page", perPage)]
  }

  /** `get($projectId, ...)`. */
  method Get(projectId: Value, isActive: Value, updatedSince: Value, page: Value, perPage: Value) returns (c: Call)
    ensures Sends(c, Api, GET, ListPath(projectId), GetQuery(isActive, updatedSince, page, perPage), true)
  {
    c := Send(Api, GET, ListPath(projectId), GetQuery(isActive, updatedSince, page, perPage), true);
  }

  /** The call `getPage($projectId, $page, $perPage)` makes. */
  function PageCall(projectId: Value, page: Value, perPage: Value): Call {
    CallOf(Api, GET, ListPath(projectId), GetQuery(Null, Null, page, perPage), true)
  }

  /** `getPage($projectId, $page, $perPage)`: `get` without filters. */
  method GetPage(projectId: Value, page: Value, perPage: Value) returns (c: Call)
    ensures Sends(c, Api, GET, ListPath(projectId), GetQuery(Null, Null, page, perPage), true)
    ensures c == PageCall(projectId, page, perPage)
  {
    c := Get(projectId, Null, Null, page, perPage);
    SendsOnly(c, Api, GET, ListPath(projectId), GetQuery(Null, Null, page, perPage), true);
  }

  /** A page call asks the listing for the page and size it carries. */
  lemma PageCallAsks(projectId: Value, page: Value, perPage: Value, default: nat)
    ensures RequestedPage(PageCall(projectId, page, perPage)) == if page.Int? && page.i >= 1 then page.i else 1
    ensures RequestedSize(PageCall(projectId, page, perPage), default)
         == if perPage.Int? && perPage.i >= 1 then perPage.i else default
  {
    PageRequested(PageCall(projectId, page, perPage), GetQuery(Null, Null, page, perPage), 2);
    SizeRequested(PageCall(projectId, page, perPage), GetQuery(Null, Null, page, perPage), 3, default);
  }

  /** `getLastPage($projectId)`. */
  function LastPageOf(server: Call -> Batch, projectId: Value): Batch {
    BaseService.GetLastPage(server, (p, s) => PageCall(projectId, Int(p), Int(s)))
  }

  /**
   * Against a listing endpoint, getLastPage (whose requests both ask for
   * one item per page) yields a page holding exactly the project's last
   * assignment, or an empty page when the project has none.
   */
  lemma LastPageListing(all: seq<Value>, default: nat, projectId: Value)
    requires default >= 1
    ensures LastPageOf(c => Serve(all, default, c), projectId).items
         == if |all| == 0 then [] else [all[|all| - 1]]
  {
    var fetch := (p, s) => Serve(all, default, PageCall(projectId, Int(p), Int(s)));
    forall p | p >= 1
      ensures fetch(p, 1) == PageOf(all, 1, p)
    {
      PageCallAsks(projectId, Int(p), Int(1), default);
    }
    Paging.LastPageListing(all, fetch);
  }

  /** What `getAll($projectId)` returns. */
  function AllAssignments(server: Call -> Batch, projectId: Value, fuel: nat): Outcome<Option<Value>> {
    if projectId.Null? then Thrown(InvalidArgument)
    else
      var first := CallOf(Api, GET, ListPath(projectId), GetQuery(Null, Null, Null, Null), true);
      Returned(BaseService.Shaped(ProjectTaskAssignments,
        Gather(n => server(PageCall(projectId, Int(n), Null)), server(first), fuel)))
  }

  /** `getAll($projectId)`: throws without a project, else walks the project's pages. */
  method GetAll(server: Call -> Batch, projectId: Value, fuel: nat) returns (r: Outcome<Option<Value>>)
    ensures r.Thrown? <==> projectId.Null?
    ensures r == AllAssignments(server, projectId, fuel)
  {
    if projectId.Null? {
      return Thrown(InvalidArgument);
    }
    var first := Get(projectId, Null, Null, Null, Null);
    SendsOnly(first, Api, GET, ListPath(projectId), GetQuery(Null, Null, Null, Null), true);
    var items, _ := Walk(n => server(PageCall(projectId, Int(n), Null)), server(first), fuel);
    var shaped := BaseService.Finish(ProjectTaskAssignments, items);
    r := Returned(shaped);
  }

  /** Against a listing endpoint, getAll returns every assignment of the project as a model, in order. */
  lemma AllAssignmentsListing(all: seq<Value>, default: nat, projectId: Value, fuel: nat)
    requires default >= 1
    requires !projectId.Null?
    requires fuel >= PageCount(|all|, default)
    ensures AllAssignments(c => Serve(all, default, c), projectId, fuel)
         == Returned(Some(Coll(BaseService.ModelsOf(ProjectTaskAssignments,
                                                  BaseService.ModelsOf(ProjectTaskAssignments, all)))))
  {
    var server := c => Serve(all, default, c);
    PageCallAsks(projectId, Null, Null, default);
    var fetch := n => server(PageCall(projectId, Int(n), Null));
    forall n | n >= 1
      ensures fetch(n) == PageOf(all, default, n)
    {
      PageCallAsks(projectId, Int(n), Null, default);
    }
    BaseService.GetAllListing(ProjectTaskAssignments, all, default, fetch, server(PageCall(projectId, Null, Null)), fuel);
  }

  /** `getById($projectId, $taskAssignmentId)`. */
  method GetById(projectId: Value, id: Value) returns (c: Call)
    ensures SendsBare(c, Api, GET, ItemPath(projectId, id), true)
  {
    c := Call(Api, GET, ItemPath(projectId, id), None, true);
  }

  /** The body of `create`: `task_id` always, the rest when not null. */
  function CreateFields(taskId: Value, isActive: Value, billable: Value, hourlyRate: Value, budget: Value): seq<Field> {
    [Always("task_id", taskId), Optional("is_active", isActive), Optional("billable", billable),
     Optional("hourly_rate", hourlyRate), Optional("budget", budget)]
  }

  /** `create(...)`. */
  method Create(projectId: Value, taskId: Value, isActive: Value, billable: Value, hourlyRate: Value, budget: Value)
    returns (c: Call)
    ensures Sends(c, Api, POST, ListPath(projectId), CreateFields(taskId, isActive, billable, hourlyRate, budget), false)
  {
    c := Send(Api, POST, ListPath(projectId), CreateFields(taskId, isActive, billable, hourlyRate, budget), false);
  }

  /** The body of `update`: each argument when not null. */
  function UpdateFields(isActive: Value, billable: Value, hourlyRate: Value, budget: Value): seq<Field> {
    [Optional("is_active", isActive), Optional("billable", billable),
     Optional("hourly_rate", hourlyRate), Optional("budget", budget)]
  }

  /** `update(...)`; with every argument null the body is empty. */
  method Update(projectId: Value, id: Value, isActive: Value, billable: Value, hourlyRate: Value, budget: Value)
    returns (c: Call)
    ensures Sends(c, Api, PATCH, ItemPath(projectId, id), UpdateFields(isActive, billable, hourlyRate, budget), false)
    ensures isActive.Null? && billable.Null? && hourlyRate.Null? && budget.Null? ==> c.body == Some(map[])
  {
    c := Send(Api, PATCH, ItemPath(projectId, id), UpdateFields(isActive, billable, hourlyRate, budget), false);
  }

  /** `delete($projectId, $taskAssignmentId)`. */
  method Delete(projectId: Value, id: Value) returns (c: Call)
    ensures SendsBare(c, Api, DELETE, ItemPath(projectId, id), false)
  {
    c := Call(Api, DELETE, ItemPath(projectId, id), None, false);
  }
}
