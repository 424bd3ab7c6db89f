// Where a PaginatedCollection's navigation lands: `$service->getPage($page,
// $perPage)` on the service it remembers, with the page and the page size
// bound to that service's own getPage parameters by position.

module Navigation {
  import opened Values
  import opened Bodies
  import opened Paging
  import opened Services
  import opened Pagination
  import TaskService
  import ProjectTaskAssignmentService
  import ProjectUserAssignmentService

  /**
   * The call `getPage($page, $perPage)` makes on each service, or what it
   * throws. TaskService binds both as meant; the assignment services take
   * `($projectId, $page, $perPage)`, so the page becomes the project id and
   * the page size the page; TimeEntryService's `$page` is its fourth
   * parameter and has no default, so two arguments are too few; the other
   * services define no getPage.
   */
  function Resolve(r: PageRequest): (o: Outcome<Call>)
    ensures o.Returned? <==> r.service in {Tasks, ProjectTaskAssignments, ProjectUserAssignments}
    ensures r.service == TimeEntries ==> o == Thrown(TooFewArguments)
  {
    match r.service
    case Tasks => Returned(TaskService.PageCall(r.page, r.perPage))
    case ProjectTaskAssignments => Returned(ProjectTaskAssignmentService.PageCall(r.page, r.perPage, Null))
    case ProjectUserAssignments => Returned(ProjectUserAssignmentService.PageCall(r.page, r.perPage, Null))
    case TimeEntries => Thrown(TooFewArguments)
    case _ => Thrown(UndefinedMethod)
  }

  /**
   * A task collection's next page is the listing's page `next_page` at
   * the collection's page size.
   */
  lemma TaskNextPage(all: seq<Value>, default: nat, c: PaginatedCollection, data: map<string, Value>,
                     next: int, size: int)
    requires default >= 1
    requires c.service == Tasks && c.props == Copied(data)
    requires Prop(data, "next_page") == Int(next) && next >= 1
    requires Prop(data, "per_page") == Int(size) && size >= 1
    ensures Resolve(c.NextPage()).Returned?
    ensures Serve(all, default, Resolve(c.NextPage()).value) == PageOf(all, size, next)
  {
    Pagination.Navigation(c, data);
    TaskService.QueryAsks(Null, Null, Int(next), Int(size), default);
  }

  /**
   * A task-assignment collection's navigation asks for the project
   * numbered like the page, at the page numbered like the page size, and
   * at the server's default size.
   */
  lemma TaskAssignmentNextPage(default: nat, c: PaginatedCollection, data: map<string, Value>, size: int)
    requires c.service == ProjectTaskAssignments && c.props == Copied(data)
    requires Prop(data, "per_page") == Int(size) && size >= 1
    ensures Resolve(c.NextPage()).Returned?
    ensures Resolve(c.NextPage()).value.path == ProjectTaskAssignmentService.ListPath(Prop(data, "next_page"))
    ensures RequestedPage(Resolve(c.NextPage()).value) == size
    ensures RequestedSize(Resolve(c.NextPage()).value, default) == default
  {
    Pagination.Navigation(c, data);
    ProjectTaskAssignmentService.PageCallAsks(Prop(data, "next_page"), Int(size), Null, default);
  }

  /** The same for a user-assignment collection. */
  lemma UserAssignmentNextPage(default: nat, c: PaginatedCollection, data: map<string, Value>, size: int)
    requires c.service == ProjectUserAssignments && c.props == Copied(data)
    requires Prop(data, "per_page") == Int(size) && size >= 1
    ensures Resolve(c.NextPage()).Returned?
    ensures Resolve(c.NextPage()).value.path == ProjectUserAssignmentService.ListPath(Prop(data, "next_page"))
    ensures RequestedPage(Resolve(c.NextPage()).value) == size
    ensures RequestedSize(Resolve(c.NextPage()).value, default) == default
  {
    Pagination.Navigation(c, data);
    ProjectUserAssignmentService.PageCallAsks(Prop(data, "next_page"), Int(size), Null, default);
  }

  /** Every way of moving through a time-entry collection throws before any request. */
  lemma TimeEntryNavigationThrows(c: PaginatedCollection)
    requires c.service == TimeEntries
    ensures Resolve(c.NextPage()) == Thrown(TooFewArguments)
    ensures Resolve(c.PreviousPage()) == Thrown(TooFewArguments)
    ensures Resolve(c.FirstPage()) == Thrown(TooFewArguments)
    ensures Resolve(c.LastPage()) == Thrown(TooFewArguments)
  {
  }
}
