// ProjectService: listing, creating, updating and deleting projects. Its
// calls go through `httpGet`, `httpPost`, `httpPatch` and `httpDelete`,
// and none of its responses is handed to transformResult.

module ProjectService {
  import opened Values
  import opened Bodies
  import opened Paging
  import BaseService

  const Path := "projects"

  /** `"projects/" . $projectId`. */
  function ProjectPath(id: Value): string {
    Path + "/" + Text(id)
  }

  /** The body of `get`: each argument when not null. */
  function GetQuery(isActive: Value, clientId: Value, updatedSince: Value, page: Value, perPage: Value): seq<Field> {
    [Optional("is_active", isActive), Optional("client_id", clientId), Optional("updated_since", updatedSince),
     Optional("page", page), Optional("per_page", perPage)]
  }

  /** `get(...)`. */
  method Get(isActive: Value, clientId: Value, updatedSince: Value, page: Value, perPage: Value) returns (c: Call)
    ensures Sends(c, Helper, GET, Path, GetQuery(isActive, clientId, updatedSince, page, perPage), false)
  {
    c := Send(Helper, GET, Path, GetQuery(isActive, clientId, updatedSince, page, perPage), false);
  }

  /** The call `get($isActive, $clientId, $updatedSince, $page)` makes. */
  function PageCall(isActive: Value, clientId: Value, updatedSince: Value, page: Value): Call {
    CallOf(Helper, GET, Path, GetQuery(isActive, clientId, updatedSince, page, Null), false)
  }

  /** A page call asks the listing for the page it carries, at the default size. */
  lemma PageCallAsks(isActive: Value, clientId: Value, updatedSince: Value, page: Value, default: nat)
    ensures RequestedPage(PageCall(isActive, clientId, updatedSince, page)) == if page.Int? && page.i >= 1 then page.i else 1
    ensures RequestedSize(PageCall(isActive, clientId, updatedSince, page), default) == default
  {
    var fields := GetQuery(isActive, clientId, updatedSince, page, Null);
    PageRequested(PageCall(isActive, clientId, updatedSince, page), fields, 3);
    SizeRequested(PageCall(isActive, clientId, updatedSince, page), fields, 4, default);
  }

  /**
   * What `getAll(...)` returns as written: the loop follows every page,
   * but the result of `array_merge` is dropped, so the first batch's
   * projects come back (or nothing, when the walk does not end within
   * `fuel` fetches).
   */
  function AllProjects(server: Call -> Batch, isActive: Value, clientId: Value, updatedSince: Value, fuel: nat)
    : Option<seq<Value>>
  {
    var first := server(PageCall(isActive, clientId, updatedSince, Null));
    var fetch := n => server(PageCall(isActive, clientId, updatedSince, Int(n)));
    if first.totalPages > 1 && Follow(fetch, first, fuel).None? then None else Some(first.items)
  }

  /** `getAll(...)` as written. */
  method GetAll(server: Call -> Batch, isActive: Value, clientId: Value, updatedSince: Value, fuel: nat)
    returns (r: Option<seq<Value>>)
    ensures r == AllProjects(server, isActive, clientId, updatedSince, fuel)
  {
    var first := Get(isActive, clientId, updatedSince, Null, Null);
    SendsOnly(first, Helper, GET, Path, GetQuery(isActive, clientId, updatedSince, Null, Null), false);
    var fetch := n => server(PageCall(isActive, clientId, updatedSince, Int(n)));
    var batch := server(first);
    var projects := batch.items;
    if batch.totalPages > 1 {
      var left: nat := fuel;
      while batch.nextPage.Some? && left > 0
        invariant left <= fuel
        invariant Follow(fetch, server(first), fuel).Some? == Follow(fetch, batch, left).Some?
        decreases left
      {
        batch := fetch(batch.nextPage.value);
        left := left - 1;
      }
      if batch.nextPage.Some? {
        return None;
      }
    }
    r := Some(projects);
  }

  /**
   * The discrepancy: against a listing of more than one page, getAll
   * walks every page and still returns only the first page's projects.
   */
  lemma AllProjectsDropsLaterPages(all: seq<Value>, default: nat, isActive: Value, clientId: Value,
                                   updatedSince: Value, fuel: nat)
    requires default >= 1 && |all| > default
    requires fuel >= PageCount(|all|, default)
    ensures AllProjects(c => Serve(all, default, c), isActive, clientId, updatedSince, fuel) == Some(all[..default])
    ensures AllProjects(c => Serve(all, default, c), isActive, clientId, updatedSince, fuel) != Some(all)
  {
    var server := c => Serve(all, default, c);
    PageCallAsks(isActive, clientId, updatedSince, Null, default);
    var fetch := n => server(PageCall(isActive, clientId, updatedSince, Int(n)));
    forall n | n >= 1
      ensures fetch(n) == PageOf(all, default, n)
    {
      PageCallAsks(isActive, clientId, updatedSince, Int(n), default);
    }
    PageBounds(|all|, default, 1);
    FollowListing(all, default, 1, fuel);
    BaseService.FollowAgrees(all, default, fetch, PageOf(all, default, 1), fuel);
    assert 1 * default == default && (1 - 1) * default == 0;
    assert |all[..default]| != |all|;
  }

  /** What `getAll` evidently means to return: every page's projects, merged in order. */
  function AllProjectsIntended(server: Call -> Batch, isActive: Value, clientId: Value, updatedSince: Value, fuel: nat)
    : Option<seq<Value>>
  {
    Gather(n => server(PageCall(isActive, clientId, updatedSince, Int(n))),
           server(PageCall(isActive, clientId, updatedSince, Null)), fuel)
  }

  /** `getAll` keeping the merge: `$projects = array_merge($projects, $batch->projects)`. */
  method GetAllIntended(server: Call -> Batch, isActive: Value, clientId: Value, updatedSince: Value, fuel: nat)
    returns (r: Option<seq<Value>>)
    ensures r == AllProjectsIntended(server, isActive, clientId, updatedSince, fuel)
  {
    var first := Get(isActive, clientId, updatedSince, Null, Null);
    SendsOnly(first, Helper, GET, Path, GetQuery(isActive, clientId, updatedSince, Null, Null), false);
    var pages;
    r, pages := Walk(n => server(PageCall(isActive, clientId, updatedSince, Int(n))), server(first), fuel);
  }

  /** Against a listing endpoint, the intended getAll returns every project, in order. */
  lemma AllProjectsIntendedListing(all: seq<Value>, default: nat, isActive: Value, clientId: Value,
                                   updatedSince: Value, fuel: nat)
    requires default >= 1
    requires fuel >= PageCount(|all|, default)
    ensures AllProjectsIntended(c => Serve(all, default, c), isActive, clientId, updatedSince, fuel) == Some(all)
  {
    var server := c => Serve(all, default, c);
    PageCallAsks(isActive, clientId, updatedSince, Null, default);
    var fetch := n => server(PageCall(isActive, clientId, updatedSince, Int(n)));
    forall n | n >= 1
      ensures fetch(n) == PageOf(all, default, n)
    {
      PageCallAsks(isActive, clientId, updatedSince, Int(n), default);
    }
    BaseService.FollowAgrees(all, default, fetch, PageOf(all, default, 1), fuel);
    GatherListing(all, default, fuel);
  }

  /** `getById($projectId)`: `httpGet` with no data. */
  method GetById(id: Value) returns (c: Call)
    ensures SendsBare(c, Helper, GET, ProjectPath(id), false)
  {
    c := Call(Helper, GET, ProjectPath(id), None, false);
  }

  /** The optional part shared by `create` and `update`, in the order both write it. */
  function Settings(code: Value, isActive: Value, isFixedFee: Value, hourlyRate: Value, budget: Value,
                    notifyWhenOverBudget: Value, overBudgetNotificationPercentage: Value, showBudgetToAll: Value,
                    costBudget: Value, costBudgetIncludeExpenses: Value, fee: Value, notes: Value,
                    startsOn: Value, endsOn: Value): seq<Field> {
    [Optional("code", code), Optional("is_active", isActive), Optional("is_fixed_fee", isFixedFee),
     Optional("hourly_rate", hourlyRate), Optional("budget", budget),
     Optional("notify_when_over_budget", notifyWhenOverBudget),
     Optional("over_budget_notification_percentage", overBudgetNotificationPercentage),
     Optional("show_budget_to_all", showBudgetToAll), Optional("cost_budget", costBudget),
     Optional("cost_budget_include_expenses", costBudgetIncludeExpenses), Optional("fee", fee),
     Optional("notes", notes), Optional("starts_on", startsOn), Optional("ends_on", endsOn)]
  }

  /** The keys `create` and `update` write, in the order they write them. */
  const ProjectKeys := ["client_id", "name", "is_billable", "bill_by", "budget_by",
                        "code", "is_active", "is_fixed_fee", "hourly_rate", "budget", "notify_when_over_budget",
                        "over_budget_notification_percentage", "show_budget_to_all", "cost_budget",
                        "cost_budget_include_expenses", "fee", "notes", "starts_on", "ends_on"]

  /** The settings write the last fourteen of those keys. */
  lemma SettingsKeys(code: Value, isActive: Value, isFixedFee: Value, hourlyRate: Value, budget: Value,
                     notifyWhenOverBudget: Value, overBudgetNotificationPercentage: Value, showBudgetToAll: Value,
                     costBudget: Value, costBudgetIncludeExpenses: Value, fee: Value, notes: Value,
                     startsOn: Value, endsOn: Value)
    ensures KeysOf(Settings(code, isActive, isFixedFee, hourlyRate, budget, notifyWhenOverBudget,
                            overBudgetNotificationPercentage, showBudgetToAll, costBudget,
                            costBudgetIncludeExpenses, fee, notes, startsOn, endsOn)) == ProjectKeys[5..]
  {
  }

  /** No key appears twice among them. */
  lemma ProjectKeysDistinct()
    ensures DistinctStrings(ProjectKeys)
  {
  }

  /** `create` writes each key once. */
  lemma CreateDistinct(clientId: Value, name: Value, isBillable: Value, billBy: Value, budgetBy: Value,
                       settings: seq<Field>)
    requires KeysOf(settings) == ProjectKeys[5..]
    ensures DistinctKeys(CreateFields(clientId, name, isBillable, billBy, budgetBy, settings))
  {
    var fields := CreateFields(clientId, name, isBillable, billBy, budgetBy, settings);
    KeysAppend(fields[..5], settings);
    assert fields == fields[..5] + settings;
    assert ProjectKeys == ProjectKeys[..5] + ProjectKeys[5..];
    ProjectKeysDistinct();
    KeysDistinct(fields, ProjectKeys);
  }

  /** `update` writes each key once. */
  lemma UpdateDistinct(clientId: Value, name: Value, isBillable: Value, billBy: Value, budgetBy: Value,
                       settings: seq<Field>)
    requires KeysOf(settings) == ProjectKeys[5..]
    ensures DistinctKeys(UpdateFields(clientId, name, isBillable, billBy, budgetBy, settings))
  {
    var fields := UpdateFields(clientId, name, isBillable, billBy, budgetBy, settings);
    KeysAppend(fields[..5], settings);
    assert fields == fields[..5] + settings;
    assert ProjectKeys == ProjectKeys[..5] + ProjectKeys[5..];
    ProjectKeysDistinct();
    KeysDistinct(fields, ProjectKeys);
  }

  /** The body of `create`: the five leading arguments always, the fourteen settings when not null. */
  function CreateFields(clientId: Value, name: Value, isBillable: Value, billBy: Value, budgetBy: Value,
                        settings: seq<Field>): seq<Field> {
    [Always("client_id", clientId), Always("name", name), Always("is_billable", isBillable),
     Always("bill_by", billBy), Always("budget_by", budgetBy)] + settings
  }

  /** `create(...)`. */
  method Create(clientId: Value, name: Value, isBillable: Value, billBy: Value, budgetBy: Value,
                code: Value, isActive: Value, isFixedFee: Value, hourlyRate: Value, budget: Value,
                notifyWhenOverBudget: Value, overBudgetNotificationPercentage: Value, showBudgetToAll: Value,
                costBudget: Value, costBudgetIncludeExpenses: Value, fee: Value, notes: Value,
                startsOn: Value, endsOn: Value) returns (c: Call)
    ensures Sends(c, Helper, POST, Path,
                  CreateFields(clientId, name, isBillable, billBy, budgetBy,
                    Settings(code, isActive, isFixedFee, hourlyRate, budget, notifyWhenOverBudget,
                             overBudgetNotificationPercentage, showBudgetToAll, costBudget,
                             costBudgetIncludeExpenses, fee, notes, startsOn, endsOn)), false)
  {
    var settings := Settings(code, isActive, isFixedFee, hourlyRate, budget, notifyWhenOverBudget,
                             overBudgetNotificationPercentage, showBudgetToAll, costBudget,
                             costBudgetIncludeExpenses, fee, notes, startsOn, endsOn);
    SettingsKeys(code, isActive, isFixedFee, hourlyRate, budget, notifyWhenOverBudget,
                 overBudgetNotificationPercentage, showBudgetToAll, costBudget,
                 costBudgetIncludeExpenses, fee, notes, startsOn, endsOn);
    CreateDistinct(clientId, name, isBillable, billBy, budgetBy, settings);
    c := Send(Helper, POST, Path, CreateFields(clientId, name, isBillable, billBy, budgetBy, settings), false);
  }

  /** The body of `update`: every argument, the leading five included, when not null. */
  function UpdateFields(clientId: Value, name: Value, isBillable: Value, billBy: Value, budgetBy: Value,
                        settings: seq<Field>): seq<Field> {
    [Optional("client_id", clientId), Optional("name", name), Optional("is_billable", isBillable),
     Optional("bill_by", billBy), Optional("budget_by", budgetBy)] + settings
  }

  /** `update($projectId, ...)`. */
  method Update(id: Value, clientId: Value, name: Value, isBillable: Value, billBy: Value, budgetBy: Value,
                code: Value, isActive: Value, isFixedFee: Value, hourlyRate: Value, budget: Value,
                notifyWhenOverBudget: Value, overBudgetNotificationPercentage: Value, showBudgetToAll: Value,
                costBudget: Value, costBudgetIncludeExpenses: Value, fee: Value, notes: Value,
                startsOn: Value, endsOn: Value) returns (c: Call)
    ensures Sends(c, Helper, PATCH, ProjectPath(id),
                  UpdateFields(clientId, name, isBillable, billBy, budgetBy,
                    Settings(code, isActive, isFixedFee, hourlyRate, budget, notifyWhenOverBudget,
                             overBudgetNotificationPercentage, showBudgetToAll, costBudget,
                             costBudgetIncludeExpenses, fee, notes, startsOn, endsOn)), false)
  {
    var settings := Settings(code, isActive, isFixedFee, hourlyRate, budget, notifyWhenOverBudget,
                             overBudgetNotificationPercentage, showBudgetToAll, costBudget,
                             costBudgetIncludeExpenses, fee, notes, startsOn, endsOn);
    SettingsKeys(code, isActive, isFixedFee, hourlyRate, budget, notifyWhenOverBudget,
                 overBudgetNotificationPercentage, showBudgetToAll, costBudget,
                 costBudgetIncludeExpenses, fee, notes, startsOn, endsOn);
    UpdateDistinct(clientId, name, isBillable, billBy, budgetBy, settings);
    c := Send(Helper, PATCH, ProjectPath(id), UpdateFields(clientId, name, isBillable, billBy, budgetBy, settings), false);
  }

  /** `delete($projectId)`: `httpDelete`. */
  method Delete(id: Value) returns (c: Call)
    ensures SendsBare(c, Helper, DELETE, ProjectPath(id), false)
  {
    c := Call(Helper, DELETE, ProjectPath(id), None, false);
  }
}
