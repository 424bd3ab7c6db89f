// TimeEntryService: listing, paging, creating, updating, restarting and
// stopping time entries. Every call goes through the gateway; `get` and
// `getById` hand their response to transformResult.

module TimeEntryService {
  import opened Values
  import opened Bodies
  import opened Paging
  import opened Services
  import BaseService

  const Path := "time_entries"

  /** `"time_entries/" . $timeEntryId`. */
  function EntryPath(id: Value): string {
    Path + "/" + Text(id)
  }

  /** The body of `get`: the three ids always, each filter and paging argument when not null. */
  function GetQuery(userId: Value, clientId: Value, projectId: Value, isBilled: Value, isRunning: Value,
                    updatedSince: Value, from: Value, to: Value, page: Value, perPage: Value): seq<Field> {
    [Always("user_id", userId), Always("client_id", clientId), Always("project_id", projectId),
     Optional("is_billed", isBilled), Optional("is_running", isRunning),
     Optional("updated_since", updatedSince), Optional("from", from), Optional("to", to),
     Optional("page", page), Optional("per_page", perPage)]
  }

  /** `get(...)`. */
  method Get(userId: Value, clientId: Value, projectId: Value, isBilled: Value, isRunning: Value,
             updatedSince: Value, from: Value, to: Value, page: Value, perPage: Value) returns (c: Call)
    ensures Sends(c, Api, GET, Path,
                  GetQuery(userId, clientId, projectId, isBilled, isRunning, updatedSince, from, to, page, perPage), true)
  {
    c := Send(Api, GET, Path,
              GetQuery(userId, clientId, projectId, isBilled, isRunning, updatedSince, from, to, page, perPage), true);
  }

  /** The call `getPage($userId, $clientId, $projectId, $page, $perPage)` makes. */
  function PageCall(userId: Value, clientId: Value, projectId: Value, page: Value, perPage: Value): Call {
    CallOf(Api, GET, Path, GetQuery(userId, clientId, projectId, Null, Null, Null, Null, Null, page, perPage), true)
  }

  /** `getPage(...)`: `get` with the ids and paging only, every filter null. */
  method GetPage(userId: Value, clientId: Value, projectId: Value, page: Value, perPage: Value) returns (c: Call)
    ensures Sends(c, Api, GET, Path,
                  GetQuery(userId, clientId, projectId, Null, Null, Null, Null, Null, page, perPage), true)
    ensures c == PageCall(userId, clientId, projectId, page, perPage)
  {
    c := Get(userId, clientId, projectId, Null, Null, Null, Null, Null, page, perPage);
    SendsOnly(c, Api, GET, Path, GetQuery(userId, clientId, projectId, Null, Null, Null, Null, Null, page, perPage), true);
  }

  /** `getLastPage($userId, $clientId, $projectId)`. */
  function LastPageOf(server: Call -> Batch, userId: Value, clientId: Value, projectId: Value): Batch {
    BaseService.GetLastPage(server, (p, s) => PageCall(userId, clientId, projectId, Int(p), Int(s)))
  }

  /** The inherited `getLastItem()`, whose `getLastPage()` passes no ids. */
  function LastItemOf(server: Call -> Batch): Value {
    BaseService.GetLastItem(TimeEntries, server, (p, s) => PageCall(Null, Null, Null, Int(p), Int(s)))
  }

  /**
   * What `getAll(...)` returns: InvalidArgumentException when all three
   * ids are null; otherwise the first batch fetched with every filter and
   * each later page fetched through `getPage`, which drops the filters.
   */
  function AllEntries(server: Call -> Batch, userId: Value, clientId: Value, projectId: Value,
                      isBilled: Value, isRunning: Value, updatedSince: Value, from: Value, to: Value,
                      fuel: nat): Outcome<Option<Value>> {
    if userId.Null? && clientId.Null? && projectId.Null? then Thrown(InvalidArgument)
    else
      var first := CallOf(Api, GET, Path,
                          GetQuery(userId, clientId, projectId, isBilled, isRunning, updatedSince, from, to, Null, Null), true);
      Returned(BaseService.Shaped(TimeEntries,
        Gather(n => server(PageCall(userId, clientId, projectId, Int(n), Null)), server(first), fuel)))
  }

  /** `getAll(...)`. */
  method GetAll(server: Call -> Batch, userId: Value, clientId: Value, projectId: Value,
                isBilled: Value, isRunning: Value, updatedSince: Value, from: Value, to: Value, fuel: nat)
    returns (r: Outcome<Option<Value>>)
    ensures r.Thrown? <==> userId.Null? && clientId.Null? && projectId.Null?
    ensures r == AllEntries(server, userId, clientId, projectId, isBilled, isRunning, updatedSince, from, to, fuel)
  {
    if userId.Null? && clientId.Null? && projectId.Null? {
      return Thrown(InvalidArgument);
    }
    var first := Get(userId, clientId, projectId, isBilled, isRunning, updatedSince, from, to, Null, Null);
    SendsOnly(first, Api, GET, Path,
              GetQuery(userId, clientId, projectId, isBilled, isRunning, updatedSince, from, to, Null, Null), true);
    var items, _ := Walk(n => server(PageCall(userId, clientId, projectId, Int(n), Null)), server(first), fuel);
    var shaped := BaseService.Finish(TimeEntries, items);
    r := Returned(shaped);
  }

  /** A page call asks the listing for the page and size it carries. */
  lemma PageCallAsks(userId: Value, clientId: Value, projectId: Value, page: Value, perPage: Value, default: nat)
    ensures RequestedPage(PageCall(userId, clientId, projectId, page, perPage))
         == if page.Int? && page.i >= 1 then page.i else 1
    ensures RequestedSize(PageCall(userId, clientId, projectId, page, perPage), default)
         == if perPage.Int? && perPage.i >= 1 then perPage.i else default
  {
    var fields := GetQuery(userId, clientId, projectId, Null, Null, Null, Null, Null, page, perPage);
    PageRequested(PageCall(userId, clientId, projectId, page, perPage), fields, 8);
    SizeRequested(PageCall(userId, clientId, projectId, page, perPage), fields, 9, default);
  }

  /**
   * Against a listing endpoint (which ignores the filters), getAll with at
   * least one id returns every time entry of the listing as a model, in
   * order, once the fuel covers the pages.
   */
  lemma AllEntriesListing(all: seq<Value>, default: nat, userId: Value, clientId: Value, projectId: Value,
                          isBilled: Value, isRunning: Value, updatedSince: Value, from: Value, to: Value, fuel: nat)
    requires default >= 1
    requires !(userId.Null? && clientId.Null? && projectId.Null?)
    requires fuel >= PageCount(|all|, default)
    ensures AllEntries(c => Serve(all, default, c), userId, clientId, projectId,
                       isBilled, isRunning, updatedSince, from, to, fuel)
         == Returned(Some(Coll(BaseService.ModelsOf(TimeEntries, BaseService.ModelsOf(TimeEntries, all)))))
  {
    var server := c => Serve(all, default, c);
    var fields := GetQuery(userId, clientId, projectId, isBilled, isRunning, updatedSince, from, to, Null, Null);
    var first := CallOf(Api, GET, Path, fields, true);
    PageRequested(first, fields, 8);
    SizeRequested(first, fields, 9, default);
    var fetch := n => server(PageCall(userId, clientId, projectId, Int(n), Null));
    forall n | n >= 1
      ensures fetch(n) == PageOf(all, default, n)
    {
      PageCallAsks(userId, clientId, projectId, Int(n), Null, default);
    }
    BaseService.GetAllListing(TimeEntries, all, default, fetch, server(first), fuel);
  }

  /** Against a listing endpoint, the inherited getLastItem returns its last entry as a model (null when empty). */
  lemma LastEntryListing(all: seq<Value>, default: nat)
    requires default >= 1
    ensures LastItemOf(c => Serve(all, default, c))
         == if |all| == 0 then Null else BaseService.ModelOf(TimeEntries, all[|all| - 1])
  {
    var server := c => Serve(all, default, c);
    var page := (p, s) => PageCall(Null, Null, Null, Int(p), Int(s));
    forall p | p >= 1
      ensures server(page(p, 1)) == PageOf(all, 1, p)
    {
      PageCallAsks(Null, Null, Null, Int(p), Int(1), default);
    }
    BaseService.LastItemListing(TimeEntries, all, server, page);
  }

  /** `getById($timeEntryId)`: a GET on the entry with no body. */
  method GetById(id: Value) returns (c: Call)
    ensures SendsBare(c, Api, GET, EntryPath(id), true)
  {
    c := Call(Api, GET, EntryPath(id), None, true);
  }

  /** The body of `createForDuration`. */
  function DurationFields(projectId: Value, taskId: Value, spentDate: Value, userId: Value,
                          hours: Value, notes: Value, externalReference: Value): seq<Field> {
    [Always("project_id", projectId), Always("task_id", taskId), Always("spent_date", spentDate),
     Optional("user_id", userId), Optional("hours", hours), Optional("notes", notes),
     Optional("external_reference", externalReference)]
  }

  /** `createForDuration(...)`. */
  method CreateForDuration(projectId: Value, taskId: Value, spentDate: Value, userId: Value,
                           hours: Value, notes: Value, externalReference: Value) returns (c: Call)
    ensures Sends(c, Api, POST, Path,
                  DurationFields(projectId, taskId, spentDate, userId, hours, notes, externalReference), false)
  {
    c := Send(Api, POST, Path, DurationFields(projectId, taskId, spentDate, userId, hours, notes, externalReference), false);
  }

  /** The body of `createForStartAndEndTime`. */
  function StartEndFields(projectId: Value, taskId: Value, spentDate: Value, userId: Value,
                          startedTime: Value, endedTime: Value, notes: Value, externalReference: Value): seq<Field> {
    [Always("project_id", projectId), Always("task_id", taskId), Always("spent_date", spentDate),
     Optional("user_id", userId), Optional("started_time", startedTime), Optional("ended_time", endedTime),
     Optional("notes", notes), Optional("external_reference", externalReference)]
  }

  /** `createForStartAndEndTime(...)`. */
  method CreateForStartAndEndTime(projectId: Value, taskId: Value, spentDate: Value, userId: Value,
                                  startedTime: Value, endedTime: Value, notes: Value,
                                  externalReference: Value) returns (c: Call)
    ensures Sends(c, Api, POST, Path,
                  StartEndFields(projectId, taskId, spentDate, userId, startedTime, endedTime, notes, externalReference), false)
  {
    c := Send(Api, POST, Path,
              StartEndFields(projectId, taskId, spentDate, userId, startedTime, endedTime, notes, externalReference), false);
  }

  /** The steps `update` performs, as written: `spentDate` is stored under `task_id`. */
  function UpdateSteps(projectId: Value, taskId: Value, spentDate: Value, startedTime: Value,
                       endedTime: Value, hours: Value, notes: Value, externalReference: Value): seq<Field> {
    [Optional("project_id", projectId), Optional("task_id", taskId), Optional("task_id", spentDate),
     Optional("started_time", startedTime), Optional("ended_time", endedTime), Optional("hours", hours),
     Optional("notes", notes), Optional("external_reference", externalReference)]
  }

  /** What the as-written steps amount to: one `task_id` entry, `spentDate` when not null, else `taskId`. */
  function UpdateEffect(projectId: Value, taskId: Value, spentDate: Value, startedTime: Value,
                        endedTime: Value, hours: Value, notes: Value, externalReference: Value): seq<Field> {
    [Optional("project_id", projectId), Optional("task_id", if spentDate.Null? then taskId else spentDate),
     Optional("started_time", startedTime), Optional("ended_time", endedTime), Optional("hours", hours),
     Optional("notes", notes), Optional("external_reference", externalReference)]
  }

  /**
   * `update(...)` as written: the body never holds `spent_date`, and a
   * non-null `spentDate` replaces `taskId` under `task_id`.
   */
  method Update(id: Value, projectId: Value, taskId: Value, spentDate: Value, startedTime: Value,
                endedTime: Value, hours: Value, notes: Value, externalReference: Value) returns (c: Call)
    ensures Sends(c, Api, PATCH, EntryPath(id),
                  UpdateEffect(projectId, taskId, spentDate, startedTime, endedTime, hours, notes, externalReference), false)
  {
    var steps := UpdateSteps(projectId, taskId, spentDate, startedTime, endedTime, hours, notes, externalReference);
    var data := Build(steps);
    UpdateCollapses(projectId, taskId, spentDate, startedTime, endedTime, hours, notes, externalReference);
    FillConforms(UpdateEffect(projectId, taskId, spentDate, startedTime, endedTime, hours, notes, externalReference));
    c := Call(Api, PATCH, EntryPath(id), Some(data), false);
  }

  /** The two `task_id` steps collapse into one. */
  lemma UpdateCollapses(projectId: Value, taskId: Value, spentDate: Value, startedTime: Value,
                        endedTime: Value, hours: Value, notes: Value, externalReference: Value)
    ensures Fill(UpdateSteps(projectId, taskId, spentDate, startedTime, endedTime, hours, notes, externalReference))
         == Fill(UpdateEffect(projectId, taskId, spentDate, startedTime, endedTime, hours, notes, externalReference))
  {
    var p := [Optional("project_id", projectId)];
    var q := [Optional("started_time", startedTime), Optional("ended_time", endedTime), Optional("hours", hours),
              Optional("notes", notes), Optional("external_reference", externalReference)];
    assert UpdateSteps(projectId, taskId, spentDate, startedTime, endedTime, hours, notes, externalReference)
        == p + [Optional("task_id", taskId), Optional("task_id", spentDate)] + q;
    assert UpdateEffect(projectId, taskId, spentDate, startedTime, endedTime, hours, notes, externalReference)
        == p + [Optional("task_id", if spentDate.Null? then taskId else spentDate)] + q;
    Overwrite(p, "task_id", taskId, spentDate, q);
  }

  /**
   * The discrepancy: an update moving an entry to another day with a new
   * task sends the date as the task and no date at all.
   */
  lemma UpdateLosesSpentDate(id: Value, c: Call)
    requires Sends(c, Api, PATCH, EntryPath(id),
                   UpdateEffect(Null, Int(7), Str("2019-01-31"), Null, Null, Null, Null, Null), false)
    ensures "spent_date" !in c.body.value
    ensures Lookup(c.body.value, "task_id") == Some(Str("2019-01-31"))
  {
    var fields := UpdateEffect(Null, Int(7), Str("2019-01-31"), Null, Null, Null, Null, Null);
    assert fields[1].key == "task_id";
    if "spent_date" in c.body.value {
      var i :| 0 <= i < |fields| && fields[i].key == "spent_date";
      assert false;
    }
  }

  /** The body `update` evidently means to send: `spentDate` under `spent_date`. */
  function UpdateFields(projectId: Value, taskId: Value, spentDate: Value, startedTime: Value,
                        endedTime: Value, hours: Value, notes: Value, externalReference: Value): seq<Field> {
    [Optional("project_id", projectId), Optional("task_id", taskId), Optional("spent_date", spentDate),
     Optional("started_time", startedTime), Optional("ended_time", endedTime), Optional("hours", hours),
     Optional("notes", notes), Optional("external_reference", externalReference)]
  }

  /**
   * `update(...)` as intended: each argument under its own key when not
   * null, so the task and the date both arrive unchanged.
   */
  method UpdateIntended(id: Value, projectId: Value, taskId: Value, spentDate: Value, startedTime: Value,
                        endedTime: Value, hours: Value, notes: Value, externalReference: Value) returns (c: Call)
    ensures Sends(c, Api, PATCH, EntryPath(id),
                  UpdateFields(projectId, taskId, spentDate, startedTime, endedTime, hours, notes, externalReference), false)
    ensures !taskId.Null? ==> Lookup(c.body.value, "task_id") == Some(taskId)
    ensures !spentDate.Null? ==> Lookup(c.body.value, "spent_date") == Some(spentDate)
  {
    var fields := UpdateFields(projectId, taskId, spentDate, startedTime, endedTime, hours, notes, externalReference);
    c := Send(Api, PATCH, EntryPath(id), fields, false);
    assert Lookup(c.body.value, fields[1].key) == Expected(fields[1]);
    assert Lookup(c.body.value, fields[2].key) == Expected(fields[2]);
  }

  /** `delete($timeEntryId)`. */
  method Delete(id: Value) returns (c: Call)
    ensures SendsBare(c, Api, DELETE, EntryPath(id), false)
  {
    c := Call(Api, DELETE, EntryPath(id), None, false);
  }

  /** `restart($timeEntryId)`: PATCH with an empty body. */
  method Restart(id: Value) returns (c: Call)
    ensures Sends(c, Api, PATCH, EntryPath(id) + "/restart", [], false)
  {
    c := Send(Api, PATCH, EntryPath(id) + "/restart", [], false);
  }

  /** `stop($timeEntryId)`: PATCH with an empty body. */
  method Stop(id: Value) returns (c: Call)
    ensures Sends(c, Api, PATCH, EntryPath(id) + "/stop", [], false)
  {
    c := Send(Api, PATCH, EntryPath(id) + "/stop", [], false);
  }
}
