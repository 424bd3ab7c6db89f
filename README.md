# laravel-harvest, modelled in Dafny

A model of the Laravel client for the Harvest time-tracking REST API. The
model covers four parts:

- **Request construction.** Every service method becomes the call it hands
  to its sender. A call records:
  - the sender: the Gateway, or the `httpGet`/`httpPost`/`httpPatch`/`httpDelete`/`patch`
    helpers the services call on themselves;
  - the verb and the path;
  - the `$data` array;
  - whether the response goes through `transformResult`.

  The `$data` arrays are built by a loop over a table of steps (`Bodies.Build`).
  An `Always` step is an entry of the array literal. An `Optional` step is
  `if (!is_null($x)) $data[k] = $x;`. Every call is checked against an
  independent specification, `Bodies.Conforms`:
  - each unconditional key is present with its argument, null included;
  - each guarded key is present exactly when its argument is not null;
  - no other key is present.
- **The Gateway.** It covers:
  - the credential gate;
  - the default headers;
  - the URL and `json` payload of each verb;
  - the bare paths of `delete` and `getWithoutBase`.
- **Result shaping.** `transformResult` sorts a response into three cases:
  - a paginated envelope becomes a `PaginatedCollection` whose items are models;
  - a collection is mapped element by element;
  - anything else becomes one model.

  Models hydrate themselves from a record. The model variant and the plain-object
  variant treat date fields differently, and the model states exactly where.
- **Walking pages.** It covers:
  - the `getAll` loops, which follow `next_page` and merge each page's items;
  - `getLastPage` and `getLastItem`, which probe page 1 at one item per page;
  - where a `PaginatedCollection`'s navigation lands for each service.
  - how BaseService's own getAll ends on the services that keep it.

  The server is an abstract function from calls to batches
  (`items`, `total_pages`, `next_page`). The PHP loops have no bound, so a
  `fuel` parameter limits the follow-up fetches, and `None` means the walk
  had not ended. The end-to-end lemmas use a listing endpoint, `Paging.Serve`. It answers a call
  with the page and page size the call's `page` and `per_page` entries ask
  for. A `page` entry that is absent or not a positive integer counts as page 1, and a
  `per_page` entry of that kind as the listing's default size. Against it, the lemmas state what each walk returns.

Files: `values.dfy` (PHP values, string conversion), `bodies.dfy` (step
tables, `Build`, `Conforms`, calls), `paging.dfy` (walks, listing),
`hydration.dfy`, `services.dfy` (per-service `$path` and `$modelClass`),
`pagination.dfy` (`PaginatedCollection`), `base.dfy` (`BaseService`),
`gateway.dfy`, `navigation.dfy`, `inherited.dfy` (BaseService's getAll on the services
that keep it), `recipients.dfy`, and one file per service.

## Model

| member | source | states |
|---|---|---|
| Values.Text | src/Services/TaskService.php:103 | string conversion in `"tasks/" . $taskId`: null gives "", a string gives itself, an integer its decimal digits |
| Values.IntTextInjective | src/Services/TaskService.php:103 | distinct integers convert to distinct strings |
| Values.PathsDistinct | src/Services/TaskService.php:103 | distinct integer ids appended to one prefix give distinct item paths |
| Values.Collect | src/BaseService.php:94 | `collect($items)`: a list or collection gives its elements in order, null gives none, a scalar gives itself alone |
| Bodies.Build | src/Services/TaskService.php:39-45 | the loop of assignments builds the array the step table describes; when the keys are distinct that array conforms to the table (unconditional keys present, guarded keys present exactly when not null, nothing else) |
| Bodies.FillConforms | src/Services/ProjectService.php:26-32 | the array built from a table with distinct keys conforms to that table |
| Bodies.ConformsUnique | src/Services/ProjectService.php:26-32 | two arrays conforming to one table are equal: the specification pins the body down |
| Bodies.Overwrite | src/Services/TimeEntryService.php:311-312 | two guarded writes of one key act as a single write of the later argument when it is not null, else of the earlier |
| Bodies.Send | src/Services/ClientService.php:26-36 | the call carries the sender, verb and path given, and a body conforming to the table |
| Bodies.Lone | src/Services/ClientService.php:71-77 | when only one step writes, the body is that single entry |
| Bodies.SendItem | src/Services/InvoiceService.php:214-232 | the body has the single key `line_items`, a one-element list whose element conforms to the item's table |
| Paging.Walk | src/BaseService.php:42-52 | the getAll loop returns the gathered items: page 1's alone when `total_pages <= 1`, else page 1's followed by every followed page's, in fetch order; page 1's items are always a prefix. It also returns the page numbers it fetched, exactly `Fetched`: none when `total_pages <= 1`, even if `next_page` is set |
| Paging.FollowEnds | src/BaseService.php:47-50 | when each `next_page` is larger than the page it came from and at most `last`, the loop ends once the fuel covers the remaining pages |
| Paging.FollowStuck | src/BaseService.php:47-50 | when every fetched page reports a next page, the loop never ends, whatever the fuel |
| Paging.FollowListing | src/BaseService.php:47-50 | following `next_page` on a listing from page `p` gathers every item after page `p`, in order |
| Paging.FollowedListing | src/BaseService.php:47-50 | following a listing from page `p` asks for pages `p + 1` to the last, each once, in order |
| Paging.GatherListing | src/BaseService.php:42-52 | starting from page 1 of a listing, getAll's items are the whole listing in order, and after the first request it fetches exactly pages 2 to the last |
| Paging.LastPageListing | src/BaseService.php:60-70 | with one item per page, getLastPage yields a page holding exactly the last item (an empty page on an empty listing) |
| Hydration.Hydrate | src/Models/Base.php:33-40 | the instance has the class asked for, and its properties are `original_data` plus every member of the input, each processed |
| Hydration.HydratedKeys | src/Models/Base.php:35-39 | no member is dropped: the properties are the input's keys plus `original_data` |
| Hydration.KeepsOriginal | src/Models/Base.php:35 | `original_data` is the input unchanged, unless the input has a member of that name, which the loop writes afterwards |
| Hydration.ModelFields | src/Models/Base.php:42-53 | on a model, a date field with a value becomes a date, a null date field stays null, any other member is unchanged |
| Hydration.PlainObjectFields | src/Objects/BaseObject.php:21-32 | on a plain object, `created_at` and `updated_at` always become dates, null included; every other member is unchanged |
| Hydration.ModelVersusObject | src/Objects/BaseObject.php:23-26 | the two processValue variants differ exactly on a null `created_at`/`updated_at` and on a non-null value of the other fourteen date fields |
| Pagination.CopyOnto | src/Objects/PaginatedCollection.php:26-29 | the constructor's loop leaves the starting properties overridden by every property of the input |
| Pagination.PaginatedCollection.constructor | src/Objects/PaginatedCollection.php:21-30 | the collection keeps the service and holds every input property, `path` included |
| Pagination.CopiedProps | src/Objects/PaginatedCollection.php:21-30 | each input property is readable under its own name; a declared property the input lacks reads null |
| Pagination.CollectionOf | src/Objects/PaginatedCollection.php:32-35 | `getCollection` is the input property named by `path` |
| Pagination.Navigation | src/Objects/PaginatedCollection.php:37-60 | next, previous and first page ask the same service for `next_page`, `previous_page`, `first_page` at `per_page`; `getLastPage` asks for what `getPage(last_page, per_page)` would |
| Navigation.Resolve | src/Objects/PaginatedCollection.php:57-60 | `$service->getPage($page, $perPage)` returns a call exactly for the task and the two project-assignment services; on the time-entry service two arguments are too few |
| Navigation.TaskNextPage | src/Objects/PaginatedCollection.php:37-40 | a task collection's next page is the listing's page `next_page` at the collection's `per_page` |
| Navigation.TaskAssignmentNextPage | src/Objects/PaginatedCollection.php:37-40 | on a task-assignment collection, the next page number is used as the project id, `per_page` as the page, and the page size is the server default |
| Navigation.UserAssignmentNextPage | src/Objects/PaginatedCollection.php:37-40 | the same shift of arguments on a user-assignment collection |
| Navigation.TimeEntryNavigationThrows | src/Objects/PaginatedCollection.php:37-60 | all four navigation methods of a time-entry collection throw too-few-arguments |
| Inherited.FirstGet | src/BaseService.php:42 | `$this->get()` with no arguments: the message, payment and user-assignment services throw too-few-arguments before any request; the others make a GET with get()'s defaults, through the Gateway for Estimate, Expense, ExpenseCategory and InvoiceItemCategory, through `httpGet` otherwise; the response is transformed exactly when the service declares a `$path` |
| Inherited.FirstGetSendsNothing | src/BaseService.php:42 | that first request carries an empty array, every argument of get() being null, except on the client and contact services, whose defaults send `{page: 1, per_page: 100}` |
| Inherited.InheritedGetAll | src/BaseService.php:40-53 | returns only on Estimate, Expense and InvoiceItemCategory; the message, payment and user-assignment services throw too-few-arguments |
| Inherited.InheritedIsTheWalk | src/BaseService.php:40-53 | when it returns, it is BaseService's walk from the same first request, and no follow-up page was fetched |
| Inherited.InheritedGetAllListing | src/BaseService.php:46-48 | against a listing, the inherited getAll returns every item, mapped to a model twice, when the listing fits on page 1, and throws undefined-method on `getPage` once it does not |
| BaseService.ModelsOf | src/BaseService.php:102-105 | mapping keeps length and order, each element becoming `mapToModel` of the item at the same place |
| BaseService.MapToModel | src/BaseService.php:118-123 | an instance of the service's model class, hydrated from the item |
| BaseService.MapEach | src/BaseService.php:103-105 | the `map` loop yields the element-wise models |
| BaseService.TransformResult | src/BaseService.php:88-110 | a result with non-null `total_entries` becomes a fresh PaginatedCollection of the same service holding the envelope with its items as models and `path` set; else a collection is mapped element-wise; else one model |
| BaseService.EnvelopeContents | src/BaseService.php:92-99 | the envelope keeps every other property, its items become models in order, and `path` names the service's path |
| BaseService.PaginatedItems | src/BaseService.php:93-100 | the collection returned lists one model per envelope item, in order |
| BaseService.GetAll | src/BaseService.php:40-53 | getAll returns the gathered items, each mapped to a model by get()/getPage() and again by its own transformResult, and the page numbers it passes to getPage (`Fetched`); a first batch with `total_pages <= 1` is the whole answer and no follow-up request is made, even when it reports a `next_page` |
| BaseService.ModelsOfAppend | src/BaseService.php:49 | mapping merged pages to models is merging each page's models, so get()'s per-page mapping equals one mapping of the merged records |
| BaseService.Finish | src/BaseService.php:52 | `transformResult` on the merged models, which get()/getPage() made of the records, maps each of them a second time |
| BaseService.Rehydrated | src/BaseService.php:52 | the second mapping of a model keeps its keys, makes `original_data` the raw record again, turns a date field's value into a date of a date, and leaves every other field unchanged |
| BaseService.LastItemListing | src/BaseService.php:77-80 | against a listing at one item per page, getLastItem is the model getPage made of the last item, or null on an empty listing |
| BaseService.FollowAgrees | src/BaseService.php:47-50 | a fetch that yields the listing's pages walks the listing |
| BaseService.GetAllListing | src/BaseService.php:40-53 | against a listing, getAll returns every item in order, mapped to a model twice, and fetches exactly pages 2 to the last after the first request |
| Api.Headers | src/Api/Gateway.php:26-32 | exactly three headers: `Authorization` is `Bearer ` followed by the token, `Harvest-Account-Id` the account id, `User-Agent` `Harvest API App` |
| Api.Gateway.Configure | src/Api/Gateway.php:18-32 | the three configuration values are stored as read, with the headers |
| Api.Gateway.Connect | src/Api/Gateway.php:16-35 | construction throws exactly when the uri, the token or the account id is null; otherwise the gateway has credentials and the headers |
| Api.Gateway.Based | src/Api/Gateway.php:47 | the target of get/post/patch is the base URI followed by the path |
| Api.Gateway.Dispatch | src/Api/Gateway.php:45-77 | a Gateway call keeps its verb; get/post/patch target base URI plus path and carry the data as `json`; delete targets the bare path with no body |
| Api.GateOnlyRejectsNull | src/Api/Gateway.php:79-84 | empty strings pass the gate; any single null fails it |
| Api.BaseOnlyPrefixesBodies | src/Api/Gateway.php:37-77 | `delete` and `getWithoutBase` do not depend on the base URI (and `getWithoutBase` ignores its data); get/post/patch targets differ when the base URIs differ |
| TimeEntryService.Get | src/Services/TimeEntryService.php:43-76 | GET `time_entries`: `user_id`, `client_id`, `project_id` always, null included; each filter and paging key exactly when not null; response transformed |
| TimeEntryService.GetPage | src/Services/TimeEntryService.php:88-91 | `get` with the three ids, page and size, and null for every filter |
| TimeEntryService.PageCallAsks | src/Services/TimeEntryService.php:88-91 | a page call asks the listing for its page and page size |
| TimeEntryService.GetAll | src/Services/TimeEntryService.php:126-152 | throws InvalidArgumentException, before any request, exactly when all three ids are null; else the first request carries the filters and later pages go through `getPage` without them |
| TimeEntryService.AllEntriesListing | src/Services/TimeEntryService.php:126-152 | against a listing, with some id given, getAll returns every entry in order, mapped to a model twice |
| TimeEntryService.LastEntryListing | src/Services/TimeEntryService.php:101-111 | the inherited getLastItem, through this getLastPage, returns the model of the listing's last entry (null when empty) |
| TimeEntryService.GetById | src/Services/TimeEntryService.php:164-169 | GET `time_entries/<id>` with no data, response transformed |
| TimeEntryService.CreateForDuration | src/Services/TimeEntryService.php:194-219 | POST: `project_id`, `task_id`, `spent_date` always; the rest exactly when not null |
| TimeEntryService.CreateForStartAndEndTime | src/Services/TimeEntryService.php:244-271 | POST: `project_id`, `task_id`, `spent_date` always; the rest exactly when not null |
| TimeEntryService.Update | src/Services/TimeEntryService.php:295-321 | as written: the body has no `spent_date`; `task_id` holds `spentDate` when not null, else `taskId` |
| TimeEntryService.UpdateCollapses | src/Services/TimeEntryService.php:311-312 | the two `task_id` writes amount to one |
| TimeEntryService.UpdateLosesSpentDate | src/Services/TimeEntryService.php:312 | moving entry with task 7 to 2019-01-31 sends the date as `task_id` and no date |
| TimeEntryService.UpdateIntended | src/Services/TimeEntryService.php:295-321 | corrected: every argument under its own key when not null; task and date both arrive |
| TimeEntryService.Delete | src/Services/TimeEntryService.php:336-341 | DELETE `time_entries/<id>` with no body |
| TimeEntryService.Restart | src/Services/TimeEntryService.php:353-360 | PATCH `time_entries/<id>/restart` with an empty body |
| TimeEntryService.Stop | src/Services/TimeEntryService.php:372-379 | PATCH `time_entries/<id>/stop` with an empty body |
| ProjectTaskAssignmentService.Get | src/Services/ProjectTaskAssignmentService.php:43-58 | GET `projects/<id>/task_assignments`; each key exactly when not null |
| ProjectTaskAssignmentService.GetPage | src/Services/ProjectTaskAssignmentService.php:68-71 | `get` for the project with page and size only |
| ProjectTaskAssignmentService.PageCallAsks | src/Services/ProjectTaskAssignmentService.php:68-71 | a page call asks the listing for its page and page size |
| ProjectTaskAssignmentService.LastPageListing | src/Services/ProjectTaskAssignmentService.php:79-89 | against a listing, getLastPage (probe at size 1, second request only past one page) yields the last assignment alone |
| ProjectTaskAssignmentService.GetAll | src/Services/ProjectTaskAssignmentService.php:97-114 | throws before any request exactly when the project id is null; else walks `next_page` through `getPage` |
| ProjectTaskAssignmentService.AllAssignmentsListing | src/Services/ProjectTaskAssignmentService.php:97-114 | against a listing, getAll returns every assignment in order, mapped to a model twice |
| ProjectTaskAssignmentService.GetById | src/Services/ProjectTaskAssignmentService.php:128-134 | GET `projects/<p>/task_assignments/<id>` with no data |
| ProjectTaskAssignmentService.Create | src/Services/ProjectTaskAssignmentService.php:152-166 | POST: `task_id` always, the others exactly when not null |
| ProjectTaskAssignmentService.Update | src/Services/ProjectTaskAssignmentService.php:187-207 | PATCH: each key exactly when not null, so all-null arguments send an empty body |
| ProjectTaskAssignmentService.Delete | src/Services/ProjectTaskAssignmentService.php:221-227 | DELETE the item path with no body |
| ProjectUserAssignmentService.Get | src/Services/ProjectUserAssignmentService.php:38-53 | GET `projects/<id>/user_assignments`; each key exactly when not null |
| ProjectUserAssignmentService.GetPage | src/Services/ProjectUserAssignmentService.php:63-66 | `get` for the project with page and size only |
| ProjectUserAssignmentService.PageCallAsks | src/Services/ProjectUserAssignmentService.php:63-66 | a page call asks the listing for its page and page size |
| ProjectUserAssignmentService.GetAll | src/Services/ProjectUserAssignmentService.php:74-91 | throws before any request exactly when the project id is null; else walks `next_page` through `getPage` |
| ProjectUserAssignmentService.AllAssignmentsListing | src/Services/ProjectUserAssignmentService.php:74-91 | against a listing, getAll returns every assignment in order, mapped to a model twice |
| ProjectUserAssignmentService.GetById | src/Services/ProjectUserAssignmentService.php:105-111 | GET `projects/<p>/user_assignments/<id>` with no data |
| ProjectUserAssignmentService.Create | src/Services/ProjectUserAssignmentService.php:130-147 | POST: `user_id` always, the others exactly when not null |
| ProjectUserAssignmentService.Update | src/Services/ProjectUserAssignmentService.php:167-183 | PATCH: each key exactly when not null, so all-null arguments send an empty body |
| ProjectUserAssignmentService.Delete | src/Services/ProjectUserAssignmentService.php:198-204 | DELETE the item path with no body |
| TaskService.Get | src/Services/TaskService.php:35-51 | GET `tasks`: `page` and `per_page` always, null included; `is_active`, `updated_since` exactly when not null |
| TaskService.GetPage | src/Services/TaskService.php:60-63 | the same call as `get(null, null, $page, $perPage)` |
| TaskService.QueryAsks | src/Services/TaskService.php:35-51 | a `get` call asks the listing for the page and size it carries |
| TaskService.GetAll | src/Services/TaskService.php:73-89 | as written: every follow-up is `getPage($isActive, $updatedSince)`, one fixed call |
| TaskService.AllTasksNeverEnds | src/Services/TaskService.php:84 | against a listing of more than one page, with usual filter values, getAll never ends |
| TaskService.GetAllIntended | src/Services/TaskService.php:73-89 | corrected: each follow-up asks for `next_page`, filters kept |
| TaskService.AllTasksIntendedListing | src/Services/TaskService.php:73-89 | corrected getAll returns every task in order, mapped to a model twice |
| TaskService.GetById | src/Services/TaskService.php:101-106 | GET `tasks/<id>` with no data |
| TaskService.Create | src/Services/TaskService.php:122-144 | POST: `name` always, the others exactly when not null |
| TaskService.Update | src/Services/TaskService.php:163-185 | PATCH `tasks/<id>`: each key exactly when not null |
| TaskService.Delete | src/Services/TaskService.php:198-203 | DELETE `tasks/<id>` with no body |
| ProjectService.Get | src/Services/ProjectService.php:22-38 | GET `projects` through the helper: each of the five keys exactly when not null |
| ProjectService.PageCallAsks | src/Services/ProjectService.php:22-38 | a `get` call asks the listing for the page and size it carries |
| ProjectService.GetAll | src/Services/ProjectService.php:52-66 | as written: follows `next_page` while it is not null, but returns the first batch's projects |
| ProjectService.AllProjectsDropsLaterPages | src/Services/ProjectService.php:61 | on a listing of more than one page, getAll returns only page 1, not the listing |
| ProjectService.GetAllIntended | src/Services/ProjectService.php:52-66 | corrected: every page's projects, merged in order |
| ProjectService.AllProjectsIntendedListing | src/Services/ProjectService.php:52-66 | corrected getAll returns every project of a listing in order |
| ProjectService.GetById | src/Services/ProjectService.php:78-83 | GET `projects/<id>` with no data |
| ProjectService.CreateDistinct | src/Services/ProjectService.php:130-158 | `create` writes each of its nineteen keys once |
| ProjectService.Create | src/Services/ProjectService.php:119-161 | POST: the five leading keys always, each of the fourteen others exactly when not null |
| ProjectService.Update | src/Services/ProjectService.php:201-243 | PATCH `projects/<id>`: every key exactly when not null |
| ProjectService.Delete | src/Services/ProjectService.php:257-262 | DELETE `projects/<id>` with no body |
| InvoiceService.Get | src/Services/InvoiceService.php:23-37 | GET `invoices`: each key exactly when not null |
| InvoiceService.GetById | src/Services/InvoiceService.php:49-54 | GET `invoices/<id>` with no data |
| InvoiceService.Create | src/Services/InvoiceService.php:92-119 | POST: `client_id` always, the other thirteen exactly when not null |
| InvoiceService.Update | src/Services/InvoiceService.php:161-188 | PATCH: `client_id` too only when not null, although positional; the others likewise |
| InvoiceService.CreateLineItem | src/Services/InvoiceService.php:207-233 | POST `{line_items: [item]}`: `kind`, `unit_price` always, the others exactly when not null |
| InvoiceService.UpdateLineItem | src/Services/InvoiceService.php:253-280 | PATCH `{line_items: [item]}`: `id` always, the others exactly when not null |
| InvoiceService.DeleteLineItem | src/Services/InvoiceService.php:293-307 | PATCH exactly `{line_items: [{id, _destroy: true}]}` to `invoices/<id>` |
| InvoiceService.Delete | src/Services/InvoiceService.php:318-323 | DELETE `invoices/<id>` with no body |
| EstimateService.Get | src/Services/EstimateService.php:27-47 | GET `estimates`: each key exactly when not null; response transformed |
| EstimateService.GetById | src/Services/EstimateService.php:59-64 | GET `estimates/<id>` with no data, transformed |
| EstimateService.Create | src/Services/EstimateService.php:100-123 | POST: `client_id` always, the others exactly when not null |
| EstimateService.Update | src/Services/EstimateService.php:164-187 | PATCH `estimates/<id>`: every key exactly when not null |
| EstimateService.OnlyLineItems | src/Services/EstimateService.php:209-219 | an update whose only non-null argument is the line items sends exactly `{line_items: [item]}` |
| EstimateService.CreateLineItem | src/Services/EstimateService.php:205-220 | exactly `{line_items: [item]}` with all six item keys, null ones included |
| EstimateService.UpdateLineItem | src/Services/EstimateService.php:239-256 | exactly `{line_items: [item]}` with `id` and all six keys, nulls included |
| EstimateService.DeleteLineItem | src/Services/EstimateService.php:269-278 | exactly `{line_items: [{id, _destroy: true}]}` |
| EstimateService.Delete | src/Services/EstimateService.php:290-295 | DELETE `estimates/<id>` with no body |
| ExpenseService.Get | src/Services/ExpenseService.php:31-50 | GET `expenses`: each of the nine keys exactly when not null |
| ExpenseService.GetById | src/Services/ExpenseService.php:62-67 | GET `expenses/<id>` with no data, transformed |
| ExpenseService.Create | src/Services/ExpenseService.php:89-117 | POST: `project_id`, `expense_category_id`, `spent_date` always; the others exactly when not null |
| ExpenseService.Update | src/Services/ExpenseService.php:141-171 | PATCH `expenses/<id>`: every key, `delete_receipt` included, exactly when not null |
| ExpenseService.Delete | src/Services/ExpenseService.php:182-187 | DELETE `expenses/<id>` with no body |
| ClientService.Get | src/Services/ClientService.php:22-37 | GET `clients`: `page` and `per_page` always with their arguments; filters exactly when not null |
| ClientService.GetFirst | src/Services/ClientService.php:22-29 | with the defaults, the body is exactly page 1 and 100 per page |
| ClientService.DefaultsOnly | src/Services/ClientService.php:26-32 | with both filters null only the paging entries remain |
| ClientService.GetById | src/Services/ClientService.php:48-53 | GET `clients/<id>` with no data |
| ClientService.Create | src/Services/ClientService.php:67-83 | POST: `name` always, the others exactly when not null; with only a name the body is exactly `{name}` |
| ClientService.Update | src/Services/ClientService.php:85-100 | PATCH `clients/<id>`: each key exactly when not null |
| ClientService.Delete | src/Services/ClientService.php:102-107 | DELETE `clients/<id>` with no body |
| ClientContactService.Get | src/Services/ClientContactService.php:28-41 | GET `contacts`: `page` and `per_page` always; filters exactly when not null |
| ClientContactService.GetForClient | src/Services/ClientContactService.php:28-35 | with the defaults, page 1 and 100 per page are sent |
| ClientContactService.GetById | src/Services/ClientContactService.php:52-57 | GET `contacts/<id>` with no data |
| ClientContactService.Create | src/Services/ClientContactService.php:75-93 | POST: `client_id`, `first_name` always, the six others exactly when not null |
| ClientContactService.Update | src/Services/ClientContactService.php:112-129 | PATCH: `client_id` absent exactly when null, although positional; the others exactly when not null |
| ClientContactService.Delete | src/Services/ClientContactService.php:139-144 | DELETE `contacts/<id>` with no body |
| InvoiceMessageService.Get | src/Services/InvoiceMessageService.php:33-45 | GET `invoices/<id>/messages`: each key exactly when not null |
| InvoiceMessageService.Create | src/Services/InvoiceMessageService.php:70-93 | POST: `recipients` always, unchanged; the others exactly when not null |
| InvoiceMessageService.Delete | src/Services/InvoiceMessageService.php:106-111 | DELETE `invoices/<id>/messages/<message>` |
| InvoiceMessageService.MarkDraftInvoiceAsSent | src/Services/InvoiceMessageService.php:124-133 | POST exactly `{event_type: "send"}` |
| InvoiceMessageService.MarkOpenInvoiceAsClosed | src/Services/InvoiceMessageService.php:146-155 | POST exactly `{event_type: "close"}` |
| InvoiceMessageService.ReopenClosedInvoice | src/Services/InvoiceMessageService.php:168-177 | POST exactly `{event_type: "re-open"}` |
| InvoiceMessageService.MarkOpenInvoiceAsDraft | src/Services/InvoiceMessageService.php:190-199 | POST exactly `{event_type: "draft"}` |
| EstimateMessageRecipient.ToArray | src/Objects/EstimateMessageRecipient.php:34-40 | exactly the keys `name` and `email`, holding the constructor's arguments |
| EstimateMessageRecipient.ArrayRoundTrip | src/Objects/EstimateMessageRecipient.php:23-40 | the array gives back the recipient it came from |
| EstimateMessageRecipient.Arrays | src/Services/EstimateMessageService.php:72-74 | `array_map` of `toArray`: same length, each element the array of the recipient at that place |
| EstimateMessageRecipient.ArraysInjective | src/Services/EstimateMessageService.php:72-74 | different recipient lists give different arrays |
| EstimateMessageService.Get | src/Services/EstimateMessageService.php:32-47 | GET `estimates/<id>/messages`: each key exactly when not null |
| EstimateMessageService.Create | src/Services/EstimateMessageService.php:66-83 | POST: `recipients` is the recipients' arrays in order; the others exactly when not null |
| EstimateMessageService.Delete | src/Services/EstimateMessageService.php:96-101 | DELETE `estimates/<id>/messages/<message>` |
| EstimateMessageService.UpdateEstimateMessage | src/Services/EstimateMessageService.php:175-184 | POST exactly `{event_type}` to the messages path |
| EstimateMessageService.MarkDraftEstimateAsSent | src/Services/EstimateMessageService.php:114-117 | posts exactly `{event_type: "send"}` |
| EstimateMessageService.MarkOpenEstimateAsAccepted | src/Services/EstimateMessageService.php:130-133 | posts exactly `{event_type: "accept"}` |
| EstimateMessageService.MarkOpenEstimateAsDeclined | src/Services/EstimateMessageService.php:146-149 | posts exactly `{event_type: "decline"}` |
| EstimateMessageService.ReopenClosedEstimate | src/Services/EstimateMessageService.php:162-165 | posts exactly `{event_type: "re-open"}` |
| ExpenseCategoryService.Get | src/Services/ExpenseCategoryService.php:36-49 | GET `expense_categories`: each of the four keys exactly when not null |
| ExpenseCategoryService.GetById | src/Services/ExpenseCategoryService.php:63-70 | GET `expense_categories/<id>` with an empty body |
| ExpenseCategoryService.Create | src/Services/ExpenseCategoryService.php:86-100 | POST: `name` always, the others exactly when not null |
| ExpenseCategoryService.Update | src/Services/ExpenseCategoryService.php:119-133 | PATCH: each key exactly when not null |
| ExpenseCategoryService.Delete | src/Services/ExpenseCategoryService.php:145-150 | DELETE `expense_categories/<id>` |
| InvoiceItemCategoryService.Get | src/Services/InvoiceItemCategoryService.php:38-49 | GET `invoice_item_categories`: each key exactly when not null; transformed |
| InvoiceItemCategoryService.GetById | src/Services/InvoiceItemCategoryService.php:63-70 | GET the item path with an empty body, transformed |
| InvoiceItemCategoryService.Create | src/Services/InvoiceItemCategoryService.php:83-92 | POST exactly `{name}` |
| InvoiceItemCategoryService.Update | src/Services/InvoiceItemCategoryService.php:107-116 | PATCH exactly `{name}` to the collection path, no id |
| InvoiceItemCategoryService.Delete | src/Services/InvoiceItemCategoryService.php:131-136 | DELETE `invoice_item_categories/<id>` |
| EstimateItemCategoryService.Get | src/Services/EstimateItemCategoryService.php:34-45 | GET `estimate_item_categories`: each key exactly when not null |
| EstimateItemCategoryService.GetById | src/Services/EstimateItemCategoryService.php:59-66 | GET the item path with an empty body |
| EstimateItemCategoryService.Create | src/Services/EstimateItemCategoryService.php:79-88 | POST exactly `{name}` |
| EstimateItemCategoryService.Update | src/Services/EstimateItemCategoryService.php:103-112 | PATCH exactly `{name}` to the collection path, no id |
| EstimateItemCategoryService.Delete | src/Services/EstimateItemCategoryService.php:127-132 | DELETE `estimate_item_categories/<id>` |
| RoleService.Get | src/Services/RoleService.php:28-38 | GET `roles`: `page`, `per_page` exactly when not null |
| RoleService.GetById | src/Services/RoleService.php:49-54 | GET `roles/<id>` with no data |
| RoleService.Create | src/Services/RoleService.php:67-78 | POST: `name` always, `user_ids` exactly when not null |
| RoleService.Update | src/Services/RoleService.php:94-105 | PATCH `roles/<id>`: `name` always, even null; `user_ids` exactly when not null |
| RoleService.Delete | src/Services/RoleService.php:117-122 | DELETE `roles/<id>` |
| InvoicePaymentService.Get | src/Services/InvoicePaymentService.php:33-45 | GET `invoices/<id>/payments`: each key exactly when not null; transformed |
| InvoicePaymentService.Create | src/Services/InvoicePaymentService.php:60-72 | POST: `amount` always, `paid_at` and `notes` exactly when not null |
| InvoicePaymentService.Delete | src/Services/InvoicePaymentService.php:85-90 | DELETE `invoices/<id>/payments/<payment>` |
| UserProjectAssignmentService.Get | src/Services/UserProjectAssignmentService.php:29-40 | GET `/users/<id>/project_assignments`, leading slash kept; each key exactly when not null |
| UserProjectAssignmentService.GetForCurrentUser | src/Services/UserProjectAssignmentService.php:60-65 | GET `users/me/project_assignments` with no data; page and size ignored |

## Left out

- The HTTP transport (Guzzle), JSON decoding of responses and `Response::toObject` are not modelled. A call is described by the request it would send. A server is an abstract function from calls to batches.
- Carbon parsing is an uninterpreted constructor `Date(value)`. Parsing a null in `BaseObject` (which Carbon reads as "now") is a `Date(Null)`.
- Laravel wiring is not part of this model: the service provider, `HarvestService` with its `__get`/`__call` dispatch, and the `config()` reads in the Gateway constructor. The Gateway takes the three configuration values as arguments instead.
- `UserService`, `CompanyService` and `Models/Project` are not part of this model.
- `httpGet`, `httpPost`, `httpPatch`, `httpDelete` and `patch` are not defined in `BaseService`. The model reads them as abstract sends: a call through them carries sender `Helper` and is answered by the same abstract server as a Gateway call, and nothing beyond that is assumed about what they do with the response.
- Paging.Follow: the PHP loops have no bound; the model bounds follow-up fetches by `fuel`, and `None` stands for a walk that had not ended.
- BaseService.GetAll: a batch's items stand for the records of the page. get() and getPage() pass the envelope through transformResult, so what `$batch->{$this->path}` yields, and what `merge` joins, is a collection of those records as models. The model states that by mapping the gathered records twice (`BaseService.Shaped`, `BaseService.Rehydrated`). It does not build the intermediate PaginatedCollection of each batch.
- BaseService.GetAll: its `page` parameter stands for `$this->getPage($batch->next_page)`. Only the four services that override getAll define a getPage; for the services that keep BaseService's getAll, `Inherited.InheritedGetAll` states what happens.
- Inherited.InheritedGetAll: ExpenseCategoryService, InvoiceService, ClientService, ClientContactService, EstimateItemCategoryService and RoleService keep BaseService's getAll, but the model follows it only to its first request (`Inherited.FirstGet`). Their get() does not transform the response, and none of them declares a `$path`, so getAll reads the property named by null. What PHP makes of that is not modelled.
- Hydration.Process: `new Carbon($value)` throws on a value it cannot parse (an integer, a boolean, a malformed string). The model builds `Date(value)` for any non-null value of a date field.
- Hydration.Members: `foreach` over a PHP list visits its integer indexes as keys. The model gives a list no members, because records decode to objects or string-keyed arrays.
- BaseService.TransformResult: PHP rewrites the items and `path` of `$result` in place, so the caller's object changes too. The model builds a new property map and does not capture that aliasing.
- TimeEntryService.LastEntryListing and ProjectTaskAssignmentService.LastPageListing are stated only for a listing at one item per page. The probe and the second request both ask for size 1.
- Values.Text: floats, objects, collections and dates convert to "" here. PHP would print floats and fail on most objects. Paths only append ids and the token.
- Values.Collect: collecting an associative array or an object keeps keys in PHP. Here it gives no items, because envelopes list their items as JSON arrays.
- Pagination.PaginatedCollection.constructor: the service travels beside the data rather than inside it.
- Navigation.Resolve: the services that define no `getPage` throw `UndefinedMethod`. PHP raises an error for a call to an undefined method.

## Findings

| source | as written | input that shows it | evidently intended | confidence | as-written member | corrected member |
|---|---|---|---|---|---|---|
| src/Services/TimeEntryService.php:312 | `$data['task_id'] = $spentDate` | `update(id, null, 7, "2019-01-31")` sends `task_id: "2019-01-31"` and no `spent_date` | `$data['spent_date'] = $spentDate` | high; not executed | TimeEntryService.UpdateLosesSpentDate | TimeEntryService.UpdateIntended |
| src/Services/ProjectService.php:61 | `array_merge($projects, $batch->projects)`, result discarded | a listing of more than one page: getAll returns page 1 only | `$projects = array_merge(...)` | high; not executed | ProjectService.AllProjectsDropsLaterPages | ProjectService.AllProjectsIntendedListing |
| src/BaseService.php:48 | `$this->getPage($batch->next_page)`, a method none of the services keeping this getAll defines | Estimate, Expense or InvoiceItemCategory against a listing longer than one page: getAll throws undefined-method | follow `next_page` with the service's own get | high; not executed | Inherited.InheritedGetAllListing | BaseService.GetAllListing |
| src/Services/TaskService.php:84 | `$this->getPage($isActive, $updatedSince, $batch->next_page)` against `getPage($page, $perPage)` | a listing of more than one page, `isActive` true: every follow-up asks for page 1 and the loop never ends | ask for `next_page` and keep the filters | high; not executed | TaskService.AllTasksNeverEnds | TaskService.AllTasksIntendedListing |
