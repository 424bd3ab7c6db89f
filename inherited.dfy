// BaseService's own getAll on the services that keep it. It calls
// `$this->get()` with no arguments, reads the items under `$this->path`
// and, past a first page, follows `next_page` with `$this->getPage(...)`,
// which none of these services defines.

module Inherited {
  import opened Values
  import opened Bodies
  import opened Paging
  import opened Services
  import BaseService
  import EstimateService
  import ExpenseService
  import ExpenseCategoryService
  import InvoiceItemCategoryService
  import InvoiceService
  import ClientService
  import ClientContactService
  import EstimateItemCategoryService
  import RoleService

  /** The services that declare their own getAll. */
  predicate OverridesGetAll(svc: Service) {
    svc in {TimeEntries, ProjectTaskAssignments, ProjectUserAssignments, Tasks, Projects}
  }

  /**
   * How `$this->get()` with no arguments goes. A get whose first parameter
   * has no default throws before any request; every other get makes its
   * call with its defaults: the Gateway for four services, the `httpGet`
   * helper for the other five, whose response is not transformed.
   */
  function FirstGet(svc: Service): (o: Outcome<Call>)
    requires !OverridesGetAll(svc)
    ensures o.Thrown? <==> svc in {InvoiceMessages, EstimateMessages, InvoicePayments, UserProjectAssignments}
    ensures o.Thrown? ==> o == Thrown(TooFewArguments)
    ensures o.Returned? ==> o.value.verb == GET
    ensures o.Returned? ==> (o.value.sender == Api <==> svc in {Estimates, Expenses, ExpenseCategories, InvoiceItemCategories})
    ensures o.Returned? ==> (o.value.shaped <==> PathOf(svc).Str?)
  {
    match svc
    case InvoiceMessages => Thrown(TooFewArguments)
    case EstimateMessages => Thrown(TooFewArguments)
    case InvoicePayments => Thrown(TooFewArguments)
    case UserProjectAssignments => Thrown(TooFewArguments)
    case Estimates =>
      Returned(CallOf(Api, GET, EstimateService.Path,
                      EstimateService.GetQuery(Null, Null, Null, Null, Null, Null, Null), true))
    case Expenses =>
      Returned(CallOf(Api, GET, ExpenseService.Path,
                      ExpenseService.GetQuery(Null, Null, Null, Null, Null, Null, Null, Null, Null), true))
    case ExpenseCategories =>
      Returned(CallOf(Api, GET, ExpenseCategoryService.Path,
                      ExpenseCategoryService.GetQuery(Null, Null, Null, Null), false))
    case InvoiceItemCategories =>
      Returned(CallOf(Api, GET, InvoiceItemCategoryService.Path,
                      InvoiceItemCategoryService.GetQuery(Null, Null, Null), true))
    case Invoices =>
      Returned(CallOf(Helper, GET, InvoiceService.Path,
                      InvoiceService.GetQuery(Null, Null, Null, Null, Null), false))
    case Clients =>
      Returned(CallOf(Helper, GET, ClientService.Path,
                      ClientService.GetQuery(Null, Null, ClientService.DefaultPage, ClientService.DefaultPerPage), false))
    case ClientContacts =>
      Returned(CallOf(Helper, GET, ClientContactService.Path,
                      ClientContactService.GetQuery(Null, Null, ClientContactService.DefaultPage,
                                                    ClientContactService.DefaultPerPage), false))
    case EstimateItemCategories =>
      Returned(CallOf(Helper, GET, EstimateItemCategoryService.Path,
                      EstimateItemCategoryService.GetQuery(Null, Null, Null), false))
    case Roles =>
      Returned(CallOf(Helper, GET, RoleService.Path, RoleService.GetQuery(Null, Null), false))
    case _ => assert false; Thrown(UndefinedMethod)
  }

  /**
   * The first request sends no data, every argument of get() being null,
   * except on the client and contact services, whose get() defaults to
   * page 1 of 100.
   */
  lemma FirstGetSendsNothing(svc: Service)
    requires !OverridesGetAll(svc) && FirstGet(svc).Returned?
    ensures svc !in {Clients, ClientContacts} ==> FirstGet(svc).value.body == Some(map[])
    ensures svc in {Clients, ClientContacts} ==>
      FirstGet(svc).value.body == Some(map["page" := Int(1), "per_page" := Int(100)])
  {
    match svc
    case Estimates => FillNone(EstimateService.GetQuery(Null, Null, Null, Null, Null, Null, Null));
    case Expenses => FillNone(ExpenseService.GetQuery(Null, Null, Null, Null, Null, Null, Null, Null, Null));
    case ExpenseCategories => FillNone(ExpenseCategoryService.GetQuery(Null, Null, Null, Null));
    case InvoiceItemCategories => FillNone(InvoiceItemCategoryService.GetQuery(Null, Null, Null));
    case Invoices => FillNone(InvoiceService.GetQuery(Null, Null, Null, Null, Null));
    case EstimateItemCategories => FillNone(EstimateItemCategoryService.GetQuery(Null, Null, Null));
    case Roles => FillNone(RoleService.GetQuery(Null, Null));
    case Clients =>
      var fields := ClientService.GetQuery(Null, Null, ClientService.DefaultPage, ClientService.DefaultPerPage);
      FillConforms(fields);
      ClientService.DefaultsOnly(Fill(fields), fields);
    case ClientContacts =>
      var fields := ClientContactService.GetQuery(Null, Null, ClientContactService.DefaultPage,
                                                  ClientContactService.DefaultPerPage);
      assert fields[..3][..2] == fields[..2] && fields[..2][..1] == fields[..1] && fields[..1][..0] == [];
      assert Fill(fields[..1]) == map["page" := Int(1)];
      assert Fill(fields[..2]) == map["page" := Int(1), "per_page" := Int(100)];
      assert Fill(fields) == Fill(fields[..3]) == Fill(fields[..2]);
  }

  /**
   * The services on which the model follows the inherited getAll: those
   * whose get() throws before any request, and those declaring the `$path`
   * getAll reads its items under. The others' get() returns an
   * untransformed response and getAll reads the property named by null.
   */
  predicate ReadsDeclaredPath(svc: Service) {
    !OverridesGetAll(svc) && (FirstGet(svc).Returned? ==> PathOf(svc).Str?)
  }

  /**
   * `getAll()` as BaseService defines it, on the services that keep it and
   * declare a `$path`. The first batch came through get()'s transformResult,
   * so its items are models, and getAll maps them again. A first batch
   * reporting more than one page and a next page sends the loop to the
   * undefined getPage.
   */
  function InheritedGetAll(svc: Service, server: Call -> Batch): (o: Outcome<Value>)
    requires ReadsDeclaredPath(svc)
    ensures o.Returned? ==> svc in {Estimates, Expenses, InvoiceItemCategories}
    ensures svc in {InvoiceMessages, EstimateMessages, InvoicePayments, UserProjectAssignments} ==>
      o == Thrown(TooFewArguments)
  {
    match FirstGet(svc)
    case Thrown(e) => Thrown(e)
    case Returned(c) =>
      var b := server(c);
      if b.totalPages > 1 && b.nextPage.Some? then Thrown(UndefinedMethod)
      else Returned(Coll(BaseService.ModelsOf(svc, BaseService.ModelsOf(svc, b.items))))
  }

  /**
   * When it returns, the inherited getAll returns what BaseService's walk
   * returns from the same first request, whatever `getPage` would have
   * fetched, and that walk made no follow-up request.
   */
  lemma InheritedIsTheWalk(svc: Service, server: Call -> Batch, page: int -> Call, fuel: nat)
    requires ReadsDeclaredPath(svc)
    requires InheritedGetAll(svc, server).Returned?
    ensures Some(InheritedGetAll(svc, server).value)
         == BaseService.Shaped(svc, Gather(n => server(page(n)), server(FirstGet(svc).value), fuel))
    ensures Fetched(n => server(page(n)), server(FirstGet(svc).value), fuel) == []
  {
    var b := server(FirstGet(svc).value);
    assert b.items + [] == b.items;
  }

  /**
   * Against a listing endpoint, the inherited getAll of Estimate, Expense
   * and InvoiceItemCategory returns every item, mapped to a model twice,
   * when the listing fits on the first page, and throws once it does not.
   */
  lemma InheritedGetAllListing(svc: Service, all: seq<Value>, default: nat)
    requires svc in {Estimates, Expenses, InvoiceItemCategories}
    requires default >= 1
    ensures |all| > default ==> InheritedGetAll(svc, c => Serve(all, default, c)) == Thrown(UndefinedMethod)
    ensures |all| <= default ==>
      InheritedGetAll(svc, c => Serve(all, default, c))
      == Returned(Coll(BaseService.ModelsOf(svc, BaseService.ModelsOf(svc, all))))
  {
    FirstGetSendsNothing(svc);
    var c := FirstGet(svc).value;
    assert RequestedPage(c) == 1 && RequestedSize(c, default) == default;
    assert Serve(all, default, c) == PageOf(all, default, 1);
    PageBounds(|all|, default, 1);
    assert (1 - 1) * default == 0 && 1 * default == default;
    if |all| <= default {
      assert all[0..Min(default, |all|)] == all;
    }
  }
}
