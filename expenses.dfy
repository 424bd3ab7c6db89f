// ExpenseService: listing, creating, updating and deleting expenses.
// Calls go through the Gateway; `get` and `getById` hand the response to
// transformResult.

module ExpenseService {
  import opened Values
  import opened Bodies

  const Path := "expenses"

  /** `"expenses/" . $expenseId`. */
  function ExpensePath(id: Value): string {
    Path + "/" + Text(id)
  }

  /** The body of `get`: each argument when not null, `from` and `to` before `updated_since`. */
  function GetQuery(userId: Value, clientId: Value, projectId: Value, isBilled: Value, updatedSince: Value,
                    from: Value, to: Value, page: Value, perPage: Value): seq<Field> {
    [Optional("user_id", userId), Optional("client_id", clientId), Optional("project_id", projectId),
     Optional("is_billed", isBilled), Optional("from", from), Optional("to", to),
     Optional("updated_since", updatedSince), Optional("page", page), Optional("per_page", perPage)]
  }

  /** `get(...)`. */
  method Get(userId: Value, clientId: Value, projectId: Value, isBilled: Value, updatedSince: Value, from: Value,
             to: Value, page: Value, perPage: Value) returns (c: Call)
    ensures Sends(c, Api, GET, Path,
                  GetQuery(userId, clientId, projectId, isBilled, updatedSince, from, to, page, perPage), true)
  {
    c := Send(Api, GET, Path, GetQuery(userId, clientId, projectId, isBilled, updatedSince, from, to, page, perPage),
              true);
  }

  /** `getById($expenseId)`: a Gateway `get` with no data. */
  method GetById(id: Value) returns (c: Call)
    ensures SendsBare(c, Api, GET, ExpensePath(id), true)
  {
    c := Call(Api, GET, ExpensePath(id), None, true);
  }

  /** The body of `create`: project, category and date always, the others when not null. */
  function CreateFields(projectId: Value, expenseCategoryId: Value, spentDate: Value, userId: Value, units: Value,
                        totalCost: Value, notes: Value, billable: Value, receipt: Value): seq<Field> {
    [Always("project_id", projectId), Always("expense_category_id", expenseCategoryId),
     Always("spent_date", spentDate), Optional("user_id", userId), Optional("units", units),
     Optional("total_cost", totalCost), Optional("notes", notes), Optional("billable", billable),
     Optional("receipt", receipt)]
  }

  /** `create($projectId, $expenseCategoryId, $spentDate, ...)`: a Gateway `post`. */
  method Create(projectId: Value, expenseCategoryId: Value, spentDate: Value, userId: Value, units: Value,
                totalCost: Value, notes: Value, billable: Value, receipt: Value) returns (c: Call)
    ensures Sends(c, Api, POST, Path, CreateFields(projectId, expenseCategoryId, spentDate, userId, units, totalCost,
                                                   notes, billable, receipt), false)
  {
    c := Send(Api, POST, Path, CreateFields(projectId, expenseCategoryId, spentDate, userId, units, totalCost, notes,
                                            billable, receipt), false);
  }

  /** The body of `update`: each argument when not null, `delete_receipt` included. */
  function UpdateFields(projectId: Value, expenseCategoryId: Value, spentDate: Value, userId: Value, units: Value,
                        totalCost: Value, notes: Value, billable: Value, receipt: Value,
                        deleteReceipt: Value): seq<Field> {
    [Optional("project_id", projectId), Optional("expense_category_id", expenseCategoryId),
     Optional("spent_date", spentDate), Optional("user_id", userId), Optional("units", units),
     Optional("total_cost", totalCost), Optional("notes", notes), Optional("billable", billable),
     Optional("receipt", receipt), Optional("delete_receipt", deleteReceipt)]
  }

  /** `update($expenseId, ...)`: a Gateway `patch`. */
  method Update(id: Value, projectId: Value, expenseCategoryId: Value, spentDate: Value, userId: Value, units: Value,
                totalCost: Value, notes: Value, billable: Value, receipt: Value, deleteReceipt: Value)
    returns (c: Call)
    ensures Sends(c, Api, PATCH, ExpensePath(id),
                  UpdateFields(projectId, expenseCategoryId, spentDate, userId, units, totalCost, notes, billable,
                               receipt, deleteReceipt), false)
  {
    c := Send(Api, PATCH, ExpensePath(id), UpdateFields(projectId, expenseCategoryId, spentDate, userId, units,
                                                        totalCost, notes, billable, receipt, deleteReceipt), false);
  }

  /** `delete($expenseId)`: a Gateway `delete`. */
  method Delete(id: Value) returns (c: Call)
    ensures SendsBare(c, Api, DELETE, ExpensePath(id), false)
  {
    c := Call(Api, DELETE, ExpensePath(id), None, false);
  }
}
