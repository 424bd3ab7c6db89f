// The service classes: which one a paginated result remembers, the
// property its items sit under (`$path`) and the model its items become
// (`$modelClass`).

module Services {
  import opened Values

  datatype Service =
    | TimeEntries | ProjectTaskAssignments | ProjectUserAssignments | Tasks
    | Projects | Invoices | Estimates | Expenses | Clients | ClientContacts
    | InvoiceMessages | EstimateMessages | ExpenseCategories
    | InvoiceItemCategories | EstimateItemCategories | Roles
    | InvoicePayments | UserProjectAssignments

  /**
   * The service's `$path`. Only eight services declare it; reading it on
   * the others yields null.
   */
  function PathOf(s: Service): Value {
    match s
    case TimeEntries => Str("time_entries")
    case ProjectTaskAssignments => Str("task_assignments")
    case ProjectUserAssignments => Str("user_assignments")
    case Tasks => Str("tasks")
    case Estimates => Str("estimates")
    case Expenses => Str("expenses")
    case InvoiceItemCategories => Str("invoice_item_categories")
    case InvoicePayments => Str("invoice_payments")
    case _ => Null
  }

  const BaseModel := "Djam90\\Harvest\\Models\\Base"

  /** The service's `$modelClass`, `Base` unless the service overrides it. */
  function ModelClassOf(s: Service): string {
    match s
    case TimeEntries => "Djam90\\Harvest\\Models\\TimeEntry"
    case ProjectTaskAssignments => "Djam90\\Harvest\\Models\\ProjectTaskAssignment"
    case ProjectUserAssignments => "Djam90\\Harvest\\Models\\ProjectUserAssignment"
    case Tasks => "Djam90\\Harvest\\Models\\Task"
    case Estimates => "Djam90\\Harvest\\Models\\Estimate"
    case Expenses => "Djam90\\Harvest\\Models\\Expenses"
    case InvoiceItemCategories => "Djam90\\Harvest\\Models\\InvoiceItemCategory"
    case InvoicePayments => "Djam90\\Harvest\\Models\\InvoicePayment"
    case _ => BaseModel
  }
}
