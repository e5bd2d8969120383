/** Values shared by the budgeting dashboard components. */
module Common {

  datatype Option<T> = None | Some(value: T)

  /** A JavaScript string field is truthy when it is present and not empty. */
  predicate Truthy(s: Option<string>) {
    s.Some? && s.value != ""
  }

  /** The notification a component dispatches: title, message and variant. */
  datatype Toast = Toast(title: string, message: string, variant: string)

  /** A Monthly_Budget__c record as the budget pickers receive it. */
  datatype MonthlyBudget = MonthlyBudget(id: string, name: string, monthYear: Option<string>)

  /** One entry of a combobox: the shown label and the record Id it selects. */
  datatype ComboOption = ComboOption(display: string, value: string)

  const MonthNames: seq<string> :=
    ["Jan", "Feb", "Mar", "Apr", "May", "Jun", "Jul", "Aug", "Sep", "Oct", "Nov", "Dec"]
}
