/** expenseForm: the new-expense form with its monthly-budget picker. */
module ExpenseEntry {
  import opened Common
  import opened ErrorMessages

  const MonthlyBudgetField: string := "Monthly_Budget__c"

  /** The combobox entries: the formatted month, or "Unknown" when there is none. */
  function PickerOptions(data: seq<MonthlyBudget>, format: string -> string): seq<ComboOption>
  {
    seq(|data|, i requires 0 <= i < |data| =>
      ComboOption(if Truthy(data[i].monthYear) then format(data[i].monthYear.value) else "Unknown", data[i].id))
  }

  /** The `fields` object of a submit event; `handleSubmit` writes into it. */
  class RecordFields {
    var values: map<string, Option<string>>

    constructor (values: map<string, Option<string>>)
      ensures this.values == values
    {
      this.values := values;
    }
  }

  class ExpenseForm {
    var budgetOptions: seq<ComboOption>
    var selectedBudgetId: Option<string>
    /** The field sets handed to the record-edit form's `submit`, in order. */
    var submissions: seq<map<string, Option<string>>>
    /** How many times the record-edit form was reset. */
    var formResets: nat
    var toasts: seq<Toast>

    constructor ()
      ensures budgetOptions == [] && selectedBudgetId == None
      ensures submissions == [] && formResets == 0 && toasts == []
    {
      budgetOptions := [];
      selectedBudgetId := None;
      submissions := [];
      formResets := 0;
      toasts := [];
    }

    /**
     * The wire handler of getMonthlyBudgets: one option per record, in order,
     * and the first record selected when there is one.
     */
    method WiredBudgets(data: Option<seq<MonthlyBudget>>, format: string -> string)
      modifies this`budgetOptions, this`selectedBudgetId
      ensures data.Some? ==> |budgetOptions| == |data.value|
      ensures data.Some? ==> forall i :: 0 <= i < |data.value| ==>
        budgetOptions[i].value == data.value[i].id &&
        budgetOptions[i].display == (if Truthy(data.value[i].monthYear) then format(data.value[i].monthYear.value) else "Unknown")
      ensures data.Some? ==> selectedBudgetId == (if |data.value| > 0 then Some(data.value[0].id) else old(selectedBudgetId))
      ensures data.None? ==> budgetOptions == old(budgetOptions) && selectedBudgetId == old(selectedBudgetId)
    {
      if data.Some? {
        budgetOptions := PickerOptions(data.value, format);
        if |data.value| > 0 {
          selectedBudgetId := Some(data.value[0].id);
        }
      }
    }

    /** `handleBudgetChange`: the selection becomes the event's value. */
    method HandleBudgetChange(value: Option<string>)
      modifies this`selectedBudgetId
      ensures selectedBudgetId == value
    {
      selectedBudgetId := value;
    }

    method ShowToast(title: string, message: string, variant: string)
      modifies this`toasts
      ensures toasts == old(toasts) + [Toast(title, message, variant)]
    {
      toasts := toasts + [Toast(title, message, variant)];
    }

    /** `handleError`: one error toast carrying the normalised message. */
    method HandleError(e: ErrorValue)
      modifies this`toasts
      ensures toasts == old(toasts) + [Toast("Error", Normalize(e), "error")]
    {
      var message := Normalize(e);
      ShowToast("Error", message, "error");
    }

    /**
     * `handleSubmit`: the selection is written into the submitted fields under
     * Monthly_Budget__c, every other field is left as it was, and the fields
     * are submitted.
     */
    method HandleSubmit(fields: RecordFields)
      modifies fields, this`submissions
      ensures fields.values == old(fields.values)[MonthlyBudgetField := selectedBudgetId]
      ensures submissions == old(submissions) + [fields.values]
    {
      fields.values := fields.values[MonthlyBudgetField := selectedBudgetId];
      submissions := submissions + [fields.values];
    }

    /** `handleSuccess`: a success toast naming the new record. */
    method HandleSuccess(id: string)
      modifies this`toasts
      ensures toasts == old(toasts) + [Toast("Success", "Expense saved successfully! Id: " + id, "success")]
    {
      ShowToast("Success", "Expense saved successfully! Id: " + id, "success");
    }

    /** `handleClear`: the form is reset, the selection cleared and an info toast shown. */
    method HandleClear()
      modifies this`formResets, this`selectedBudgetId, this`toasts
      ensures formResets == old(formResets) + 1
      ensures selectedBudgetId == None
      ensures toasts == old(toasts) + [Toast("Info", "Form cleared", "info")]
    {
      formResets := formResets + 1;
      selectedBudgetId := None;
      ShowToast("Info", "Form cleared", "info");
    }
  }
}
