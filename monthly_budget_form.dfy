/** monthlyBudgetForm: the form that creates a Monthly_Budget__c record. */
module MonthlyBudgetEntry {
  import opened Common
  import opened ErrorMessages

  /** A lightning-input-field: `reset` restores the value it started with. */
  class InputField {
    const initial: Option<string>
    var value: Option<string>

    constructor (initial: Option<string>)
      ensures this.initial == initial && value == initial
    {
      this.initial := initial;
      value := initial;
    }

    method Reset()
      modifies this
      ensures value == initial
    {
      value := initial;
    }
  }

  class MonthlyBudgetForm {
    /** The input fields `querySelectorAll('lightning-input-field')` finds. */
    const inputFields: seq<InputField>
    var toasts: seq<Toast>

    constructor (inputFields: seq<InputField>)
      ensures this.inputFields == inputFields && toasts == []
    {
      this.inputFields := inputFields;
      toasts := [];
    }

    /** `handleClear`: every input field is reset. */
    method HandleClear()
      modifies inputFields
      ensures forall i :: 0 <= i < |inputFields| ==> inputFields[i].value == inputFields[i].initial
    {
      for i := 0 to |inputFields|
        invariant forall j :: 0 <= j < i ==> inputFields[j].value == inputFields[j].initial
      {
        inputFields[i].Reset();
      }
    }

    /** `handleError`: one toast titled "Error", variant "error", carrying the normalised message. */
    method HandleError(e: ErrorValue)
      modifies this`toasts
      ensures toasts == old(toasts) + [Toast("Error", Normalize(e), "error")]
    {
      var message := Normalize(e);
      toasts := toasts + [Toast("Error", message, "error")];
    }

    /** `handleSuccess`: a success toast, then every input field is reset. */
    method HandleSuccess()
      modifies this`toasts, inputFields
      ensures toasts == old(toasts) + [Toast("Success", "Budget created successfully", "success")]
      ensures forall i :: 0 <= i < |inputFields| ==> inputFields[i].value == inputFields[i].initial
    {
      toasts := toasts + [Toast("Success", "Budget created successfully", "success")];
      HandleClear();
    }
  }
}
