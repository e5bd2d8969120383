/**
 * expenseManager: the expense table with its edit/delete row actions and
 * edit modal, and a line chart of this year's monthly expense totals.
 */
module ExpenseManagement {
  import opened Common
  import opened Charts
  import opened ErrorMessages

  // ---------------------------------------------------------------------
  // The monthly totals line

  /** One row of getMonthlyExpenseTotals: a 1-based month number and its total. */
  datatype MonthTotal = MonthTotal(month: int, total: int)

  /**
   * The total the last row for array index `k` (month `k + 1`) wrote, if any:
   * `totals[monthIndex] = d.total` overwrites, so the last such row wins.
   */
  function LastWrite(data: seq<MonthTotal>, k: int): (r: Option<int>)
    ensures r.Some? ==> exists j :: (0 <= j < |data| && data[j].month - 1 == k && data[j].total == r.value &&
      forall l :: j < l < |data| ==> data[l].month - 1 != k)
    ensures r.None? ==> forall j :: 0 <= j < |data| ==> data[j].month - 1 != k
  {
    if data == [] then None
    else if data[|data| - 1].month - 1 == k then Some(data[|data| - 1].total)
    else
      var r := LastWrite(data[..|data| - 1], k);
      assert forall j :: 0 <= j < |data| - 1 ==> data[..|data| - 1][j] == data[j];
      r
  }

  /**
   * The array's length after the writes: it starts at `n`, and a write to an
   * index at or past the end grows it to that index plus one. A negative
   * index names a property, not an element, and leaves the length alone.
   */
  function Extent(data: seq<MonthTotal>, n: nat): nat
  {
    if data == [] then n
    else
      var e := Extent(data[..|data| - 1], n);
      var k := data[|data| - 1].month - 1;
      if k >= e then k + 1 else e
  }

  /** What the chart reads at index `k`: the last write, else 0 inside the labels, else a hole. */
  function ExpectedPoint(data: seq<MonthTotal>, n: nat, k: nat): Point
  {
    match LastWrite(data, k)
    case Some(v) => Value(v)
    case None => if k < n then Value(0) else Hole
  }

  lemma {:induction false} ExtentBounds(data: seq<MonthTotal>, n: nat, k: nat)
    requires k >= Extent(data, n)
    ensures k >= n && LastWrite(data, k).None?
  {
    if data != [] {
      ExtentBounds(data[..|data| - 1], n, k);
    }
  }

  /**
   * `loadChartData`'s series: the labels are the month names from January to
   * the current month; the totals start as one 0 per label and each row
   * overwrites its month's slot, so the last row of a month wins and a month
   * with no row stays 0. A month past the labels grows the array, leaving holes.
   */
  method MonthTotals(data: seq<MonthTotal>, currentMonth: nat) returns (labels: seq<string>, totals: seq<Point>)
    requires currentMonth < 12
    ensures labels == MonthNames[..currentMonth + 1]
    ensures |totals| == Extent(data, |labels|)
    ensures forall k :: 0 <= k < |totals| ==> totals[k] == ExpectedPoint(data, |labels|, k)
  {
    labels := MonthNames[..currentMonth + 1];
    totals := seq(|labels|, _ => Value(0));
    var i := 0;
    while i < |data|
      invariant 0 <= i <= |data|
      invariant |totals| == Extent(data[..i], |labels|)
      invariant forall k :: 0 <= k < |totals| ==> totals[k] == ExpectedPoint(data[..i], |labels|, k)
    {
      var d := data[i];
      var monthIndex := d.month - 1;
      ghost var before, after := data[..i], data[..i + 1];
      assert after[..|after| - 1] == before;
      if monthIndex >= 0 {
        if monthIndex < |totals| {
          totals := totals[monthIndex := Value(d.total)];
        } else {
          var grown := totals + seq(monthIndex - |totals|, _ => Hole);
          forall k: nat | |totals| <= k < monthIndex ensures ExpectedPoint(after, |labels|, k) == Hole {
            ExtentBounds(before, |labels|, k);
          }
          totals := grown + [Value(d.total)];
        }
      }
      i := i + 1;
    }
    assert data[..|data|] == data;
  }

  /** When every month number lies in 1..n the array keeps its n slots: no holes. */
  lemma {:induction false} InRangeMonthsKeepLength(data: seq<MonthTotal>, n: nat)
    requires forall j :: 0 <= j < |data| ==> 1 <= data[j].month <= n
    ensures Extent(data, n) == n
  {
    if data != [] {
      InRangeMonthsKeepLength(data[..|data| - 1], n);
    }
  }

  /**
   * Rows written later for a month replace everything written to it before:
   * once `later` holds a row for month `k + 1`, the rows in `earlier` no longer
   * matter for that slot, and their totals are not added to it.
   */
  lemma {:induction false} LaterRowsOverwrite(earlier: seq<MonthTotal>, later: seq<MonthTotal>, n: nat, k: nat)
    requires exists j :: 0 <= j < |later| && later[j].month - 1 == k
    ensures ExpectedPoint(earlier + later, n, k) == ExpectedPoint(later, n, k)
  {
    var all := earlier + later;
    var last := |later| - 1;
    assert all[|all| - 1] == later[last];
    if later[last].month - 1 != k {
      var j :| 0 <= j < |later| && later[j].month - 1 == k;
      var shorter := later[..last];
      assert shorter[j].month - 1 == k;
      assert all[..|all| - 1] == earlier + shorter;
      LaterRowsOverwrite(earlier, shorter, n, k);
    }
  }

  // ---------------------------------------------------------------------
  // The expense table

  /** An Expense__c record; `budget` is the related Monthly_Budget__r's Month_Year__c, when related. */
  datatype Expense = Expense(
    id: string, date: Option<string>, amount: int, category: string,
    description: string, budget: Option<string>)

  /** A table row: the record's fields plus the formatted BudgetMonth column. */
  datatype ExpenseRow = ExpenseRow(expense: Expense, budgetMonth: string)

  /** `data.map(exp => ({...exp, BudgetMonth: ...}))`. */
  function TableRows(data: seq<Expense>, format: string -> string): seq<ExpenseRow>
  {
    seq(|data|, i requires 0 <= i < |data| =>
      ExpenseRow(data[i], if data[i].budget.Some? then format(data[i].budget.value) else ""))
  }

  class ExpenseManager {
    var expenses: Option<seq<ExpenseRow>>
    var isLoading: bool
    var isEditModalOpen: bool
    var selectedRecordId: Option<string>
    var chart: Chart?
    var chartJsInitialized: bool
    var loadsStarted: nat
    /** How many times getMonthlyExpenseTotals was called. */
    var totalsRequests: nat
    /** How many times getExpenses was called imperatively to reload the table. */
    var reloadRequests: nat
    /** The record Ids handed to `deleteRecord`, in order. */
    var deleteRequests: seq<string>
    /** The toasts dispatched, in order. */
    var toasts: seq<Toast>
    ghost var history: seq<Chart>

    ghost predicate Valid()
      reads this, history
    {
      OnlyLastLive(history, chart) && loadsStarted == (if chartJsInitialized then 1 else 0)
    }

    constructor ()
      ensures Valid()
      ensures expenses == None && isLoading && !isEditModalOpen && selectedRecordId == None
      ensures chart == null && !chartJsInitialized && loadsStarted == 0 && history == []
      ensures totalsRequests == 0 && reloadRequests == 0 && deleteRequests == [] && toasts == []
    {
      expenses := None;
      isLoading := true;
      isEditModalOpen := false;
      selectedRecordId := None;
      chart := null;
      chartJsInitialized := false;
      loadsStarted := 0;
      totalsRequests := 0;
      reloadRequests := 0;
      deleteRequests := [];
      toasts := [];
      history := [];
    }

    method ShowToast(title: string, message: string, variant: string)
      modifies this`toasts
      ensures toasts == old(toasts) + [Toast(title, message, variant)]
    {
      toasts := toasts + [Toast(title, message, variant)];
    }

    /** `handleError`: one error toast carrying the normalised message. */
    method HandleError(e: ErrorValue)
      modifies this`toasts
      ensures toasts == old(toasts) + [Toast("Error", Normalize(e), "error")]
    {
      var message := Normalize(e);
      ShowToast("Error", message, "error");
    }

    /** The wire handler of getExpenses: the table rows, or an error toast. */
    method WiredExpenses(data: Option<seq<Expense>>, error: Option<ErrorValue>, format: string -> string)
      modifies this`isLoading, this`expenses, this`toasts
      ensures !isLoading
      ensures data.Some? ==> expenses == Some(TableRows(data.value, format)) && toasts == old(toasts)
      ensures data.None? && error.Some? ==>
        expenses == old(expenses) && toasts == old(toasts) + [Toast("Error", Normalize(error.value), "error")]
      ensures data.None? && error.None? ==> expenses == old(expenses) && toasts == old(toasts)
    {
      isLoading := true;
      if data.Some? {
        expenses := Some(TableRows(data.value, format));
      } else if error.Some? {
        HandleError(error.value);
      }
      isLoading := false;
    }

    /** `renderedCallback`: starts the library load the first time only. */
    method RenderedCallback()
      requires Valid()
      modifies this`chartJsInitialized, this`loadsStarted
      ensures Valid()
      ensures chartJsInitialized && loadsStarted == 1
    {
      if chartJsInitialized {
        return;
      }
      chartJsInitialized := true;
      loadsStarted := loadsStarted + 1;
    }

    /** `loadChartData`: asks for the monthly totals. */
    method LoadChartData()
      modifies this`totalsRequests
      ensures totalsRequests == old(totalsRequests) + 1
    {
      totalsRequests := totalsRequests + 1;
    }

    /** The library load succeeded: `.then(() => this.loadChartData())`. */
    method OnLibraryLoaded()
      modifies this`totalsRequests
      ensures totalsRequests == old(totalsRequests) + 1
    {
      LoadChartData();
    }

    /**
     * The totals arrived: the previous chart is destroyed and a line chart of
     * the totals built. There is no guard on empty data or on the flag.
     * `libraryPresent` says whether `window.Chart` is defined; when it is not
     * (totals reloaded after a delete that finished before the library load),
     * the construction throws and `.catch` hands `failure`, the TypeError
     * raised, to `handleError`. A TypeError has no `body` and a non-empty
     * `message`, so the toast shows that message.
     */
    method ReceiveMonthlyTotals(data: seq<MonthTotal>, currentMonth: nat, libraryPresent: bool, failure: ErrorValue)
      requires Valid() && currentMonth < 12
      requires failure.body == NoBody && Truthy(failure.message)
      modifies this`chart, this`history, history, this`toasts
      ensures Valid()
      ensures old(chart) != null ==> old(chart).destroyed
      ensures libraryPresent ==> fresh(chart) && history == old(history) + [chart] && !chart.destroyed
      ensures libraryPresent ==> toasts == old(toasts)
      ensures libraryPresent ==> chart.config.TotalsLine? && chart.config.labels == MonthNames[..currentMonth + 1]
      ensures libraryPresent ==> |chart.config.points| == Extent(data, currentMonth + 1)
      ensures libraryPresent ==> forall k :: 0 <= k < |chart.config.points| ==>
        chart.config.points[k] == ExpectedPoint(data, currentMonth + 1, k)
      ensures !libraryPresent ==> chart == old(chart) && history == old(history)
      ensures !libraryPresent ==> toasts == old(toasts) + [Toast("Error", Normalize(failure), "error")]
      ensures !libraryPresent ==> Normalize(failure) == failure.message.value
    {
      var labels, totals := MonthTotals(data, currentMonth);
      var next := ReplaceChart(chart, TotalsLine(labels, totals), libraryPresent);
      if next.Some? {
        chart := next.value;
        history := history + [next.value];
      } else {
        HandleError(failure);
      }
    }

    /**
     * `handleRowAction`: "edit" selects the row and opens the modal,
     * "delete" hands the row to `deleteRecord`, any other action does nothing.
     */
    method HandleRowAction(actionName: string, rowId: string)
      modifies this`selectedRecordId, this`isEditModalOpen, this`deleteRequests
      ensures actionName == "edit" ==>
        selectedRecordId == Some(rowId) && isEditModalOpen && deleteRequests == old(deleteRequests)
      ensures actionName == "delete" ==>
        selectedRecordId == old(selectedRecordId) && isEditModalOpen == old(isEditModalOpen) &&
        deleteRequests == old(deleteRequests) + [rowId]
      ensures actionName != "edit" && actionName != "delete" ==>
        selectedRecordId == old(selectedRecordId) && isEditModalOpen == old(isEditModalOpen) &&
        deleteRequests == old(deleteRequests)
    {
      if actionName == "edit" {
        selectedRecordId := Some(rowId);
        isEditModalOpen := true;
      } else if actionName == "delete" {
        DeleteRecord(rowId);
      }
    }

    /** `deleteRecord`: the confirmation and the remote delete are not modelled; the request is recorded. */
    method DeleteRecord(recordId: string)
      modifies this`deleteRequests
      ensures deleteRequests == old(deleteRequests) + [recordId]
    {
      deleteRequests := deleteRequests + [recordId];
    }

    /**
     * The remote delete succeeded: a success toast, then getExpenses is
     * called to reload the table (its answer is `OnExpensesReloaded`).
     */
    method OnDeleted()
      modifies this`toasts, this`reloadRequests
      ensures toasts == old(toasts) + [Toast("Success", "Expense deleted successfully", "success")]
      ensures reloadRequests == old(reloadRequests) + 1
    {
      ShowToast("Success", "Expense deleted successfully", "success");
      reloadRequests := reloadRequests + 1;
    }

    /** getExpenses answered after a delete or an edit: new table rows, then `loadChartData`. */
    method OnExpensesReloaded(data: seq<Expense>, format: string -> string)
      modifies this`expenses, this`totalsRequests
      ensures expenses == Some(TableRows(data, format))
      ensures totalsRequests == old(totalsRequests) + 1
    {
      expenses := Some(TableRows(data, format));
      LoadChartData();
    }

    /**
     * `handleEditSuccess`: a success toast, the modal closes, and getExpenses
     * is called to reload the table (its answer is `OnExpensesReloaded`);
     * the selection stays.
     */
    method HandleEditSuccess()
      modifies this`toasts, this`isEditModalOpen, this`reloadRequests
      ensures toasts == old(toasts) + [Toast("Success", "Expense updated successfully", "success")]
      ensures !isEditModalOpen
      ensures reloadRequests == old(reloadRequests) + 1
    {
      ShowToast("Success", "Expense updated successfully", "success");
      isEditModalOpen := false;
      reloadRequests := reloadRequests + 1;
    }

    /** `closeEditModal`: the modal closes and the selection is cleared. */
    method CloseEditModal()
      modifies this`isEditModalOpen, this`selectedRecordId
      ensures !isEditModalOpen && selectedRecordId == None
    {
      isEditModalOpen := false;
      selectedRecordId := None;
    }
  }
}
