/** The employee's expense page: the fetched claims copied into display records,
    the search over them, and the four figures at the top of the page. */
module EmployeeExpensesPage {
  import opened Wrappers
  import opened Seqs
  import opened Text
  import opened Search
  import opened Payroll
  import opened ExpenseStats

  /** What the page shows: the searched list and the four stat cards. */
  datatype ExpensesView = ExpensesView(
    filtered: seq<Expense>,
    totalSubmitted: nat,
    pendingAmount: int,
    approvedAmount: int,
    pendingClaims: nat)

  /** One fetched claim copied field by field into the page's record. */
  function CopyExpense(e: Expense): Expense
  {
    Expense(e.id, e.employeeId, e.title, e.category, e.amount, e.date, e.status,
            e.description, e.createdAt, e.updatedAt)
  }

  /** `expensesData.map(...)`, with `expensesData` defaulting to `[]` before the
      fetch has returned: the same claims, with the same field values, in order. */
  function MapExpenses(data: Option<seq<Expense>>): (es: seq<Expense>)
    ensures data.None? ==> es == []
    ensures data.Some? ==> |es| == |data.value| &&
                           forall k | 0 <= k < |es| :: es[k] == data.value[k]
  {
    var rows := data.GetOr([]);
    seq(|rows|, k requires 0 <= k < |rows| => CopyExpense(rows[k]))
  }

  /** The page for the fetched `data` and the text in the search box. */
  function EmployeeExpensesView(data: Option<seq<Expense>>, query: string): ExpensesView
  {
    var expenses := MapExpenses(data);
    ExpensesView(
      SearchRows(expenses, SearchFields, query),
      |expenses|,
      PendingTotal(expenses),
      ApprovedTotal(expenses),
      PendingCount(expenses))
  }

  /** The figures are over every claim: they are the status totals and counts
      of the fetched list, and the pending and approved amounts together with the
      rejected total make up the sum of all claims. */
  lemma ViewFigures(rows: seq<Expense>, query: string)
    ensures var v := EmployeeExpensesView(Some(rows), query);
            v.totalSubmitted == |rows| &&
            v.pendingAmount == PendingTotal(rows) && v.approvedAmount == ApprovedTotal(rows) &&
            v.pendingClaims == PendingCount(rows) &&
            v.pendingAmount + v.approvedAmount + RejectedTotal(rows) == Sum(rows, Amount)
  {
    assert MapExpenses(Some(rows)) == rows;
    StatusTotalsPartition(rows);
  }

  /** The search box changes the listed claims only, never the figures. */
  lemma FiguresIgnoreSearch(data: Option<seq<Expense>>, q1: string, q2: string)
    ensures var v1, v2 := EmployeeExpensesView(data, q1), EmployeeExpensesView(data, q2);
            v1.totalSubmitted == v2.totalSubmitted && v1.pendingAmount == v2.pendingAmount &&
            v1.approvedAmount == v2.approvedAmount && v1.pendingClaims == v2.pendingClaims
  {
  }

  /** Before the fetch returns the page is empty and every figure is 0. */
  lemma NoDataEmptyView(query: string)
    ensures EmployeeExpensesView(None, query) == ExpensesView([], 0, 0, 0, 0)
  {
  }
}
