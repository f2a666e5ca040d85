/** The employee's expense page of the mock-data front end: the same search and
    figures, over the fixed list of mock claims instead of fetched rows. The mock
    list itself is a parameter. */
module MockEmployeeExpensesPage {
  import opened Wrappers
  import opened Seqs
  import opened Search
  import opened Payroll
  import opened ExpenseStats
  import opened EmployeeExpensesPage

  /** The page for the mock list and the text in the search box. */
  function MockExpensesView(mockExpenses: seq<Expense>, query: string): ExpensesView
  {
    ExpensesView(
      SearchRows(mockExpenses, SearchFields, query),
      |mockExpenses|,
      PendingTotal(mockExpenses),
      ApprovedTotal(mockExpenses),
      PendingCount(mockExpenses))
  }

  /** Given the same claims, the mock page shows exactly what the fetched page
      shows: same searched list, same four figures. */
  lemma SameAsFetchedPage(mockExpenses: seq<Expense>, query: string)
    ensures MockExpensesView(mockExpenses, query) == EmployeeExpensesView(Some(mockExpenses), query)
  {
    assert MapExpenses(Some(mockExpenses)) == mockExpenses;
  }

  /** The totals, the submitted count and the pending count do not depend on the
      search. */
  lemma MockFiguresIgnoreSearch(mockExpenses: seq<Expense>, q1: string, q2: string)
    ensures var v1, v2 := MockExpensesView(mockExpenses, q1), MockExpensesView(mockExpenses, q2);
            v1.totalSubmitted == v2.totalSubmitted && v1.pendingAmount == v2.pendingAmount &&
            v1.approvedAmount == v2.approvedAmount && v1.pendingClaims == v2.pendingClaims
  {
  }
}
