/** The admin's expense review page: the fetched page of claims with its
    fallbacks, the figures over the listed claims, the approve and reject
    controls of pending claims, and the search, filter and page state. */
module AdminExpensesPage {
  import opened Wrappers
  import opened Seqs
  import opened Payroll
  import opened ExpenseStats

  /** The categories the category filter offers besides `all`. */
  const Categories: seq<string> := ["Travel", "Equipment", "Software", "Office Supplies", "Training", "Other"]

  /** What the backend returns for one page; each part may be missing. */
  datatype ExpensePage = ExpensePage(expenses: Option<seq<Expense>>, totalPages: Option<int>, total: Option<int>)

  /** `expensesData?.expenses || []`. */
  function ListedExpenses(data: Option<ExpensePage>): (es: seq<Expense>)
    ensures data.Some? && data.value.expenses.Some? ==> es == data.value.expenses.value
    ensures data.None? || data.value.expenses.None? ==> es == []
  {
    if data.Some? then data.value.expenses.GetOr([]) else []
  }

  /** `expensesData?.totalPages || 1`: a missing or zero page count reads as one page. */
  function TotalPagesOf(data: Option<ExpensePage>): (n: int)
    ensures n != 0
    ensures data.None? || data.value.totalPages.None? ==> n == 1
    ensures data.Some? && data.value.totalPages == Some(0) ==> n == 1
    ensures data.Some? && data.value.totalPages.Some? && data.value.totalPages.value != 0 ==>
              n == data.value.totalPages.value
  {
    var t := if data.Some? then data.value.totalPages.GetOr(0) else 0;
    if t == 0 then 1 else t
  }

  /** `expensesData?.total || 0`. */
  function TotalOf(data: Option<ExpensePage>): (n: int)
    ensures data.None? || data.value.total.None? ==> n == 0
    ensures data.Some? && data.value.total.Some? ==> n == data.value.total.value
  {
    if data.Some? then data.value.total.GetOr(0) else 0
  }

  /** What the page shows once loaded. */
  datatype ExpensesPanel = ExpensesPanel(
    expenses: seq<Expense>,
    totalPages: int,
    total: int,
    pendingCount: nat,
    pendingAmount: int,
    approvedAmount: int,
    showsEmptyMessage: bool,
    showsPagination: bool)

  /** The page: a spinner (`None`) while loading; otherwise the listed claims,
      the figures over them, the empty message when there are none, and the
      pagination bar when there are claims and more than one page. */
  function AdminExpensesPanel(data: Option<ExpensePage>, isLoading: bool): (r: Option<ExpensesPanel>)
    ensures isLoading <==> r.None?
  {
    if isLoading then None
    else
      var es := ListedExpenses(data);
      var pages := TotalPagesOf(data);
      Some(ExpensesPanel(es, pages, TotalOf(data), PendingCount(es), PendingTotal(es), ApprovedTotal(es),
                         es == [], es != [] && pages > 1))
  }

  /** The figures are over the listed claims: the pending count and amount, the
      approved amount, and together with the rejected amount they make up the
      sum of all listed claims. */
  lemma PanelFigures(data: Option<ExpensePage>)
    ensures var p := AdminExpensesPanel(data, false).value;
            p.pendingCount == |Filter(p.expenses, IsPending)| &&
            p.pendingAmount == Sum(Filter(p.expenses, IsPending), Amount) &&
            p.approvedAmount == Sum(Filter(p.expenses, IsApproved), Amount) &&
            p.pendingAmount + p.approvedAmount + RejectedTotal(p.expenses) == Sum(p.expenses, Amount)
  {
    StatusTotalsPartition(ListedExpenses(data));
  }

  /** With no data there is one page, a total of 0, the empty message and no
      pagination bar. */
  lemma NoDataPanel()
    ensures AdminExpensesPanel(None, false) == Some(ExpensesPanel([], 1, 0, 0, 0, 0, true, false))
  {
  }

  /** Rejected claims contribute to neither figure: changing a rejected claim's
      amount changes neither the pending nor the approved amount. */
  lemma RejectedContributeNothing(es: seq<Expense>, i: int, amount: int)
    requires 0 <= i < |es| && es[i].status == Rejected
    ensures PendingTotal(es[i := es[i].(amount := amount)]) == PendingTotal(es)
    ensures ApprovedTotal(es[i := es[i].(amount := amount)]) == ApprovedTotal(es)
  {
    var x := es[i].(amount := amount);
    WhereUpdate(es, i, x, IsPending, Amount);
    WhereUpdate(es, i, x, IsApproved, Amount);
  }

  /** The two buttons of a table row. */
  datatype RowAction = ApproveAction | RejectAction

  /** The row's buttons: approve and reject for a pending claim, none otherwise. */
  function ActionsFor(e: Expense): (r: seq<RowAction>)
    ensures r != [] <==> e.status == Pending
    ensures r != [] ==> r == [ApproveAction, RejectAction]
  {
    if e.status == Pending then [ApproveAction, RejectAction] else []
  }

  /** The status a button asks the backend to set. */
  function RequestedStatus(a: RowAction): (s: ExpenseStatus)
    ensures s != Pending
    ensures s == Approved <==> a == ApproveAction
  {
    match a
    case ApproveAction => Approved
    case RejectAction => Rejected
  }

  /** A decision is final: once the requested status is set, the row offers no
      more buttons; the claim leaves the pending figures, and approving it adds
      its amount to the approved figure. */
  lemma DecisionIsFinal(es: seq<Expense>, i: int, a: RowAction)
    requires 0 <= i < |es| && a in ActionsFor(es[i])
    ensures ActionsFor(es[i].(status := RequestedStatus(a))) == []
    ensures PendingCount(es[i := es[i].(status := RequestedStatus(a))]) == PendingCount(es) - 1
    ensures ApprovedTotal(es[i := es[i].(status := RequestedStatus(a))]) ==
            ApprovedTotal(es) + (if a == ApproveAction then es[i].amount else 0)
  {
    DecisionMovesAmount(es, i, RequestedStatus(a));
  }

  /** `Previous`: disabled on page 1, otherwise one page back. */
  function PreviousPage(page: int): (r: int)
    ensures page == 1 ==> r == 1
    ensures page != 1 ==> r == page - 1
  {
    if page == 1 then page else page - 1
  }

  /** `Next`: disabled on the last page, otherwise one page on. */
  function NextPage(page: int, totalPages: int): (r: int)
    ensures page == totalPages ==> r == page
    ensures page != totalPages ==> r == page + 1
  {
    if page == totalPages then page else page + 1
  }

  datatype PageStep = PreviousStep | NextStep

  /** The page after a run of clicks on the pagination bar. */
  function AfterSteps(page: int, totalPages: int, steps: seq<PageStep>): int
    decreases |steps|
  {
    if steps == [] then page
    else
      var next := match steps[0]
        case PreviousStep => PreviousPage(page)
        case NextStep => NextPage(page, totalPages);
      AfterSteps(next, totalPages, steps[1..])
  }

  /** Clicking Previous and Next in any order never leaves `[1, totalPages]`. */
  lemma {:induction false} StepsStayInRange(page: int, totalPages: int, steps: seq<PageStep>)
    requires 1 <= page <= totalPages
    ensures 1 <= AfterSteps(page, totalPages, steps) <= totalPages
    decreases |steps|
  {
    if steps != [] {
      var next := match steps[0]
        case PreviousStep => PreviousPage(page)
        case NextStep => NextPage(page, totalPages);
      StepsStayInRange(next, totalPages, steps[1..]);
    }
  }

  /** Every page is reachable: `m` clicks on Next from page `p` reach page `p + m`
      as long as that page exists. */
  lemma {:induction false} NextReachesEveryPage(page: int, totalPages: int, m: nat)
    requires 1 <= page && page + m <= totalPages
    ensures AfterSteps(page, totalPages, seq(m, _ => NextStep)) == page + m
    decreases m
  {
    if m > 0 {
      assert seq(m, _ => NextStep)[1..] == seq(m - 1, _ => NextStep);
      NextReachesEveryPage(page + 1, totalPages, m - 1);
    }
  }

  /** The page's own state: the search text, the two filters and the page number. */
  class AdminExpensesState {
    var searchQuery: string
    var statusFilter: string
    var categoryFilter: string
    var page: int

    /** The initial state: no search, both filters `all`, page 1. */
    constructor ()
      ensures searchQuery == "" && statusFilter == "all" && categoryFilter == "all" && page == 1
    {
      searchQuery := "";
      statusFilter := "all";
      categoryFilter := "all";
      page := 1;
    }

    /** Typing in the search box: new text, back to page 1. */
    method SetSearch(query: string)
      modifies this`searchQuery, this`page
      ensures searchQuery == query && page == 1
    {
      searchQuery := query;
      page := 1;
    }

    /** Choosing a status: new filter, back to page 1. */
    method SetStatusFilter(status: string)
      modifies this`statusFilter, this`page
      ensures statusFilter == status && page == 1
    {
      statusFilter := status;
      page := 1;
    }

    /** Choosing a category: new filter, back to page 1. */
    method SetCategoryFilter(category: string)
      modifies this`categoryFilter, this`page
      ensures categoryFilter == category && page == 1
    {
      categoryFilter := category;
      page := 1;
    }

    /** Clicking Previous. */
    method Previous()
      modifies this`page
      ensures page == PreviousPage(old(page))
      ensures 1 <= old(page) ==> 1 <= page <= old(page)
    {
      if page != 1 {
        page := page - 1;
      }
    }

    /** Clicking Next with `totalPages` pages. */
    method Next(totalPages: int)
      modifies this`page
      ensures page == NextPage(old(page), totalPages)
      ensures old(page) <= totalPages ==> old(page) <= page <= totalPages
    {
      if page != totalPages {
        page := page + 1;
      }
    }
  }
}
