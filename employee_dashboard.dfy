/** The employee dashboard: the greeting name, the three most recent slips and
    claims, and the figures over all of the user's slips and claims. */
module EmployeeDashboardPage {
  import opened Wrappers
  import opened Seqs
  import opened Payroll
  import opened Identity
  import opened ExpenseStats
  import opened DashboardStats
  import opened EmployeeExpensesPage

  /** A slip row with the name and department the slip table shows (`{ ...s, employeeName, department }`). */
  datatype LabelledSlip = LabelledSlip(slip: SlipRow, employeeName: string, department: string)

  datatype DashboardView = DashboardView(
    userName: string,
    recentSlips: seq<LabelledSlip>,
    recentExpenses: seq<Expense>,
    currentSalary: int,
    pendingExpenses: nat,
    totalEarnings: int)

  function NetOf(s: SlipRow): int { s.netSalary }

  /** The first three slips, each labelled with the user's name and the department `Employee`. */
  function RecentSlips(slips: seq<SlipRow>, userName: string): (r: seq<LabelledSlip>)
    ensures |r| == Min(3, |slips|)
    ensures forall k | 0 <= k < |r| :: r[k] == LabelledSlip(slips[k], userName, "Employee")
  {
    var first := Take(slips, 3);
    seq(|first|, k requires 0 <= k < |first| => LabelledSlip(first[k], userName, "Employee"))
  }

  /** The dashboard for the signed-in user and the fetched slips and claims
      (each defaulting to `[]` before its fetch returns). */
  function EmployeeDashboardView(user: Option<AuthUser>, slipsData: Option<seq<SlipRow>>,
                                 expensesData: Option<seq<Expense>>): DashboardView
  {
    var slips := slipsData.GetOr([]);
    var userName := UserName(user);
    DashboardView(
      userName,
      RecentSlips(slips, userName),
      MapExpenses(Some(Take(expensesData.GetOr([]), 3))),
      CurrentSalary(slips),
      PendingCount(expensesData.GetOr([])),
      Sum(slips, NetOf))
  }

  /** What the dashboard shows: a non-empty greeting name; the first min(3, n)
      slips and claims in their original order; the first slip's net salary or 0;
      the pending claims among all claims, which with the approved and rejected
      ones make up every claim; and the net salaries of all slips added up. */
  lemma DashboardSpec(user: Option<AuthUser>, slips: seq<SlipRow>, expenses: seq<Expense>)
    ensures var v := EmployeeDashboardView(user, Some(slips), Some(expenses));
            v.userName != [] &&
            |v.recentSlips| == Min(3, |slips|) &&
            (forall k | 0 <= k < |v.recentSlips| ::
               v.recentSlips[k].slip == slips[k] && v.recentSlips[k].employeeName == v.userName &&
               v.recentSlips[k].department == "Employee") &&
            |v.recentExpenses| == Min(3, |expenses|) && v.recentExpenses <= expenses &&
            v.currentSalary == (if slips == [] then 0 else slips[0].netSalary) &&
            v.pendingExpenses == |Filter(expenses, IsPending)| &&
            v.pendingExpenses + ApprovedCount(expenses) + RejectedCount(expenses) == |expenses| &&
            v.totalEarnings == Sum(slips, NetOf)
  {
    StatusCountsPartition(expenses);
    var first := Take(expenses, 3);
    assert MapExpenses(Some(first)) == first;
  }

  /** Before the fetches return, the lists are empty and every figure is 0. */
  lemma NoDataDashboard(user: Option<AuthUser>)
    ensures EmployeeDashboardView(user, None, None) == DashboardView(UserName(user), [], [], 0, 0, 0)
  {
  }
}
