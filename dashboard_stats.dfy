/** The dashboard figures: the admin stat cards read from the backend, the
    employee's own figures computed from their slips and expense claims, and the
    salary history. The backend calls themselves are parameters: their results
    are what the functions take. */
module DashboardStats {
  import opened Wrappers
  import opened Seqs
  import opened Payroll
  import opened ExpenseStats

  /** The admin stat cards. */
  datatype AdminStats = AdminStats(totalEmployees: int, totalPayroll: int, pendingExpenses: int, approvedSlips: int)

  /** `Number(x) || 0` for a backend result: the number, or 0 when the result is
      null, missing or not a number (all three are `None` here). */
  function StatOrZero(v: Option<int>): (n: int)
    ensures v.None? ==> n == 0
    ensures v.Some? ==> n == v.value
  {
    match v
    case None => 0
    case Some(x) => if x == 0 then 0 else x
  }

  /** The admin stat cards from the four backend results. */
  function AdminDashboardStats(employeeCount: Option<int>, totalPayroll: Option<int>,
                               pendingExpenses: Option<int>, approvedSlips: Option<int>): (s: AdminStats)
    ensures employeeCount.None? ==> s.totalEmployees == 0
    ensures totalPayroll.None? ==> s.totalPayroll == 0
    ensures pendingExpenses.None? ==> s.pendingExpenses == 0
    ensures approvedSlips.None? ==> s.approvedSlips == 0
    ensures employeeCount.Some? ==> s.totalEmployees == employeeCount.value
    ensures totalPayroll.Some? ==> s.totalPayroll == totalPayroll.value
    ensures pendingExpenses.Some? ==> s.pendingExpenses == pendingExpenses.value
    ensures approvedSlips.Some? ==> s.approvedSlips == approvedSlips.value
  {
    AdminStats(StatOrZero(employeeCount), StatOrZero(totalPayroll),
               StatOrZero(pendingExpenses), StatOrZero(approvedSlips))
  }

  /** The employee's own figures. */
  datatype EmployeeStats = EmployeeStats(currentSalary: int, pendingExpenses: nat, approvedExpenses: int, totalExpenses: nat)

  /** `slips[0]?.net_salary || 0`: the net salary of the first slip, or 0 when
      there is none. */
  function CurrentSalary(slips: seq<SlipRow>): (n: int)
    ensures slips == [] ==> n == 0
    ensures slips != [] ==> n == slips[0].netSalary
  {
    if slips == [] || slips[0].netSalary == 0 then 0 else slips[0].netSalary
  }

  /** `useEmployeeDashboardStats`: nothing without a signed-in user; otherwise the
      figures over the latest slip (the backend returns at most one, newest first)
      and the user's expense claims (`data || []`). */
  function EmployeeDashboardStats(user: Option<AuthUser>, latestSlips: seq<SlipRow>,
                                  expenses: Option<seq<Expense>>): (r: Option<EmployeeStats>)
    ensures user.None? <==> r.None?
  {
    if user.None? then None
    else
      var es := expenses.GetOr([]);
      Some(EmployeeStats(CurrentSalary(latestSlips), PendingCount(es), ApprovedTotal(es), |es|))
  }

  /** With a user, the figures are: the latest slip's net salary (or 0), the number
      of pending claims, the amount of approved claims, which with the pending and
      rejected amounts makes up the sum of all claims, and the number of claims,
      of which the pending ones are a part. */
  lemma EmployeeStatsSpec(user: AuthUser, latestSlips: seq<SlipRow>, expenses: seq<Expense>)
    ensures var r := EmployeeDashboardStats(Some(user), latestSlips, Some(expenses));
            r.Some? &&
            r.value.currentSalary == (if latestSlips == [] then 0 else latestSlips[0].netSalary) &&
            r.value.pendingExpenses == |Filter(expenses, IsPending)| &&
            r.value.approvedExpenses == Sum(Filter(expenses, IsApproved), Amount) &&
            PendingTotal(expenses) + r.value.approvedExpenses + RejectedTotal(expenses) == Sum(expenses, Amount) &&
            r.value.totalExpenses == |expenses| &&
            r.value.pendingExpenses <= r.value.totalExpenses
  {
    StatusTotalsPartition(expenses);
  }

  /** A failed expense fetch counts as no claims. */
  lemma MissingExpensesAreNone(user: AuthUser, latestSlips: seq<SlipRow>)
    ensures EmployeeDashboardStats(Some(user), latestSlips, None) ==
            Some(EmployeeStats(CurrentSalary(latestSlips), 0, 0, 0))
  {
  }

  /** `useEmployeeSalaryHistory`: the empty list without a user, otherwise the
      backend's list or, when it returned nothing, the empty list. */
  function SalaryHistory<T>(user: Option<AuthUser>, data: Option<seq<T>>): (r: seq<T>)
    ensures user.None? ==> r == []
    ensures user.Some? && data.Some? ==> r == data.value
    ensures data.None? ==> r == []
  {
    if user.None? then [] else data.GetOr([])
  }
}
