/** The employee dashboard of the mock-data front end: the current employee's
    first three slips and the first three claims of the mock lists. */
module MockEmployeeDashboardPage {
  import opened Seqs
  import opened Payroll

  /** `mockSalarySlips.filter(s => s.employeeId === "1").slice(0, 3)`. */
  function MockRecentSlips(mockSlips: seq<SalarySlip>): (r: seq<SalarySlip>)
    ensures |r| <= 3
    ensures forall k | 0 <= k < |r| :: r[k].employeeId == MockEmployeeId
    ensures |r| == Min(3, |Filter(mockSlips, IsOwnSlip)|) && r <= Filter(mockSlips, IsOwnSlip)
  {
    Take(Filter(mockSlips, IsOwnSlip), 3)
  }

  /** `mockExpenses.slice(0, 3)`. */
  function MockRecentExpenses(mockExpenses: seq<Expense>): (r: seq<Expense>)
    ensures |r| == Min(3, |mockExpenses|) && r <= mockExpenses
  {
    Take(mockExpenses, 3)
  }

  /** Every slip of the current employee is shown when there are at most three of
      them, and none of another employee ever is. */
  lemma MockRecentSlipsComplete(mockSlips: seq<SalarySlip>)
    ensures |Filter(mockSlips, IsOwnSlip)| <= 3 ==> MockRecentSlips(mockSlips) == Filter(mockSlips, IsOwnSlip)
    ensures forall k | 0 <= k < |mockSlips| && !IsOwnSlip(mockSlips[k]) :: mockSlips[k] !in MockRecentSlips(mockSlips)
  {
  }
}
