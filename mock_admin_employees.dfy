/** The admin's employee roster of the mock-data front end: the same search and
    cards over the fixed list of mock employees. */
module MockAdminEmployeesPage {
  import opened Seqs
  import opened Payroll
  import opened AdminEmployeesPage

  /** The page for the mock roster and the text in the search box. */
  function MockRosterView(mockEmployees: seq<Employee>, query: string): RosterView
  {
    RosterView(RosterSearch(mockEmployees, query), |mockEmployees|,
               ActiveCount(mockEmployees), InactiveCount(mockEmployees))
  }

  /** The cards count the whole roster whatever the search, the active and
      inactive cards add up to the total, and the listed entries are among it. */
  lemma MockRosterSpec(mockEmployees: seq<Employee>, q1: string, q2: string)
    ensures var v1, v2 := MockRosterView(mockEmployees, q1), MockRosterView(mockEmployees, q2);
            v1.total == v2.total && v1.active == v2.active && v1.inactive == v2.inactive &&
            v1.active + v1.inactive == v1.total &&
            IsSubsequence(v1.filtered, mockEmployees)
  {
    StatusCountsAddUp(mockEmployees);
  }
}
