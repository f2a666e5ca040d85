/** The admin's employee roster: profile rows turned into roster entries, the
    search by name, email or department, and the three count cards. */
module AdminEmployeesPage {
  import opened Wrappers
  import opened Text
  import opened Seqs
  import opened Search
  import opened Payroll
  import opened Identity

  /** One profile as a roster entry: the full name or else the local part of the
      email, the department or else `General`, the designation `Employee`, no
      salary, the date part of the creation time, and active. */
  function ToEmployee(p: Profile): (e: Employee)
    ensures e.id == p.id && e.email == p.email
    ensures p.fullName.Some? && p.fullName.value != [] ==> e.name == p.fullName.value
    ensures !(p.fullName.Some? && p.fullName.value != []) ==> e.name == EmailPrefix(p.email)
    ensures p.department.Some? && p.department.value != [] ==> e.department == p.department.value
    ensures !(p.department.Some? && p.department.value != []) ==> e.department == "General"
    ensures e.department != []
    ensures e.designation == "Employee" && e.salary == 0 && e.status == Active
    ensures e.joinDate <= p.createdAt && 'T' !in e.joinDate
    ensures |e.joinDate| < |p.createdAt| ==> p.createdAt[|e.joinDate|] == 'T'
  {
    var full := p.fullName.GetOr("");
    var dept := p.department.GetOr("");
    Employee(p.id,
             if full != [] then full else EmailPrefix(p.email),
             p.email,
             if dept != [] then dept else "General",
             "Employee",
             0,
             BeforeFirst(p.createdAt, 'T'),
             Active)
  }

  /** A timestamp `date` + `T` + `time` joins on `date`. */
  lemma JoinDateOfTimestamp(p: Profile, date: string, time: string)
    requires 'T' !in date
    requires p.createdAt == date + "T" + time
    ensures ToEmployee(p).joinDate == date
  {
    SplitAfter(date, time, 'T');
  }

  /** `profiles.map(...)`. */
  function ToEmployees(profiles: seq<Profile>): (es: seq<Employee>)
    ensures |es| == |profiles|
    ensures forall k | 0 <= k < |es| :: es[k] == ToEmployee(profiles[k])
  {
    seq(|profiles|, k requires 0 <= k < |profiles| => ToEmployee(profiles[k]))
  }

  function RosterFields(e: Employee): seq<string>
  {
    [e.name, e.email, e.department]
  }

  predicate RosterMatches(e: Employee, query: string)
  {
    ContainsIgnoringCase(e.name, query) || ContainsIgnoringCase(e.email, query) ||
    ContainsIgnoringCase(e.department, query)
  }

  /** An entry matches the search exactly when its name, email or department does. */
  lemma RosterSearchMeaning(query: string)
    ensures forall e: Employee :: AnyFieldMatches(RosterFields(e), query) <==> RosterMatches(e, query)
  {
    forall e: Employee ensures AnyFieldMatches(RosterFields(e), query) <==> RosterMatches(e, query) {
      var fs := RosterFields(e);
      if ContainsIgnoringCase(fs[0], query) || ContainsIgnoringCase(fs[1], query) ||
         ContainsIgnoringCase(fs[2], query) {
        assert AnyFieldMatches(fs, query);
      }
    }
  }

  /** `employees.filter(emp => name, email or department includes the query)`. */
  function RosterSearch(employees: seq<Employee>, query: string): (r: seq<Employee>)
    ensures forall k | 0 <= k < |r| :: RosterMatches(r[k], query) && r[k] in employees
    ensures forall k | 0 <= k < |employees| && RosterMatches(employees[k], query) :: employees[k] in r
    ensures forall x | x in employees :: multiset(r)[x] == if RosterMatches(x, query) then multiset(employees)[x] else 0
    ensures IsSubsequence(r, employees)
  {
    RosterSearchMeaning(query);
    SearchRows(employees, RosterFields, query)
  }

  predicate IsActive(e: Employee) { e.status == Active }
  predicate IsInactive(e: Employee) { e.status == Inactive }

  /** The `Active` and `Inactive` cards: `employees.filter(e => e.status === ...).length`. */
  function ActiveCount(employees: seq<Employee>): nat { |Filter(employees, IsActive)| }
  function InactiveCount(employees: seq<Employee>): nat { |Filter(employees, IsInactive)| }

  /** Every entry is active or inactive, so the two cards add up to the total. */
  lemma {:induction false} StatusCountsAddUp(employees: seq<Employee>)
    ensures ActiveCount(employees) + InactiveCount(employees) == |employees|
    decreases |employees|
  {
    if employees != [] {
      StatusCountsAddUp(employees[1..]);
    }
  }

  /** What the page shows once the profiles are loaded. */
  datatype RosterView = RosterView(filtered: seq<Employee>, total: nat, active: nat, inactive: nat)

  /** The page: a spinner (`None`) while loading, otherwise the searched roster
      and the cards, with `profiles` defaulting to `[]`. */
  function AdminEmployeesView(profiles: Option<seq<Profile>>, isLoading: bool, query: string): (r: Option<RosterView>)
    ensures isLoading <==> r.None?
  {
    if isLoading then None
    else
      var employees := ToEmployees(profiles.GetOr([]));
      Some(RosterView(RosterSearch(employees, query), |employees|, ActiveCount(employees), InactiveCount(employees)))
  }

  /** Every entry made from a profile is active: the active card equals the
      total and the inactive card is 0. */
  lemma ProfilesAllActive(profiles: seq<Profile>, query: string)
    ensures var v := AdminEmployeesView(Some(profiles), false, query).value;
            v.total == |profiles| && v.active == v.total && v.inactive == 0
  {
    var employees := ToEmployees(profiles);
    FilterKeepsAll(employees, IsActive);
    FilterDropsAll(employees, IsInactive);
  }
}
