/** The admin's employee list query: the fetched records (or `[]`), narrowed by
    the search text and the department and status filters, sorted by the chosen
    column, and cut into the requested page. */
module EmployeeQuery {
  import opened Wrappers
  import opened Text
  import opened Seqs
  import opened Search
  import opened Payroll
  import opened EmployeeOrder

  /** The filters a caller may pass; every one may be left out. */
  datatype EmployeeFilters = EmployeeFilters(
    search: Option<string>,
    department: Option<string>,
    status: Option<string>,
    sortBy: Option<SortField>,
    sortOrder: Option<SortOrder>,
    page: Option<int>,
    pageSize: Option<nat>)

  /** The filters with the defaults filled in. */
  datatype QuerySettings = QuerySettings(
    search: Option<string>,
    department: Option<string>,
    status: Option<string>,
    sortBy: SortField,
    sortOrder: SortOrder,
    page: int,
    pageSize: nat)

  /** The destructuring defaults: by creation time, newest first, page 1 of 10;
      a value the caller passes is kept. */
  function Settings(f: EmployeeFilters): (s: QuerySettings)
    ensures f.sortBy.None? ==> s.sortBy == ByCreatedAt
    ensures f.sortOrder.None? ==> s.sortOrder == Descending
    ensures f.page.None? ==> s.page == 1
    ensures f.pageSize.None? ==> s.pageSize == 10
    ensures f.sortBy.Some? ==> s.sortBy == f.sortBy.value
    ensures f.sortOrder.Some? ==> s.sortOrder == f.sortOrder.value
    ensures f.page.Some? ==> s.page == f.page.value
    ensures f.pageSize.Some? ==> s.pageSize == f.pageSize.value
    ensures s.search == f.search && s.department == f.department && s.status == f.status
  {
    QuerySettings(f.search, f.department, f.status, f.sortBy.GetOr(ByCreatedAt),
                  f.sortOrder.GetOr(Descending), f.page.GetOr(1), f.pageSize.GetOr(10))
  }

  /** What a successful query returns. `totalPages` is `None` where the page
      count is `Math.ceil(total / 0)`, which is not a finite number. */
  datatype QueryResult = QueryResult(employees: seq<StaffRecord>, total: nat, page: int, pageSize: nat,
                                     totalPages: Option<nat>)

  /** The text columns the search looks in: the full name and the department
      only when they are not null, and the email. */
  function StaffFields(e: StaffRecord): seq<string>
  {
    (if e.fullName.Some? then [e.fullName.value] else []) + [e.email] +
    (if e.department.Some? then [e.department.value] else [])
  }

  predicate StaffMatches(e: StaffRecord, query: string)
  {
    (e.fullName.Some? && ContainsIgnoringCase(e.fullName.value, query)) ||
    ContainsIgnoringCase(e.email, query) ||
    (e.department.Some? && ContainsIgnoringCase(e.department.value, query))
  }

  /** A record matches exactly when its full name, email or department contains
      the query ignoring case; a null column never matches. */
  lemma StaffSearchMeaning(query: string)
    ensures forall e: StaffRecord :: AnyFieldMatches(StaffFields(e), query) <==> StaffMatches(e, query)
  {
    forall e: StaffRecord ensures AnyFieldMatches(StaffFields(e), query) <==> StaffMatches(e, query) {
      var fs := StaffFields(e);
      var at := if e.fullName.Some? then 1 else 0;
      assert fs[at] == e.email;
      if e.fullName.Some? && ContainsIgnoringCase(e.fullName.value, query) {
        assert fs[0] == e.fullName.value;
      }
      if e.department.Some? && ContainsIgnoringCase(e.department.value, query) {
        assert fs[at + 1] == e.department.value;
      }
      if AnyFieldMatches(fs, query) {
        var k :| 0 <= k < |fs| && ContainsIgnoringCase(fs[k], query);
        assert fs[k] == e.email || (e.fullName.Some? && fs[k] == e.fullName.value) ||
               (e.department.Some? && fs[k] == e.department.value);
      }
    }
  }

  /** `if (search)`: only a non-empty search text narrows the list. */
  function SearchStage(es: seq<StaffRecord>, search: Option<string>): (r: seq<StaffRecord>)
    ensures search.None? || search.value == [] ==> r == es
    ensures search.Some? && search.value != [] ==>
              (forall k | 0 <= k < |r| :: StaffMatches(r[k], search.value) && r[k] in es) &&
              (forall k | 0 <= k < |es| && StaffMatches(es[k], search.value) :: es[k] in r)
    ensures forall x | x in es :: multiset(r)[x] ==
              if search.Some? && search.value != [] && !StaffMatches(x, search.value) then 0 else multiset(es)[x]
    ensures IsSubsequence(r, es)
  {
    if search.None? || search.value == [] then
      assert IsSubsequence(es, es) by { SubsequenceOfItself(es); }
      es
    else
      StaffSearchMeaning(search.value);
      SearchRows(es, StaffFields, search.value)
  }

  lemma {:induction false} SubsequenceOfItself<T>(s: seq<T>)
    ensures IsSubsequence(s, s)
    decreases |s|
  {
    if s != [] {
      SubsequenceOfItself(s[1..]);
    }
  }

  /** A department or status filter narrows the list unless it is left out,
      empty or `all`. */
  predicate Narrows(filter: Option<string>)
  {
    filter.Some? && filter.value != [] && filter.value != "all"
  }

  /** `if (department && department !== 'all')`: keep the records of exactly that
      department (a null department is never equal to it). */
  function DepartmentStage(es: seq<StaffRecord>, department: Option<string>): (r: seq<StaffRecord>)
    ensures !Narrows(department) ==> r == es
    ensures Narrows(department) ==>
              (forall k | 0 <= k < |r| :: r[k].department == department && r[k] in es) &&
              (forall k | 0 <= k < |es| && es[k].department == department :: es[k] in r)
    ensures forall x | x in es :: multiset(r)[x] ==
              if Narrows(department) && x.department != department then 0 else multiset(es)[x]
    ensures IsSubsequence(r, es)
  {
    if !Narrows(department) then
      SubsequenceOfItself(es);
      es
    else
      FilterIsSubsequence(es, (e: StaffRecord) => e.department == department);
      FilterCounts(es, (e: StaffRecord) => e.department == department);
      Filter(es, (e: StaffRecord) => e.department == department)
  }

  /** `if (status && status !== 'all')`: keep the records of exactly that status. */
  function StatusStage(es: seq<StaffRecord>, status: Option<string>): (r: seq<StaffRecord>)
    ensures !Narrows(status) ==> r == es
    ensures Narrows(status) ==>
              (forall k | 0 <= k < |r| :: r[k].status == status.value && r[k] in es) &&
              (forall k | 0 <= k < |es| && es[k].status == status.value :: es[k] in r)
    ensures forall x | x in es :: multiset(r)[x] ==
              if Narrows(status) && x.status != status.value then 0 else multiset(es)[x]
    ensures IsSubsequence(r, es)
  {
    if !Narrows(status) then
      SubsequenceOfItself(es);
      es
    else
      FilterIsSubsequence(es, (e: StaffRecord) => e.status == status.value);
      FilterCounts(es, (e: StaffRecord) => e.status == status.value);
      Filter(es, (e: StaffRecord) => e.status == status.value)
  }

  /** The three stages one after the other, on `data || []`. */
  function Filtered(data: Option<seq<StaffRecord>>, s: QuerySettings): (r: seq<StaffRecord>)
    ensures data.None? ==> r == []
    ensures forall k | 0 <= k < |r| :: r[k] in data.GetOr([])
  {
    StatusStage(DepartmentStage(SearchStage(data.GetOr([]), s.search), s.department), s.status)
  }

  /** A record passes every stage that narrows: it matches the search, and it
      has the department and the status asked for. */
  predicate PassesStages(e: StaffRecord, s: QuerySettings)
  {
    (s.search.None? || s.search.value == [] || StaffMatches(e, s.search.value)) &&
    (!Narrows(s.department) || e.department == s.department) &&
    (!Narrows(s.status) || e.status == s.status.value)
  }

  /** The filtered list keeps its records in their fetched order, and a record
      survives exactly when it passes every narrowing stage: every survivor
      passes them all, and each fetched record that passes them all is kept as
      many times as it was fetched. */
  lemma {:induction false} FilteredSpec(data: seq<StaffRecord>, s: QuerySettings)
    ensures IsSubsequence(Filtered(Some(data), s), data)
    ensures forall k | 0 <= k < |Filtered(Some(data), s)| ::
              var e := Filtered(Some(data), s)[k];
              PassesStages(e, s) && e in data
    ensures forall x | x in data :: multiset(Filtered(Some(data), s))[x] ==
              if PassesStages(x, s) then multiset(data)[x] else 0
  {
    var a := SearchStage(data, s.search);
    var b := DepartmentStage(a, s.department);
    var c := StatusStage(b, s.status);
    SubsequenceTransitive(c, b, a);
    SubsequenceTransitive(c, a, data);
    forall k | 0 <= k < |c| ensures PassesStages(c[k], s) && c[k] in data {
      var e := c[k];
      assert e in b;
      assert e in a;
    }
    forall x | x in data
      ensures multiset(c)[x] == if PassesStages(x, s) then multiset(data)[x] else 0
    {
      if x !in a {
        assert x !in b;
        assert x !in c;
      } else if x !in b {
        assert x !in c;
      }
    }
  }

  /** A subsequence of a subsequence is a subsequence. */
  lemma {:induction false} SubsequenceTransitive<T>(r: seq<T>, s: seq<T>, t: seq<T>)
    requires IsSubsequence(r, s) && IsSubsequence(s, t)
    ensures IsSubsequence(r, t)
    decreases |t|, |s|, |r|
  {
    if r != [] && t != [] {
      if s[0] == t[0] && IsSubsequence(s[1..], t[1..]) {
        if r[0] == s[0] && IsSubsequence(r[1..], s[1..]) {
          SubsequenceTransitive(r[1..], s[1..], t[1..]);
        } else {
          SubsequenceTransitive(r, s[1..], t[1..]);
        }
      } else {
        SubsequenceTransitive(r, s, t[1..]);
      }
    }
  }

  /** `Math.ceil(total / pageSize)`, when that is a number. */
  function TotalPages(total: nat, pageSize: nat): (r: Option<nat>)
    ensures r.Some? <==> pageSize > 0
    ensures r.Some? ==> r.value * pageSize >= total && (r.value - 1) * pageSize < total
  {
    if pageSize == 0 then None else Some(CeilDiv(total, pageSize))
  }

  /** The page `page` (from 1) of a list is the slice from `(page - 1) * size` up
      to `page * size`, cut at the end of the list, so it never holds more than
      `size` records. */
  lemma PageBounds<T>(s: seq<T>, page: int, size: nat)
    requires page >= 1
    ensures PageOf(s, page, size) == s[Min((page - 1) * size, |s|)..Min(page * size, |s|)]
    ensures |PageOf(s, page, size)| <= size
  {
    PageStart(page, size);
  }

  /** The query function: a backend error fails the query; otherwise the
      filtered records are sorted in place and the requested page is cut from
      them. `sorted` is the whole sorted list the page is cut from. */
  method RunQuery(data: Option<seq<StaffRecord>>, failed: bool, filters: EmployeeFilters)
    returns (r: Option<QueryResult>, sorted: seq<StaffRecord>)
    ensures failed <==> r.None?
    ensures !failed ==> multiset(sorted) == multiset(Filtered(data, Settings(filters)))
    ensures !failed ==> Sorted(sorted, Settings(filters).sortBy, Settings(filters).sortOrder)
    ensures r.Some? ==>
              var s := Settings(filters);
              r.value == QueryResult(PageOf(sorted, s.page, s.pageSize), |Filtered(data, s)|, s.page,
                                     s.pageSize, TotalPages(|Filtered(data, s)|, s.pageSize))
  {
    if failed {
      return None, [];
    }
    var s := Settings(filters);
    var employees := data.GetOr([]);
    employees := SearchStage(employees, s.search);
    employees := DepartmentStage(employees, s.department);
    employees := StatusStage(employees, s.status);
    var a := new StaffRecord[|employees|](k requires 0 <= k < |employees| => employees[k]);
    assert a[..] == employees;
    SortEmployees(a, s.sortBy, s.sortOrder);
    sorted := a[..];
    var total := a.Length;
    assert total == |multiset(sorted)| == |employees|;
    var start := (s.page - 1) * s.pageSize;
    var pageRows := JsSlice(sorted, start, start + s.pageSize);
    r := Some(QueryResult(pageRows, total, s.page, s.pageSize, TotalPages(total, s.pageSize)));
  }

  /** `enabled: !!user && role === 'admin'`. */
  function QueryEnabled(user: Option<AuthUser>, role: Option<UserRole>): (enabled: bool)
    ensures enabled ==> user.Some? && role == Some(AdminRole)
    ensures user.Some? && role == Some(AdminRole) ==> enabled
  {
    user.Some? && match role { case Some(AdminRole) => true case _ => false }
  }
}
