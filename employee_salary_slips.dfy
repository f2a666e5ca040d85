/** The employee's salary-slip page of the mock data: the current employee's
    slips, the search by month or year, and the three stat cards. */
module EmployeeSalarySlipsPage {
  import opened Wrappers
  import opened Text
  import opened Seqs
  import opened Payroll

  /** What the page shows. `averageMonthly` is `None` where the page computes
      `Math.round(0 / 0)`, which is not a number. */
  datatype SlipsView = SlipsView(filtered: seq<SalarySlip>, totalSlips: nat, totalEarnings: int,
                                 averageMonthly: Option<int>)

  function NetOf(s: SalarySlip): int { s.netSalary }

  /** The search: the month contains the query ignoring case, or the decimal text
      of the year contains the query as typed (that half is not lower-cased). */
  predicate SlipMatches(s: SalarySlip, query: string)
  {
    ContainsIgnoringCase(s.month, query) || Contains(DecimalString(s.year), query)
  }

  /** `mySlips.filter(...)`: the matching slips, in order. */
  function FilteredSlips(mySlips: seq<SalarySlip>, query: string): (r: seq<SalarySlip>)
    ensures forall k | 0 <= k < |r| :: SlipMatches(r[k], query) && r[k] in mySlips
    ensures forall k | 0 <= k < |mySlips| && SlipMatches(mySlips[k], query) :: mySlips[k] in r
    ensures forall x | x in mySlips :: multiset(r)[x] == if SlipMatches(x, query) then multiset(mySlips)[x] else 0
    ensures IsSubsequence(r, mySlips)
  {
    FilterIsSubsequence(mySlips, s => SlipMatches(s, query));
    FilterCounts(mySlips, s => SlipMatches(s, query));
    Filter(mySlips, s => SlipMatches(s, query))
  }

  /** `Math.round(total / count)`: rounding half up, so `r` is the integer whose
      distance to `total / count` is below one half, or exactly one half below it;
      no number when there are no slips. */
  function RoundedAverage(total: int, count: nat): (r: Option<int>)
    ensures r.Some? <==> count > 0
    ensures r.Some? ==> 2 * count * r.value - count <= 2 * total < 2 * count * r.value + count
  {
    if count == 0 then None
    else
      var q := (2 * total + count) / (2 * count);
      assert 2 * count * q <= 2 * total + count < 2 * count * q + 2 * count;
      Some(q)
  }

  /** Only one integer lies that close to the quotient. */
  lemma RoundedAverageUnique(total: int, count: nat, n: int)
    requires count > 0
    requires 2 * count * n - count <= 2 * total < 2 * count * n + count
    ensures RoundedAverage(total, count) == Some(n)
  {
    var r := RoundedAverage(total, count).value;
    if r < n {
      MulLess(count, r, n);
    } else if r > n {
      MulLess(count, n, r);
    }
  }

  lemma MulLess(c: nat, a: int, b: int)
    requires c > 0 && a < b
    ensures 2 * c * a + 2 * c <= 2 * c * b
  {
    assert 2 * c * b - 2 * c * a == 2 * c * (b - a);
    assert b - a >= 1;
    assert 2 * c * (b - a) >= 2 * c;
  }

  /** The page for the mock list and the text in the search box. */
  function SalarySlipsView(mockSlips: seq<SalarySlip>, query: string): SlipsView
  {
    var mySlips := Filter(mockSlips, IsOwnSlip);
    var total := Sum(mySlips, NetOf);
    SlipsView(FilteredSlips(mySlips, query), |mySlips|, total, RoundedAverage(total, |mySlips|))
  }

  /** Only the current employee's slips are listed, and the search is over them;
      the cards count and add up all of them, and the average is the total over
      the count rounded half up, missing when there are none. */
  lemma SalarySlipsSpec(mockSlips: seq<SalarySlip>, query: string)
    ensures var v := SalarySlipsView(mockSlips, query);
            (forall k | 0 <= k < |v.filtered| :: v.filtered[k].employeeId == MockEmployeeId) &&
            IsSubsequence(v.filtered, Filter(mockSlips, IsOwnSlip)) &&
            v.totalSlips == |Filter(mockSlips, IsOwnSlip)| &&
            v.totalEarnings == Sum(Filter(mockSlips, IsOwnSlip), NetOf) &&
            (v.averageMonthly.None? <==> v.totalSlips == 0) &&
            (v.averageMonthly.Some? ==>
               2 * v.totalSlips * v.averageMonthly.value - v.totalSlips <= 2 * v.totalEarnings <
               2 * v.totalSlips * v.averageMonthly.value + v.totalSlips)
  {
  }

  /** Typing a slip's year finds that slip. */
  lemma YearSearchFindsSlip(mySlips: seq<SalarySlip>, k: int)
    requires 0 <= k < |mySlips|
    ensures mySlips[k] in FilteredSlips(mySlips, DecimalString(mySlips[k].year))
  {
    var t := DecimalString(mySlips[k].year);
    assert t <= t;
  }

  /** Every month matches the empty query, so it lists all the slips. */
  lemma EmptySearchListsAll(mySlips: seq<SalarySlip>)
    ensures FilteredSlips(mySlips, "") == mySlips
  {
    forall k | 0 <= k < |mySlips| ensures SlipMatches(mySlips[k], "") {
      EmptyQueryMatches(mySlips[k].month);
    }
    FilterKeepsAll(mySlips, s => SlipMatches(s, ""));
  }

  /** When every slip has the same net salary, the average is that salary. */
  lemma {:induction false} EqualSalariesAverage(slips: seq<SalarySlip>, n: int)
    requires |slips| > 0
    requires forall k | 0 <= k < |slips| :: slips[k].netSalary == n
    ensures RoundedAverage(Sum(slips, NetOf), |slips|) == Some(n)
  {
    SumConstant(slips, n);
    var c := |slips|;
    assert 2 * Sum(slips, NetOf) == 2 * c * n;
    RoundedAverageUnique(Sum(slips, NetOf), c, n);
  }

  lemma {:induction false} SumConstant(slips: seq<SalarySlip>, n: int)
    requires forall k | 0 <= k < |slips| :: slips[k].netSalary == n
    ensures Sum(slips, NetOf) == |slips| * n
    decreases |slips|
  {
    if slips != [] {
      SumConstant(slips[1..], n);
    }
  }
}
