/** The admin's salary-slip page of the mock data: every slip, searched by
    employee name or department. */
module AdminSalarySlipsPage {
  import opened Text
  import opened Seqs
  import opened Search
  import opened Payroll

  function SlipSearchFields(s: SalarySlip): seq<string>
  {
    [s.employeeName, s.department]
  }

  /** The slips whose employee name or department contains the query, ignoring
      case, in their original order. */
  function AdminFilteredSlips(mockSlips: seq<SalarySlip>, query: string): (r: seq<SalarySlip>)
    ensures forall k | 0 <= k < |r| :: r[k] in mockSlips &&
              (ContainsIgnoringCase(r[k].employeeName, query) || ContainsIgnoringCase(r[k].department, query))
    ensures forall k | 0 <= k < |mockSlips| ::
              (ContainsIgnoringCase(mockSlips[k].employeeName, query) ||
               ContainsIgnoringCase(mockSlips[k].department, query)) ==> mockSlips[k] in r
    ensures forall x | x in mockSlips :: multiset(r)[x] ==
              if ContainsIgnoringCase(x.employeeName, query) || ContainsIgnoringCase(x.department, query)
              then multiset(mockSlips)[x] else 0
    ensures IsSubsequence(r, mockSlips)
  {
    SlipSearchMeaning(query);
    SearchRows(mockSlips, SlipSearchFields, query)
  }

  /** A slip matches the search exactly when its employee name or its department does. */
  lemma SlipSearchMeaning(query: string)
    ensures forall s: SalarySlip :: AnyFieldMatches(SlipSearchFields(s), query) <==>
              ContainsIgnoringCase(s.employeeName, query) || ContainsIgnoringCase(s.department, query)
  {
    forall s: SalarySlip
      ensures AnyFieldMatches(SlipSearchFields(s), query) <==>
              ContainsIgnoringCase(s.employeeName, query) || ContainsIgnoringCase(s.department, query)
    {
      var fs := SlipSearchFields(s);
      if ContainsIgnoringCase(fs[0], query) || ContainsIgnoringCase(fs[1], query) {
        assert AnyFieldMatches(fs, query);
      }
    }
  }

  /** The empty query lists every slip; searching twice is searching once. */
  lemma AdminSlipSearchLaws(mockSlips: seq<SalarySlip>, query: string)
    ensures AdminFilteredSlips(mockSlips, "") == mockSlips
    ensures AdminFilteredSlips(AdminFilteredSlips(mockSlips, query), query) == AdminFilteredSlips(mockSlips, query)
  {
    EmptyQueryKeepsAll(mockSlips, SlipSearchFields);
    SearchIdempotent(mockSlips, SlipSearchFields, query);
  }
}
