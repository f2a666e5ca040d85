/** What the expense pages and the dashboard compute over a list of expense
    claims: counts and amount sums per status, and the title/category search. */
module ExpenseStats {
  import opened Text
  import opened Seqs
  import opened Search
  import opened Payroll

  predicate IsPending(e: Expense) { e.status == Pending }
  predicate IsApproved(e: Expense) { e.status == Approved }
  predicate IsRejected(e: Expense) { e.status == Rejected }

  function Amount(e: Expense): int { e.amount }

  /** `expenses.filter(e => e.status === 'pending').length`. */
  function PendingCount(es: seq<Expense>): nat { CountWhere(es, IsPending) }
  function ApprovedCount(es: seq<Expense>): nat { CountWhere(es, IsApproved) }
  function RejectedCount(es: seq<Expense>): nat { CountWhere(es, IsRejected) }

  /** `expenses.filter(e => e.status === 'pending').reduce((sum, e) => sum + e.amount, 0)`. */
  function PendingTotal(es: seq<Expense>): int { SumWhere(es, IsPending, Amount) }
  function ApprovedTotal(es: seq<Expense>): int { SumWhere(es, IsApproved, Amount) }
  function RejectedTotal(es: seq<Expense>): int { SumWhere(es, IsRejected, Amount) }

  /** Every claim's amount is in exactly one of the three status totals. */
  lemma {:induction false} StatusTotalsPartition(es: seq<Expense>)
    ensures PendingTotal(es) + ApprovedTotal(es) + RejectedTotal(es) == Sum(es, Amount)
    decreases |es|
  {
    if es != [] {
      StatusTotalsPartition(es[1..]);
      WhereStep(es, IsPending, Amount);
      WhereStep(es, IsApproved, Amount);
      WhereStep(es, IsRejected, Amount);
    }
  }

  /** Every claim is counted under exactly one status. */
  lemma {:induction false} StatusCountsPartition(es: seq<Expense>)
    ensures PendingCount(es) + ApprovedCount(es) + RejectedCount(es) == |es|
    decreases |es|
  {
    if es != [] {
      StatusCountsPartition(es[1..]);
      WhereStep(es, IsPending, Amount);
      WhereStep(es, IsApproved, Amount);
      WhereStep(es, IsRejected, Amount);
    }
  }

  /** A pending claim that is decided moves out of the pending count and total;
      approving it adds its amount to the approved total, rejecting it to neither
      the pending nor the approved total. */
  lemma DecisionMovesAmount(es: seq<Expense>, i: int, decision: ExpenseStatus)
    requires 0 <= i < |es| && es[i].status == Pending && decision != Pending
    ensures PendingCount(es[i := es[i].(status := decision)]) == PendingCount(es) - 1
    ensures PendingTotal(es[i := es[i].(status := decision)]) == PendingTotal(es) - es[i].amount
    ensures ApprovedTotal(es[i := es[i].(status := decision)]) ==
            ApprovedTotal(es) + (if decision == Approved then es[i].amount else 0)
  {
    var x := es[i].(status := decision);
    WhereUpdate(es, i, x, IsPending, Amount);
    WhereUpdate(es, i, x, IsApproved, Amount);
  }

  /** The fields the expense pages search: title and category. */
  function SearchFields(e: Expense): seq<string>
  {
    [e.title, e.category]
  }

  /** A claim matches the search exactly when its title or its category does. */
  lemma ExpenseSearchMeaning(query: string)
    ensures forall e: Expense :: AnyFieldMatches(SearchFields(e), query) <==>
              ContainsIgnoringCase(e.title, query) || ContainsIgnoringCase(e.category, query)
  {
    forall e: Expense
      ensures AnyFieldMatches(SearchFields(e), query) <==>
              ContainsIgnoringCase(e.title, query) || ContainsIgnoringCase(e.category, query)
    {
      var fs := SearchFields(e);
      if ContainsIgnoringCase(fs[0], query) || ContainsIgnoringCase(fs[1], query) {
        assert AnyFieldMatches(fs, query);
      }
    }
  }

  /** The expense search: exactly the claims whose title or category contains
      the query, ignoring case, each as often as it was listed, in their
      original order; the empty query keeps them all. */
  lemma SearchExpensesSpec(es: seq<Expense>, query: string)
    ensures forall k | 0 <= k < |SearchRows(es, SearchFields, query)| ::
              var e := SearchRows(es, SearchFields, query)[k];
              (ContainsIgnoringCase(e.title, query) || ContainsIgnoringCase(e.category, query)) && e in es
    ensures forall x | x in es :: multiset(SearchRows(es, SearchFields, query))[x] ==
              if ContainsIgnoringCase(x.title, query) || ContainsIgnoringCase(x.category, query)
              then multiset(es)[x] else 0
    ensures IsSubsequence(SearchRows(es, SearchFields, query), es)
    ensures SearchRows(es, SearchFields, "") == es
  {
    ExpenseSearchMeaning(query);
    EmptyQueryKeepsAll(es, SearchFields);
  }
}
