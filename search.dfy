/** The search box every list page has: keep the rows one of whose chosen text
    fields contains the query, ignoring case. A field that is null is simply not
    among a row's fields, so it never matches. */
module Search {
  import opened Text
  import opened Seqs

  /** Some field contains the query, ignoring case. */
  predicate AnyFieldMatches(fields: seq<string>, query: string)
  {
    exists k | 0 <= k < |fields| :: ContainsIgnoringCase(fields[k], query)
  }

  /** `rows.filter(r => field1.toLowerCase().includes(q) || field2... )`. */
  function SearchRows<T>(rows: seq<T>, fields: T -> seq<string>, query: string): (r: seq<T>)
    ensures forall k | 0 <= k < |r| :: AnyFieldMatches(fields(r[k]), query) && r[k] in rows
    ensures forall k | 0 <= k < |rows| && AnyFieldMatches(fields(rows[k]), query) :: rows[k] in r
    ensures forall x | x in rows :: multiset(r)[x] == if AnyFieldMatches(fields(x), query) then multiset(rows)[x] else 0
    ensures IsSubsequence(r, rows)
  {
    FilterIsSubsequence(rows, x => AnyFieldMatches(fields(x), query));
    FilterCounts(rows, x => AnyFieldMatches(fields(x), query));
    Filter(rows, x => AnyFieldMatches(fields(x), query))
  }

  /** The empty query keeps every row that has a field, in order. */
  lemma EmptyQueryKeepsAll<T>(rows: seq<T>, fields: T -> seq<string>)
    requires forall k | 0 <= k < |rows| :: fields(rows[k]) != []
    ensures SearchRows(rows, fields, "") == rows
  {
    forall k | 0 <= k < |rows| ensures AnyFieldMatches(fields(rows[k]), "") {
      EmptyQueryMatches(fields(rows[k])[0]);
    }
    FilterKeepsAll(rows, x => AnyFieldMatches(fields(x), ""));
  }

  /** Searching the result again with the same query changes nothing. */
  lemma SearchIdempotent<T>(rows: seq<T>, fields: T -> seq<string>, query: string)
    ensures SearchRows(SearchRows(rows, fields, query), fields, query) == SearchRows(rows, fields, query)
  {
    FilterIdempotent(rows, x => AnyFieldMatches(fields(x), query));
  }
}
