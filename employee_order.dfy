/** The order of the employee list: the sort key a record gives for the chosen
    column, the comparator that compares two numeric keys as numbers and
    anything else as lower-cased text, and the in-place sort that applies it. */
module EmployeeOrder {
  import opened Wrappers
  import opened Text

  /** An employee record as the employee list receives it; the text columns
      other than the email may be null. */
  datatype StaffRecord = StaffRecord(
    id: string,
    userId: string,
    email: string,
    fullName: Option<string>,
    department: Option<string>,
    designation: Option<string>,
    salary: int,
    joinDate: Option<string>,
    status: string,
    createdAt: string,
    updatedAt: string)

  /** The columns the list can be sorted by. */
  datatype SortField = ByFullName | ByDepartment | BySalary | ByJoinDate | ByCreatedAt

  datatype SortOrder = Ascending | Descending

  /** A sort key after `a[sortBy] || ''`: a number, or text. */
  datatype SortKey = Num(n: int) | Str(s: string)

  /** `record[sortBy] || ''`: a null or empty text becomes `''`, and so does a
      salary of 0, which is falsy. */
  function KeyOf(e: StaffRecord, column: SortField): (k: SortKey)
    ensures column != BySalary ==> k.Str?
    ensures column == ByFullName ==> k == Str(if e.fullName.Some? then e.fullName.value else "")
    ensures column == ByDepartment ==> k == Str(if e.department.Some? then e.department.value else "")
    ensures column == ByJoinDate ==> k == Str(if e.joinDate.Some? then e.joinDate.value else "")
    ensures column == ByCreatedAt ==> k == Str(e.createdAt)
    ensures column == BySalary ==> (k == Str("") <==> e.salary == 0) && (e.salary != 0 ==> k == Num(e.salary))
  {
    match column
    case ByFullName => Str(e.fullName.GetOr(""))
    case ByDepartment => Str(e.department.GetOr(""))
    case BySalary => if e.salary == 0 then Str("") else Num(e.salary)
    case ByJoinDate => Str(e.joinDate.GetOr(""))
    case ByCreatedAt => Str(e.createdAt)
  }

  /** `String(key)`. */
  function KeyText(k: SortKey): string
  {
    match k
    case Num(n) => DecimalString(n)
    case Str(s) => s
  }

  /** `x.localeCompare(y)`, taken as the lexicographic order of characters:
      negative, zero or positive. */
  function LexCompare(x: string, y: string): (c: int)
    ensures -1 <= c <= 1
    ensures c == 0 <==> x == y
    decreases |x|
  {
    if x == [] && y == [] then 0
    else if x == [] then -1
    else if y == [] then 1
    else if x[0] < y[0] then -1
    else if x[0] > y[0] then 1
    else
      assert x == [x[0]] + x[1..] && y == [y[0]] + y[1..];
      LexCompare(x[1..], y[1..])
  }

  /** Swapping the arguments negates the comparison. */
  lemma {:induction false} LexAntisymmetric(x: string, y: string)
    ensures LexCompare(y, x) == -LexCompare(x, y)
    decreases |x|
  {
    if x != [] && y != [] && x[0] == y[0] {
      LexAntisymmetric(x[1..], y[1..]);
    }
  }

  /** "At most" in the lexicographic order is transitive. */
  lemma {:induction false} LexTransitive(x: string, y: string, z: string)
    requires LexCompare(x, y) <= 0 && LexCompare(y, z) <= 0
    ensures LexCompare(x, z) <= 0
    decreases |x|
  {
    if x != [] && y != [] && z != [] && x[0] == y[0] && y[0] == z[0] {
      LexTransitive(x[1..], y[1..], z[1..]);
    }
  }

  /** The sort comparator: two numbers compare by their difference, anything else
      as lower-cased text; the descending order swaps the operands. */
  function Compare(a: SortKey, b: SortKey, order: SortOrder): (c: int)
    ensures a.Num? && b.Num? ==> (c < 0 <==> if order == Ascending then a.n < b.n else b.n < a.n)
    ensures a.Num? && b.Num? ==> (c == 0 <==> a.n == b.n)
    ensures !(a.Num? && b.Num?) ==> -1 <= c <= 1
    ensures !(a.Num? && b.Num?) ==> (c == 0 <==> Lower(KeyText(a)) == Lower(KeyText(b)))
  {
    if a.Num? && b.Num? then
      (if order == Ascending then a.n - b.n else b.n - a.n)
    else
      var ta, tb := Lower(KeyText(a)), Lower(KeyText(b));
      if order == Ascending then LexCompare(ta, tb) else LexCompare(tb, ta)
  }

  /** Swapping the records negates the comparator's answer. */
  lemma CompareAntisymmetric(a: SortKey, b: SortKey, order: SortOrder)
    ensures Compare(b, a, order) == -Compare(a, b, order)
  {
    if !(a.Num? && b.Num?) {
      LexAntisymmetric(Lower(KeyText(a)), Lower(KeyText(b)));
    }
  }

  /** `x` may stay before `y`: the comparator does not ask to swap them. */
  predicate Ordered(x: StaffRecord, y: StaffRecord, column: SortField, order: SortOrder)
  {
    Compare(KeyOf(x, column), KeyOf(y, column), order) <= 0
  }

  /** Keys of one column are all text, or all non-zero numbers and `''`; within
      one column the comparator is a consistent order. */
  lemma OrderedTransitive(x: StaffRecord, y: StaffRecord, z: StaffRecord, column: SortField, order: SortOrder)
    requires Ordered(x, y, column, order) && Ordered(y, z, column, order)
    ensures Ordered(x, z, column, order)
  {
    var kx, ky, kz := KeyOf(x, column), KeyOf(y, column), KeyOf(z, column);
    var tx, ty, tz := Lower(KeyText(kx)), Lower(KeyText(ky)), Lower(KeyText(kz));
    if kx.Str? && ky.Str? && kz.Str? {
      if order == Ascending {
        LexTransitive(tx, ty, tz);
      } else {
        LexTransitive(tz, ty, tx);
      }
    } else {
      // A salary column: the empty text sorts before every number, and numbers
      // compare by difference.
      assert column == BySalary;
    }
  }

  /** Every neighbouring pair of `s[lo..hi]` is in order. */
  ghost predicate SortedBetween(s: seq<StaffRecord>, lo: int, hi: int, column: SortField, order: SortOrder)
  {
    forall p, q | lo <= p && q == p + 1 && q < hi && 0 <= p && q < |s| :: Ordered(s[p], s[q], column, order)
  }

  /** Every pair of `s`, not only the neighbouring ones, is in order. */
  ghost predicate Sorted(s: seq<StaffRecord>, column: SortField, order: SortOrder)
  {
    forall p, q | 0 <= p < q < |s| :: Ordered(s[p], s[q], column, order)
  }

  /** Because the comparator is a consistent order within one column, a list
      whose neighbours are in order is sorted. */
  lemma {:induction false} NeighboursSorted(s: seq<StaffRecord>, column: SortField, order: SortOrder)
    requires SortedBetween(s, 0, |s|, column, order)
    ensures Sorted(s, column, order)
    decreases |s|
  {
    if |s| > 1 {
      var init := s[..|s| - 1];
      assert SortedBetween(init, 0, |init|, column, order) by {
        forall p, q | 0 <= p && q == p + 1 && q < |init| ensures Ordered(init[p], init[q], column, order) {
          assert init[p] == s[p] && init[q] == s[q];
        }
      }
      NeighboursSorted(init, column, order);
      forall p, q | 0 <= p < q < |s| ensures Ordered(s[p], s[q], column, order) {
        if q < |s| - 1 {
          assert init[p] == s[p] && init[q] == s[q];
        } else if p < q - 1 {
          assert init[p] == s[p] && init[q - 1] == s[q - 1];
          OrderedTransitive(s[p], s[q - 1], s[q], column, order);
        }
      }
    }
  }

  /** What the order means for the salary column: ascending puts the records
      without a salary first and the rest column increasing salary; descending is
      the reverse. */
  lemma SalaryOrder(s: seq<StaffRecord>, order: SortOrder, p: int, q: int)
    requires Sorted(s, BySalary, order) && 0 <= p < q < |s|
    ensures order == Ascending && s[p].salary != 0 ==> s[q].salary != 0 && s[p].salary <= s[q].salary
    ensures order == Descending && s[q].salary != 0 ==> s[p].salary != 0 && s[p].salary >= s[q].salary
  {
    assert Ordered(s[p], s[q], BySalary, order);
  }

  /** `employees.sort(comparator)`, in place: insertion column neighbour swaps, which
      like the engine's sort keeps records the comparator ties in their order. */
  method SortEmployees(a: array<StaffRecord>, column: SortField, order: SortOrder)
    modifies a
    ensures multiset(a[..]) == multiset(old(a[..]))
    ensures Sorted(a[..], column, order)
  {
    var i := 0;
    while i < a.Length
      invariant 0 <= i <= a.Length
      invariant multiset(a[..]) == multiset(old(a[..]))
      invariant SortedBetween(a[..], 0, i, column, order)
    {
      InsertLast(a, i, column, order);
      i := i + 1;
    }
    NeighboursSorted(a[..], column, order);
  }

  /** Moves `a[i]` left past every record the comparator puts after it, so that
      `a[..i + 1]` has its neighbours in order. */
  method InsertLast(a: array<StaffRecord>, i: int, column: SortField, order: SortOrder)
    requires 0 <= i < a.Length
    requires SortedBetween(a[..], 0, i, column, order)
    modifies a
    ensures multiset(a[..]) == multiset(old(a[..]))
    ensures SortedBetween(a[..], 0, i + 1, column, order)
  {
    var j := i;
    while j > 0 && Compare(KeyOf(a[j - 1], column), KeyOf(a[j], column), order) > 0
      invariant 0 <= j <= i
      invariant multiset(a[..]) == multiset(old(a[..]))
      invariant Inserting(a[..], i, j, column, order)
    {
      ghost var before := a[..];
      a[j - 1], a[j] := a[j], a[j - 1];
      assert a[..] == before[j - 1 := before[j]][j := before[j - 1]];
      SwapStep(before, i, j, column, order);
      j := j - 1;
    }
    InsertDone(a[..], i, j, column, order);
  }

  /** Halfway through inserting `s[j]` into `s[..i + 1]`: the records before and
      after it are each in order, it is in order with its right neighbour, and
      its two neighbours are in order with each other, as they were before it
      came between them. */
  ghost predicate Inserting(s: seq<StaffRecord>, i: int, j: int, column: SortField, order: SortOrder)
  {
    0 <= j <= i < |s| &&
    SortedBetween(s, 0, j, column, order) &&
    SortedBetween(s, j + 1, i + 1, column, order) &&
    (j < i ==> Ordered(s[j], s[j + 1], column, order)) &&
    (0 < j < i ==> Ordered(s[j - 1], s[j + 1], column, order))
  }

  /** One swap to the left keeps the insertion invariant. */
  lemma SwapStep(s: seq<StaffRecord>, i: int, j: int, column: SortField, order: SortOrder)
    requires Inserting(s, i, j, column, order) && j > 0
    requires Compare(KeyOf(s[j - 1], column), KeyOf(s[j], column), order) > 0
    ensures Inserting(s[j - 1 := s[j]][j := s[j - 1]], i, j - 1, column, order)
  {
    var t := s[j - 1 := s[j]][j := s[j - 1]];
    CompareAntisymmetric(KeyOf(s[j - 1], column), KeyOf(s[j], column), order);
    assert Ordered(t[j - 1], t[j], column, order);
    forall p, q | j <= p && q == p + 1 && q < i + 1 && 0 <= p && q < |t|
      ensures Ordered(t[p], t[q], column, order)
    {
      if p == j {
        assert t[p] == s[j - 1] && t[q] == s[j + 1];
      } else {
        assert t[p] == s[p] && t[q] == s[q];
      }
    }
    forall p, q | 0 <= p && q == p + 1 && q < j - 1 && q < |t|
      ensures Ordered(t[p], t[q], column, order)
    {
      assert t[p] == s[p] && t[q] == s[q];
    }
    if 1 < j {
      assert t[j - 2] == s[j - 2] && t[j] == s[j - 1];
    }
  }

  /** When the inserted record is in order with its left neighbour (or first),
      the whole prefix `s[..i + 1]` has its neighbours in order. */
  lemma InsertDone(s: seq<StaffRecord>, i: int, j: int, column: SortField, order: SortOrder)
    requires Inserting(s, i, j, column, order)
    requires j == 0 || Compare(KeyOf(s[j - 1], column), KeyOf(s[j], column), order) <= 0
    ensures SortedBetween(s, 0, i + 1, column, order)
  {
  }
}
