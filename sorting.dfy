/**
 * `sortDosings` (src/calculateCosts.ts:265-268): copies of the rows in
 * ascending order of priority. Rows are values here, so a copy is the row
 * itself; the row type is generic and `priority` reads its priority.
 */
module Sorting {

  ghost predicate SortedBy<T>(s: seq<T>, priority: T -> int) {
    forall i, j :: 0 <= i < j < |s| ==> priority(s[i]) <= priority(s[j])
  }

  /** A row no later in order than the head of a sorted list can go before it. */
  lemma {:induction false} SortedCons<T>(h: T, s: seq<T>, priority: T -> int)
    requires SortedBy(s, priority)
    requires s == [] || priority(h) <= priority(s[0])
    ensures SortedBy([h] + s, priority)
  {
    var r := [h] + s;
    forall i, j | 0 <= i < j < |r|
      ensures priority(r[i]) <= priority(r[j])
    {
      if i == 0 {
        assert r[j] == s[j - 1];
        assert priority(s[0]) <= priority(s[j - 1]);
      } else {
        assert r[i] == s[i - 1] && r[j] == s[j - 1];
      }
    }
  }

  /** Puts `x` before the first row of higher or equal priority. */
  function Insert<T>(x: T, sorted: seq<T>, priority: T -> int): (r: seq<T>)
    requires SortedBy(sorted, priority)
    ensures |r| == |sorted| + 1
    ensures r[0] == x || (sorted != [] && r[0] == sorted[0])
    ensures multiset(r) == multiset(sorted) + multiset{x}
    ensures SortedBy(r, priority)
    decreases |sorted|
  {
    if sorted == [] || priority(x) <= priority(sorted[0]) then
      SortedCons(x, sorted, priority);
      [x] + sorted
    else
      var tail := sorted[1..];
      assert SortedBy(tail, priority);
      var rest := Insert(x, tail, priority);
      assert priority(sorted[0]) <= priority(rest[0]);
      SortedCons(sorted[0], rest, priority);
      assert sorted == [sorted[0]] + tail;
      [sorted[0]] + rest
  }

  /** `sortDosings`: a permutation of the rows, ordered by ascending priority. */
  function SortDosings<T>(rows: seq<T>, priority: T -> int): (r: seq<T>)
    ensures |r| == |rows|
    ensures multiset(r) == multiset(rows)
    ensures SortedBy(r, priority)
  {
    if rows == [] then []
    else
      assert rows == [rows[0]] + rows[1..];
      Insert(rows[0], SortDosings(rows[1..], priority), priority)
  }

  /** Sorting rows that are already in order returns them unchanged. */
  lemma {:induction false} SortedUnchanged<T>(rows: seq<T>, priority: T -> int)
    requires SortedBy(rows, priority)
    ensures SortDosings(rows, priority) == rows
  {
    if rows != [] {
      assert SortedBy(rows[1..], priority);
      SortedUnchanged(rows[1..], priority);
    }
  }
}
