/**
 * Folding an operation over a sequence. When two elements can join the fold
 * in either order, the result depends only on the multiset of elements. The
 * discount factor of a listing is such a fold, with real multiplication as
 * the operation.
 */
module Folds {

  /** `op(f(xs[0]), op(f(xs[1]), ... unit))` */
  function FoldMap<D, T>(op: (T, T) -> T, unit: T, f: D -> T, xs: seq<D>): T {
    if xs == [] then unit else op(f(xs[0]), FoldMap(op, unit, f, xs[1..]))
  }

  /** Two elements can join a fold in either order. */
  ghost predicate LeftCommutative<T(!new)>(op: (T, T) -> T) {
    forall a, b, c :: op(a, op(b, c)) == op(b, op(a, c))
  }

  /** Any element can be folded in first. */
  lemma {:induction false} FoldMapMoveToFront<D, T(!new)>(op: (T, T) -> T, unit: T, f: D -> T, l: seq<D>, x: D, r: seq<D>)
    requires LeftCommutative(op)
    ensures FoldMap(op, unit, f, l + [x] + r) == op(f(x), FoldMap(op, unit, f, l + r))
    decreases |l|
  {
    var s := l + [x] + r;
    if l == [] {
      assert s[0] == x && s[1..] == r && l + r == r;
    } else {
      assert s[0] == l[0] && s[1..] == l[1..] + [x] + r;
      assert (l + r)[0] == l[0] && (l + r)[1..] == l[1..] + r;
      FoldMapMoveToFront(op, unit, f, l[1..], x, r);
    }
  }

  /** Reordering the sequence does not change the fold. */
  lemma {:induction false} FoldMapOrderFree<D, T(!new)>(op: (T, T) -> T, unit: T, f: D -> T, a: seq<D>, b: seq<D>)
    requires LeftCommutative(op)
    requires multiset(a) == multiset(b)
    ensures FoldMap(op, unit, f, a) == FoldMap(op, unit, f, b)
    decreases |a|
  {
    if a == [] {
      assert |b| == |multiset(b)| == 0;
    } else {
      var x := a[0];
      assert x in multiset(b);
      var i :| 0 <= i < |b| && b[i] == x;
      var l, r := b[..i], b[i + 1..];
      assert b == l + [x] + r;
      assert a == [x] + a[1..];
      assert multiset(a[1..]) == multiset(a) - multiset{x};
      assert multiset(l + r) == multiset(l) + multiset(r);
      assert multiset(a[1..]) == multiset(l + r);
      FoldMapOrderFree(op, unit, f, a[1..], l + r);
      FoldMapMoveToFront(op, unit, f, l, x, r);
    }
  }
}
