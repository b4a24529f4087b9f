/**
 Sorting of finite sets under a strict total order. A sorted enumeration of a set is
 unique (`SortedIsCanonical`), so two computations that end up with the same set of
 names, scores or bucket bounds also end up with the same list.
 */
module Ordering {

  ghost predicate StrictTotalOrder<T(!new)>(lt: (T, T) -> bool) {
    && (forall x :: !lt(x, x))
    && (forall x, y :: x != y ==> lt(x, y) || lt(y, x))
    && (forall x, y, z :: lt(x, y) && lt(y, z) ==> lt(x, z))
  }

  ghost predicate Increasing<T>(xs: seq<T>, lt: (T, T) -> bool) {
    forall i, j | 0 <= i < j < |xs| :: lt(xs[i], xs[j])
  }

  /** Every non-empty finite set has a least element. */
  lemma LeastExists<T(!new)>(s: set<T>, lt: (T, T) -> bool)
    requires StrictTotalOrder(lt)
    requires s != {}
    ensures exists x :: x in s && forall y | y in s :: y == x || lt(x, y)
  {
    var x :| x in s;
    if s != {x} {
      LeastExists(s - {x}, lt);
      var rest :| rest in s - {x} && forall y | y in s - {x} :: y == rest || lt(rest, y);
      var least := if lt(x, rest) then x else rest;
      forall y | y in s ensures y == least || lt(least, y) {
        if y != x { assert y in s - {x}; }
      }
    }
  }

  function Least<T(!new)>(s: set<T>, lt: (T, T) -> bool): (least: T)
    requires StrictTotalOrder(lt)
    requires s != {}
    ensures least in s && forall y | y in s :: y == least || lt(least, y)
  {
    LeastExists(s, lt);
    var x :| x in s && forall y | y in s :: y == x || lt(x, y);
    x
  }

  /** The elements of `s` in increasing order. */
  function Sorted<T(!new)>(s: set<T>, lt: (T, T) -> bool): (xs: seq<T>)
    requires StrictTotalOrder(lt)
    ensures Increasing(xs, lt)
    ensures forall x :: x in xs <==> x in s
    ensures |xs| == |s|
  {
    if s == {} then [] else
      var x := Least(s, lt);
      var rest := Sorted(s - {x}, lt);
      assert forall y :: y in [x] + rest <==> y == x || y in rest;
      [x] + rest
  }

  lemma {:induction false} SortedIsCanonical<T(!new)>(xs: seq<T>, ys: seq<T>, lt: (T, T) -> bool)
    requires StrictTotalOrder(lt)
    requires Increasing(xs, lt) && Increasing(ys, lt)
    requires forall x :: x in xs <==> x in ys
    ensures xs == ys
  {
    assert xs != [] ==> xs[0] in xs;
    assert ys != [] ==> ys[0] in ys;
    if xs != [] && ys != [] {
      var xt, yt := xs[1..], ys[1..];
      assert xs == [xs[0]] + xt && ys == [ys[0]] + yt;
      assert forall i | 0 <= i < |xt| :: xt[i] == xs[i + 1];
      assert forall i | 0 <= i < |yt| :: yt[i] == ys[i + 1];
      assert xs[0] == ys[0];
      assert forall i | 0 <= i < |xt| :: lt(xs[0], xt[i]);
      assert forall i | 0 <= i < |yt| :: lt(ys[0], yt[i]);
      forall x ensures x in xt <==> x in yt {
        assert x in xs <==> x == xs[0] || x in xt;
        assert x in ys <==> x == ys[0] || x in yt;
      }
      SortedIsCanonical(xt, yt, lt);
    }
  }

  /** Python compares strings by code point, then by length. */
  predicate TextLess(a: string, b: string) {
    if b == "" then false
    else if a == "" then true
    else if a[0] != b[0] then a[0] < b[0]
    else TextLess(a[1..], b[1..])
  }

  lemma {:induction false} TextLessIrreflexive(a: string)
    ensures !TextLess(a, a)
  {
    if a != "" { TextLessIrreflexive(a[1..]); }
  }

  lemma {:induction false} TextLessConnected(a: string, b: string)
    requires a != b
    ensures TextLess(a, b) || TextLess(b, a)
  {
    if a != "" && b != "" && a[0] == b[0] {
      assert a == [a[0]] + a[1..] && b == [b[0]] + b[1..];
      TextLessConnected(a[1..], b[1..]);
    }
  }

  lemma {:induction false} TextLessTransitive(a: string, b: string, c: string)
    requires TextLess(a, b) && TextLess(b, c)
    ensures TextLess(a, c)
  {
    if a != "" && a[0] == b[0] && b[0] == c[0] {
      TextLessTransitive(a[1..], b[1..], c[1..]);
    }
  }

  lemma TextLessIsStrictTotalOrder()
    ensures StrictTotalOrder(TextLess)
  {
    forall a ensures !TextLess(a, a) { TextLessIrreflexive(a); }
    forall a, b | a != b ensures TextLess(a, b) || TextLess(b, a) { TextLessConnected(a, b); }
    forall a, b, c | TextLess(a, b) && TextLess(b, c) ensures TextLess(a, c) { TextLessTransitive(a, b, c); }
  }

  /** Lexicographic order on pairs of strings, the sort key of correlation links. */
  predicate PairLess(a: (string, string), b: (string, string)) {
    TextLess(a.0, b.0) || (a.0 == b.0 && TextLess(a.1, b.1))
  }

  lemma PairLessIsStrictTotalOrder()
    ensures StrictTotalOrder(PairLess)
  {
    TextLessIsStrictTotalOrder();
    assert forall a, b, c :: TextLess(a, b) && TextLess(b, c) ==> TextLess(a, c);
    forall a, b, c | PairLess(a, b) && PairLess(b, c) ensures PairLess(a, c) {
      if TextLess(a.0, b.0) && TextLess(b.0, c.0) {
        assert TextLess(a.0, c.0);
      } else if a.0 == b.0 == c.0 {
        assert TextLess(a.1, c.1);
      }
    }
    forall a: (string, string), b: (string, string) | a != b ensures PairLess(a, b) || PairLess(b, a) {
      if a.0 == b.0 { assert a.1 != b.1; }
    }
  }

  function SortedTexts(s: set<string>): (xs: seq<string>)
    ensures Increasing(xs, TextLess)
    ensures forall x :: x in xs <==> x in s
    ensures |xs| == |s|
  {
    TextLessIsStrictTotalOrder();
    Sorted(s, TextLess)
  }

  function SortedPairs(s: set<(string, string)>): (xs: seq<(string, string)>)
    ensures Increasing(xs, PairLess)
    ensures forall x :: x in xs <==> x in s
    ensures |xs| == |s|
  {
    PairLessIsStrictTotalOrder();
    Sorted(s, PairLess)
  }
}
