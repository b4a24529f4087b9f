/** Quantiles from cumulative histogram buckets, by linear interpolation in the containing bucket. */
module Quantile {
  import opened Prelude
  import opened Ordering

  datatype Bound = Fin(x: real) | Inf

  predicate BoundLess(a: Bound, b: Bound) {
    match (a, b)
    case (Fin(x), Fin(y)) => x < y
    case (Fin(_), Inf) => true
    case _ => false
  }

  predicate AtMost(a: Bound, b: Bound) {
    a == b || BoundLess(a, b)
  }

  lemma BoundsAreOrdered()
    ensures StrictTotalOrder(BoundLess)
  {
  }

  /** An upper bound with the number of observations at or below it. */
  datatype Bucket = Bucket(le: Bound, count: real)

  /** The buckets by increasing bound. */
  function Ordered(buckets: map<Bound, real>): (bs: seq<Bucket>)
    ensures |bs| == |buckets|
    ensures forall i, j | 0 <= i < j < |bs| :: BoundLess(bs[i].le, bs[j].le)
    ensures forall i | 0 <= i < |bs| :: bs[i].le in buckets && bs[i].count == buckets[bs[i].le]
  {
    BoundsAreOrdered();
    var keys := Sorted(buckets.Keys, BoundLess);
    assert forall i | 0 <= i < |keys| :: keys[i] in buckets.Keys;
    seq(|keys|, i requires 0 <= i < |keys| => Bucket(keys[i], buckets[keys[i]]))
  }

  datatype Estimate = NaN | Value(b: Bound)

  /** The point between `a` and `b` at the given part of the whole. */
  function Along(a: real, b: real, part: real, whole: real): (r: real)
    requires whole != 0.0
  {
    a + (b - a) * part / whole
  }

  /** The number of observations that a share of `q` makes up. */
  function Target(q: real, total: real): (r: real) { q * total }

  /** The value interpolated in one bucket that starts at `lower`, where `before` observations precede it. */
  function Interpolate(b: Bucket, target: real, lower: real, before: real): (r: Bound) {
    if b.le == Inf then Fin(lower)
    else if b.count - before <= 0.0 then b.le
    else Fin(Along(lower, b.le.x, target - before, b.count - before))
  }

  /** The value in the first bucket whose count reaches `target`. */
  function Walk(bs: seq<Bucket>, target: real, lower: real, before: real): (r: Option<Bound>) {
    if bs == [] then None
    else if bs[0].count >= target then Some(Interpolate(bs[0], target, lower, before))
    else Walk(bs[1..], target, if bs[0].le.Fin? then bs[0].le.x else lower, bs[0].count)
  }

  function QuantileOf(bs: seq<Bucket>, q: real): (r: Estimate) {
    if bs == [] || bs[|bs| - 1].count <= 0.0 then NaN
    else match Walk(bs, Target(q, bs[|bs| - 1].count), 0.0, 0.0)
      case Some(b) => Value(b)
      case None => Value(bs[|bs| - 1].le)
  }

  method EstimateQuantile(buckets: map<Bound, real>, q: real) returns (r: Estimate)
    ensures r == QuantileOf(Ordered(buckets), q)
  {
    hide Ordered, Interpolate, Target;
    var bs := Ordered(buckets);
    if bs == [] { return NaN; }
    var total := bs[|bs| - 1].count;
    if total <= 0.0 { return NaN; }
    var target := Target(q, total);
    var lower, before := 0.0, 0.0;
    assert bs[0..] == bs;
    for i := 0 to |bs|
      invariant Walk(bs[i..], target, lower, before) == Walk(bs, target, 0.0, 0.0)
    {
      var b := bs[i];
      assert bs[i..][0] == b && bs[i..][1..] == bs[i + 1..];
      if b.count >= target { return Value(Interpolate(b, target, lower, before)); }
      lower, before := if b.le.Fin? then b.le.x else lower, b.count;
    }
    return Value(bs[|bs| - 1].le);
  }

  // ---------------------------------------------------------------- histograms

  /** Bounds increase from `lower` and counts never fall below `before` nor decrease. */
  predicate Cumulative(bs: seq<Bucket>, lower: real, before: real) {
    bs == [] ||
    (&& AtMost(Fin(lower), bs[0].le) && before <= bs[0].count
     && (bs[0].le == Inf ==> |bs| == 1)
     && (bs[0].le.Fin? ==> Cumulative(bs[1..], bs[0].le.x, bs[0].count)))
  }

  predicate IsHistogram(bs: seq<Bucket>) {
    bs != [] && Cumulative(bs, 0.0, 0.0) && bs[|bs| - 1].count > 0.0
  }

  lemma AlongMonotone(a: real, b: real, p: real, q: real, whole: real)
    requires a <= b && p <= q && whole > 0.0
    ensures Along(a, b, p, whole) <= Along(a, b, q, whole)
  {
    var w := b - a;
    assert w * (q - p) >= 0.0;
    assert w * q / whole - w * p / whole == w * (q - p) / whole;
  }

  lemma AlongEnds(a: real, b: real, whole: real)
    requires whole > 0.0
    ensures Along(a, b, 0.0, whole) == a && Along(a, b, whole, whole) == b
  {
    assert (b - a) * whole / whole == b - a;
  }

  lemma AlongAbove(a: real, b: real, p: real, whole: real)
    requires a < b && p > 0.0 && whole > 0.0
    ensures Along(a, b, p, whole) > a
  {
    assert (b - a) * p > 0.0;
    assert (b - a) * p / whole > 0.0;
  }

  /** Going along one axis and back along the other. */
  lemma AlongInverse(a: real, b: real, c: real, d: real, p: real)
    requires a < b && c < d
    ensures Along(c, d, Along(a, b, p, d - c) - a, b - a) == c + p
  {
    var w, span := b - a, d - c;
    var x := w * p / span;
    assert x * span == w * p;
    assert span * x / w == p;
  }

  lemma TargetMonotone(q: real, r: real, total: real)
    requires total >= 0.0 && q <= r
    ensures Target(q, total) <= Target(r, total)
    ensures Target(0.0, total) == 0.0 && Target(1.0, total) == total
  {
    assert (r - q) * total >= 0.0;
  }

  /** Interpolation grows with the target and, up to the count of the bucket, stays at or below its bound. */
  lemma InterpolateMonotone(b: Bucket, t: real, u: real, lower: real, before: real)
    requires AtMost(Fin(lower), b.le) && t <= u
    ensures AtMost(Interpolate(b, t, lower, before), Interpolate(b, u, lower, before))
    ensures t <= b.count ==> AtMost(Interpolate(b, t, lower, before), b.le)
    ensures t >= before ==> AtMost(Fin(lower), Interpolate(b, t, lower, before))
  {
    hide Along;
    if b.le.Fin? && b.count - before > 0.0 {
      var span := b.count - before;
      AlongMonotone(lower, b.le.x, t - before, u - before, span);
      AlongEnds(lower, b.le.x, span);
      if t <= b.count { AlongMonotone(lower, b.le.x, t - before, span, span); }
      if t >= before { AlongMonotone(lower, b.le.x, 0.0, t - before, span); }
    }
  }

  lemma {:induction false} WalkAbove(bs: seq<Bucket>, target: real, lower: real, before: real)
    requires Cumulative(bs, lower, before) && target >= before
    ensures Walk(bs, target, lower, before).Some? ==> AtMost(Fin(lower), Walk(bs, target, lower, before).value)
  {
    hide Interpolate;
    if bs != [] {
      if bs[0].count >= target { InterpolateMonotone(bs[0], target, target, lower, before); }
      else if bs[0].le.Fin? { WalkAbove(bs[1..], target, bs[0].le.x, bs[0].count); }
    }
  }

  function Or(w: Option<Bound>, last: Bound): (r: Bound) {
    if w.Some? then w.value else last
  }

  lemma {:induction false} LastIsHighest(bs: seq<Bucket>, lower: real, before: real)
    requires Cumulative(bs, lower, before) && bs != []
    ensures AtMost(bs[0].le, bs[|bs| - 1].le) && bs[0].count <= bs[|bs| - 1].count
  {
    if |bs| > 1 { LastIsHighest(bs[1..], bs[0].le.x, bs[0].count); }
  }

  lemma {:induction false} WalkMonotone(bs: seq<Bucket>, t: real, u: real, lower: real, before: real, last: Bound)
    requires Cumulative(bs, lower, before) && t <= u
    requires AtMost(if bs == [] then Fin(lower) else bs[|bs| - 1].le, last)
    ensures AtMost(Or(Walk(bs, t, lower, before), last), Or(Walk(bs, u, lower, before), last))
  {
    hide Interpolate;
    if bs != [] {
      var b, rest := bs[0], bs[1..];
      LastIsHighest(bs, lower, before);
      InterpolateMonotone(b, t, u, lower, before);
      if b.count < u {
        if b.count < t {
          if b.le.Fin? { WalkMonotone(rest, t, u, b.le.x, b.count, last); }
        } else if b.le.Fin? {
          WalkAbove(rest, u, b.le.x, b.count);
        } else {
          assert rest == [];
        }
      }
    }
  }

  /** Over a histogram the estimate never decreases in `q`, whatever `q` is. */
  lemma QuantileIsMonotone(bs: seq<Bucket>, q: real, r: real)
    requires IsHistogram(bs) && q <= r
    ensures QuantileOf(bs, q).Value? && QuantileOf(bs, r).Value?
    ensures AtMost(QuantileOf(bs, q).b, QuantileOf(bs, r).b)
  {
    hide Walk, Target, Cumulative;
    var total := bs[|bs| - 1].count;
    TargetMonotone(q, r, total);
    WalkMonotone(bs, Target(q, total), Target(r, total), 0.0, 0.0, bs[|bs| - 1].le);
  }

  // ---------------------------------------------------------------- where the estimate lies

  /** Where bucket `i` starts, and how many observations precede it. */
  function LowerEdge(bs: seq<Bucket>, i: nat): (r: real)
    requires i < |bs|
  {
    if i > 0 && bs[i - 1].le.Fin? then bs[i - 1].le.x else 0.0
  }

  function CountBefore(bs: seq<Bucket>, i: nat): (r: real)
    requires i < |bs|
  {
    if i > 0 then bs[i - 1].count else 0.0
  }

  /** Bucket `i` is the first to hold at least `target` observations. */
  predicate Contains(bs: seq<Bucket>, i: nat, target: real) {
    i < |bs| && bs[i].count >= target && forall j | 0 <= j < i :: bs[j].count < target
  }

  lemma {:induction false} WalkReaches(bs: seq<Bucket>, k: nat, target: real, lower: real, before: real)
    returns (i: nat)
    requires k < |bs| && Cumulative(bs[k..], lower, before) && bs[|bs| - 1].count >= target
    requires lower == LowerEdge(bs, k) && before == CountBefore(bs, k)
    requires forall j | 0 <= j < k :: bs[j].count < target && bs[j].le.Fin?
    ensures k <= i && Contains(bs, i, target)
    ensures AtMost(Fin(LowerEdge(bs, i)), bs[i].le) && CountBefore(bs, i) <= bs[i].count
    ensures forall j | 0 <= j < i :: bs[j].le.Fin?
    ensures Walk(bs[k..], target, lower, before)
      == Some(Interpolate(bs[i], target, LowerEdge(bs, i), CountBefore(bs, i)))
    decreases |bs| - k
  {
    hide Interpolate;
    assert bs[k..][0] == bs[k] && bs[k..][1..] == bs[k + 1..];
    if bs[k].count >= target {
      i := k;
    } else {
      assert bs[k].le.Fin? && k + 1 < |bs|;
      i := WalkReaches(bs, k + 1, target, bs[k].le.x, bs[k].count);
    }
  }

  /** For `q` between 0 and 1 the estimate lies in the first bucket that holds a share of `q`. */
  lemma QuantileInBucket(bs: seq<Bucket>, q: real) returns (i: nat)
    requires IsHistogram(bs) && 0.0 <= q <= 1.0
    ensures Contains(bs, i, Target(q, bs[|bs| - 1].count))
    ensures QuantileOf(bs, q).Value?
    ensures AtMost(Fin(LowerEdge(bs, i)), QuantileOf(bs, q).b) && AtMost(QuantileOf(bs, q).b, bs[i].le)
    ensures QuantileOf(bs, q).b
      == Interpolate(bs[i], Target(q, bs[|bs| - 1].count), LowerEdge(bs, i), CountBefore(bs, i))
  {
    hide Walk, Interpolate, Target, Cumulative;
    var total := bs[|bs| - 1].count;
    var target := Target(q, total);
    TargetMonotone(q, 1.0, total);
    TargetMonotone(0.0, q, total);
    assert bs[0..] == bs;
    i := WalkReaches(bs, 0, target, 0.0, 0.0);
    InterpolateMonotone(bs[i], target, target, LowerEdge(bs, i), CountBefore(bs, i));
    assert CountBefore(bs, i) <= target;
  }

  /** No finite bound of the histogram lies above `x`, and it is one of them, or zero when there is none. */
  predicate IsGreatestFinite(bs: seq<Bucket>, x: real) {
    && (forall j | 0 <= j < |bs| :: bs[j].le.Fin? ==> bs[j].le.x <= x)
    && (if forall j | 0 <= j < |bs| :: bs[j].le == Inf then x == 0.0 else exists j ::
      0 <= j < |bs| && bs[j].le == Fin(x))
  }

  lemma {:induction false} UnboundedIsLast(bs: seq<Bucket>, lower: real, before: real, i: nat)
    requires Cumulative(bs, lower, before) && i < |bs| && bs[i].le == Inf
    ensures i == |bs| - 1
  {
    if i > 0 { UnboundedIsLast(bs[1..], bs[0].le.x, bs[0].count, i - 1); }
  }

  /** In the unbounded bucket the estimate is the greatest finite bound, or zero when there is none. */
  lemma QuantileInUnboundedBucket(bs: seq<Bucket>, q: real, i: nat)
    requires IsHistogram(bs) && 0.0 <= q <= 1.0 && Contains(bs, i, Target(q, bs[|bs| - 1].count)) && bs[i].le == Inf
    ensures QuantileOf(bs, q).Value? && QuantileOf(bs, q).b.Fin?
    ensures IsGreatestFinite(bs, QuantileOf(bs, q).b.x)
  {
    hide Cumulative, Walk, Target, QuantileOf;
    var k := QuantileInBucket(bs, q);
    assert k == i;
    UnboundedIsLast(bs, 0.0, 0.0, i);
    var x := LowerEdge(bs, i);
    if i > 0 {
      FiniteBelowLast(bs, i - 1);
      forall j | 0 <= j < i ensures bs[j].le.Fin? && bs[j].le.x <= x {
        FiniteBelowLast(bs, j);
        EdgesIncrease(bs, 0.0, 0.0, j, i - 1);
      }
      assert bs[i - 1].le == Fin(x);
    }
  }

  lemma FiniteBelowLast(bs: seq<Bucket>, j: nat)
    requires IsHistogram(bs) && j < |bs| - 1
    ensures bs[j].le.Fin?
  {
    if bs[j].le == Inf { UnboundedIsLast(bs, 0.0, 0.0, j); }
  }

  // ---------------------------------------------------------------- round trip through the distribution

  /** The number of observations at or below `x`, spread evenly inside each bucket. */
  function Cdf(bs: seq<Bucket>, x: real, lower: real, before: real): (r: real) {
    if bs == [] || bs[0].le == Inf then before
    else if x > bs[0].le.x then Cdf(bs[1..], x, bs[0].le.x, bs[0].count)
    else if bs[0].le.x > lower then Along(before, bs[0].count, x - lower, bs[0].le.x - lower)
    else bs[0].count
  }

  lemma {:induction false} CdfInBucket(bs: seq<Bucket>, k: nat, i: nat, x: real)
    requires k <= i < |bs| && bs[i].le.Fin? && LowerEdge(bs, i) < bs[i].le.x
    requires forall j | 0 <= j < i :: bs[j].le.Fin? && bs[j].le.x < x
    requires x <= bs[i].le.x
    ensures Cdf(bs[k..], x, LowerEdge(bs, k), CountBefore(bs, k))
         == Along(CountBefore(bs, i), bs[i].count, x - LowerEdge(bs, i), bs[i].le.x - LowerEdge(bs, i))
    decreases i - k
  {
    hide Along;
    assert bs[k..][0] == bs[k] && bs[k..][1..] == bs[k + 1..];
    if k < i { CdfInBucket(bs, k + 1, i, x); }
  }

  lemma {:induction false} EdgesIncrease(bs: seq<Bucket>, lower: real, before: real, j: nat, i: nat)
    requires Cumulative(bs, lower, before) && j <= i < |bs| && bs[i].le.Fin?
    ensures bs[j].le.Fin? && bs[j].le.x <= bs[i].le.x
  {
    if j > 0 { EdgesIncrease(bs[1..], bs[0].le.x, bs[0].count, j - 1, i - 1); }
    else if i > 0 { EdgesIncrease(bs[1..], bs[0].le.x, bs[0].count, 0, i - 1); }
  }

  /** With something between the lower edge and the target, the estimate is strictly above that edge. */
  lemma InterpolateAbove(b: Bucket, target: real, lower: real, before: real)
    requires b.le.Fin? && b.le.x > lower && b.count > before && target > before
    ensures Interpolate(b, target, lower, before).x > lower
  {
    AlongAbove(lower, b.le.x, target - before, b.count - before);
  }

  /**
   In a finite bucket of positive width that holds observations, the distribution maps the estimate
   back to exactly `q` times the total.
   */
  lemma QuantileRoundTrip(bs: seq<Bucket>, q: real, i: nat)
    requires IsHistogram(bs) && 0.0 <= q <= 1.0 && Contains(bs, i, Target(q, bs[|bs| - 1].count))
    requires bs[i].le.Fin? && LowerEdge(bs, i) < bs[i].le.x && CountBefore(bs, i) < bs[i].count
    ensures QuantileOf(bs, q).Value? && QuantileOf(bs, q).b.Fin?
    ensures Cdf(bs, QuantileOf(bs, q).b.x, 0.0, 0.0) == Target(q, bs[|bs| - 1].count)
  {
    hide QuantileOf, Interpolate, IsHistogram, Along, Target, Cdf;
    var target := Target(q, bs[|bs| - 1].count);
    var k := QuantileInBucket(bs, q);
    assert k == i;
    var lower, before := LowerEdge(bs, i), CountBefore(bs, i);
    InterpolatedPlace(bs[i], target, lower, before);
    var x := QuantileOf(bs, q).b.x;
    forall j | 0 <= j < i ensures bs[j].le.Fin? && bs[j].le.x < x {
      HistogramEdges(bs, j, i);
      InterpolateAbove(bs[i], target, lower, before);
    }
    assert bs[0..] == bs;
    CdfInBucket(bs, 0, i, x);
  }

  lemma HistogramEdges(bs: seq<Bucket>, j: nat, i: nat)
    requires IsHistogram(bs) && j < i < |bs| && bs[i].le.Fin?
    ensures bs[j].le.Fin? && bs[j].le.x <= LowerEdge(bs, i)
  {
    EdgesIncrease(bs, 0.0, 0.0, i - 1, i);
    EdgesIncrease(bs, 0.0, 0.0, j, i - 1);
  }

  lemma InterpolatedPlace(b: Bucket, target: real, lower: real, before: real)
    requires b.le.Fin? && b.le.x > lower && b.count > before
    ensures var r := Interpolate(b, target, lower, before);
      r.Fin? && Along(before, b.count, r.x - lower, b.le.x - lower) == target
  {
    hide Along;
    AlongInverse(lower, b.le.x, before, b.count, target - before);
  }

  // ---------------------------------------------------------------- the inputs it is meant for

  /** Non-negative bounds with non-decreasing counts, and at least one observation. */
  predicate IsCumulativeCount(m: map<Bound, real>) {
    && (forall b | b in m :: AtMost(Fin(0.0), b) && m[b] >= 0.0)
    && (forall a, b | a in m && b in m && BoundLess(a, b) :: m[a] <= m[b])
    && (exists b :: b in m && m[b] > 0.0)
  }

  lemma {:induction false} SuffixIsCumulative(bs: seq<Bucket>, k: nat)
    requires k <= |bs|
    requires forall i, j | 0 <= i < j < |bs| :: BoundLess(bs[i].le, bs[j].le) && bs[i].count <= bs[j].count
    requires forall i | 0 <= i < |bs| :: AtMost(Fin(0.0), bs[i].le) && bs[i].count >= 0.0
    ensures k < |bs| ==> Cumulative(bs[k..], LowerEdge(bs, k), CountBefore(bs, k))
    decreases |bs| - k
  {
    if k < |bs| {
      assert bs[k..][0] == bs[k] && bs[k..][1..] == bs[k + 1..];
      SuffixIsCumulative(bs, k + 1);
      if k > 0 { assert BoundLess(bs[k - 1].le, bs[k].le); }
      if k + 1 < |bs| { assert BoundLess(bs[k].le, bs[k + 1].le); }
    }
  }

  lemma OrderedCounts(m: map<Bound, real>)
    requires IsCumulativeCount(m)
    ensures var bs := Ordered(m);
      && (forall i, j | 0 <= i < j < |bs| :: BoundLess(bs[i].le, bs[j].le) && bs[i].count <= bs[j].count)
      && (forall i | 0 <= i < |bs| :: AtMost(Fin(0.0), bs[i].le) && bs[i].count >= 0.0)
  {
    hide Ordered, AtMost;
  }

  lemma LastCounts(m: map<Bound, real>)
    requires IsCumulativeCount(m)
    ensures Ordered(m) != [] && Ordered(m)[|Ordered(m)| - 1].count > 0.0
  {
    hide Ordered, AtMost, BoundLess;
    var b :| b in m && m[b] > 0.0;
    OrderedIsComplete(m, b);
    OrderedCounts(m);
    var bs := Ordered(m);
    var i :| 0 <= i < |bs| && bs[i].le == b;
    assert bs[i].count == m[b];
  }

  /** Such inputs are histograms once ordered, whatever the order they come in. */
  lemma OrderedIsHistogram(m: map<Bound, real>)
    requires IsCumulativeCount(m)
    ensures IsHistogram(Ordered(m))
  {
    hide Cumulative, Ordered, AtMost, BoundLess, IsCumulativeCount;
    OrderedCounts(m);
    LastCounts(m);
    SuffixIsCumulative(Ordered(m), 0);
    assert Ordered(m)[0..] == Ordered(m);
  }

  lemma OrderedIsComplete(m: map<Bound, real>, b: Bound)
    requires b in m
    ensures exists i :: 0 <= i < |Ordered(m)| && Ordered(m)[i].le == b
  {
    BoundsAreOrdered();
    var keys := Sorted(m.Keys, BoundLess);
    assert b in keys;
    var i :| 0 <= i < |keys| && keys[i] == b;
    assert Ordered(m)[i].le == b;
  }
}
