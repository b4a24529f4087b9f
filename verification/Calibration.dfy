/** Choosing a detector's decision threshold on validation data, by a search over a finite grid. */
module Calibration {
  import opened Prelude
  import opened Ordering

  function RealLess(a: real, b: real): (r: bool) { a < b }

  /** The distinct scores in increasing order. */
  function Unique(scores: seq<real>): (cs: seq<real>)
    ensures Increasing(cs, RealLess)
    ensures forall c :: c in cs <==> c in scores
    ensures cs == [] <==> scores == []
  {
    assert scores != [] ==> scores[0] in SetOf(scores);
    Sorted(SetOf(scores), RealLess)
  }

  const Margin: real := 0.000000001

  function Midpoints(cs: seq<real>): (r: seq<real>) {
    if |cs| > 1 then seq(|cs| - 1, i requires 0 <= i < |cs| - 1 => (cs[i] + cs[i + 1]) / 2.0) else cs
  }

  /** A point below all scores, one between every two neighbours, and one above all. */
  function Grid(cs: seq<real>): (r: seq<real>)
    requires cs != []
  {
    [cs[0] - Margin] + Midpoints(cs) + [cs[|cs| - 1] + Margin]
  }

  // ---------------------------------------------------------------- what a threshold achieves

  /** How many windows with label `y` are flagged (`hit`), or not. */
  function Count(scores: seq<real>, labels: seq<int>, t: real, hit: bool, y: int): (r: nat)
    requires |scores| == |labels|
  {
    if scores == [] then 0 else
    var n := |scores| - 1;
    Count(scores[..n], labels[..n], t, hit, y) + if (scores[n] > t) == hit && labels[n] == y then 1 else 0
  }

  function Ratio(a: nat, b: nat): (r: real) { if b == 0 then 0.0 else a as real / b as real }

  function Recall(scores: seq<real>, labels: seq<int>, t: real): (r: real)
    requires |scores| == |labels|
  {
    var tp := Count(scores, labels, t, true, 1);
    Ratio(tp, tp + Count(scores, labels, t, false, 1))
  }

  function Precision(scores: seq<real>, labels: seq<int>, t: real): (r: real)
    requires |scores| == |labels|
  {
    var tp := Count(scores, labels, t, true, 1);
    Ratio(tp, tp + Count(scores, labels, t, true, 0))
  }

  function F1(scores: seq<real>, labels: seq<int>, t: real): (r: real)
    requires |scores| == |labels|
  {
    Harmonic(Precision(scores, labels, t), Recall(scores, labels, t))
  }

  function Harmonic(p: real, r: real): (res: real) {
    if p + r == 0.0 then 0.0 else 2.0 * p * r / (p + r)
  }

  /** The false positive rate. */
  function Fpr(scores: seq<real>, labels: seq<int>, t: real): (r: real)
    requires |scores| == |labels|
  {
    var fp := Count(scores, labels, t, true, 0);
    Ratio(fp, fp + Count(scores, labels, t, false, 0))
  }

  // ---------------------------------------------------------------- what the rates are

  lemma RatioParts(a: nat, b: nat)
    ensures a + b > 0 ==> Ratio(a, a + b) * (a + b) as real == a as real
    ensures a + b == 0 ==> Ratio(a, a + b) == 0.0
    ensures a > 0 ==> Ratio(a, a + b) > 0.0
  {
  }

  /** The harmonic mean of two shares of the same hits. */
  lemma HarmonicOfShares(tp: nat, fp: nat, fn: nat)
    ensures Harmonic(Ratio(tp, tp + fp), Ratio(tp, tp + fn)) == Ratio(2 * tp, 2 * tp + fp + fn)
  {
    if tp > 0 {
      var t, m, n := tp as real, (tp + fp) as real, (tp + fn) as real;
      assert (2 * tp) as real == 2.0 * t && (2 * tp + fp + fn) as real == m + n;
      HarmonicOfQuotients(t, m, n);
    }
  }

  lemma HarmonicOfQuotients(t: real, m: real, n: real)
    requires t > 0.0 && m > 0.0 && n > 0.0
    ensures t / m + t / n > 0.0 && 2.0 * (t / m) * (t / n) / (t / m + t / n) == 2.0 * t / (m + n)
  {
    var p, r := t / m, t / n;
    assert p * m == t && r * n == t;
    assert p > 0.0 && r > 0.0;
    Cross(p, r, m, n, t);
    QuotientOf(2.0 * p * r, p + r, 2.0 * t, m + n);
  }

  lemma Cross(p: real, r: real, m: real, n: real, t: real)
    requires p * m == t && r * n == t
    ensures (2.0 * p * r) * (m + n) == (2.0 * t) * (p + r)
  {
    calc {
      (2.0 * p * r) * (m + n);
      2.0 * r * (p * m) + 2.0 * p * (r * n);
      2.0 * r * t + 2.0 * p * t;
      (2.0 * t) * (p + r);
    }
  }

  lemma QuotientOf(a: real, b: real, c: real, d: real)
    requires b != 0.0 && d != 0.0 && a * d == c * b
    ensures a / b == c / d
  {
    var x := a / b;
    assert x * b == a;
    assert (x * d) * b == c * b;
    assert x * d == c;
  }

  /** F1 from the counts: twice the hits over twice the hits, the false alarms and the misses. */
  lemma F1FromCounts(scores: seq<real>, labels: seq<int>, t: real)
    requires |scores| == |labels|
    ensures var tp, fp, fn := Count(scores, labels, t, true, 1), Count(scores, labels, t, true, 0),
      Count(scores, labels, t, false, 1);
      F1(scores, labels, t) == if tp + fp + fn == 0 then 0.0 else (2 * tp) as real / (2 * tp + fp + fn) as real
  {
    hide Count, Harmonic;
    var tp, fp, fn := Count(scores, labels, t, true, 1), Count(scores, labels, t, true, 0),
      Count(scores, labels, t, false, 1);
    HarmonicOfShares(tp, fp, fn);
  }

  /** Window `i` is flagged exactly when it is anomalous. */
  predicate RightAt(scores: seq<real>, labels: seq<int>, t: real, i: nat)
    requires i < |scores| == |labels|
  {
    (labels[i] == 1 ==> scores[i] > t) && (labels[i] == 0 ==> scores[i] <= t)
  }

  lemma {:induction false} CountIsZero(scores: seq<real>, labels: seq<int>, t: real, hit: bool, y: int)
    requires |scores| == |labels|
    ensures Count(scores, labels, t, hit, y) == 0 <==>
      forall i | 0 <= i < |scores| :: !((scores[i] > t) == hit && labels[i] == y)
  {
    if scores != [] {
      var n := |scores| - 1;
      CountIsZero(scores[..n], labels[..n], t, hit, y);
      assert forall i | 0 <= i < n :: scores[..n][i] == scores[i] && labels[..n][i] == labels[i];
    }
  }

  /** F1 is one exactly when there is an anomalous window and every window is classified rightly. */
  lemma PerfectF1(scores: seq<real>, labels: seq<int>, t: real)
    requires |scores| == |labels|
    ensures F1(scores, labels, t) == 1.0 <==>
      1 in labels && forall i | 0 <= i < |scores| :: RightAt(scores, labels, t, i)
  {
    hide Count, F1;
    F1FromCounts(scores, labels, t);
    CountIsZero(scores, labels, t, true, 0);
    CountIsZero(scores, labels, t, false, 1);
    CountIsZero(scores, labels, t, true, 1);
    var tp, fp, fn := Count(scores, labels, t, true, 1), Count(scores, labels, t, true, 0),
      Count(scores, labels, t, false, 1);
    if tp + fp + fn > 0 { OneExactly(tp, fp + fn); }
    if 1 in labels {
      var i :| 0 <= i < |labels| && labels[i] == 1;
      assert tp > 0 || fn > 0;
    }
    assert forall i | 0 <= i < |scores| :: RightAt(scores, labels, t, i) <==>
      !((scores[i] > t) == true && labels[i] == 0) && !((scores[i] > t) == false && labels[i] == 1);
  }

  lemma OneExactly(a: nat, b: nat)
    requires a + b > 0
    ensures (2 * a) as real / (2 * a + b) as real == 1.0 <==> b == 0
  {
    var x, y := (2 * a) as real, (2 * a + b) as real;
    assert x / y == 1.0 <==> x == y;
  }

  datatype Objective = MaximiseF1 | WithinFpr(target: real)

  /** What the search maximises, compared lexicographically. */
  function Key(scores: seq<real>, labels: seq<int>, objective: Objective, t: real): (r: (real, real))
    requires |scores| == |labels|
  {
    match objective
    case MaximiseF1 => (F1(scores, labels, t), -Fpr(scores, labels, t))
    case WithinFpr(target) =>
      if Fpr(scores, labels, t) <= target then (1.0, Recall(scores, labels, t)) else (0.0, -Fpr(scores, labels, t))
  }

  predicate Above(a: (real, real), b: (real, real)) {
    a.0 > b.0 || (a.0 == b.0 && a.1 > b.1)
  }

  // ---------------------------------------------------------------- the grid stands for all thresholds

  predicate SamePredictions(scores: seq<real>, t: real, u: real) {
    forall s | s in scores :: s > t <==> s > u
  }

  lemma {:induction false} SameCounts(scores: seq<real>, labels: seq<int>, t: real, u: real, hit: bool, y: int)
    requires |scores| == |labels| && SamePredictions(scores, t, u)
    ensures Count(scores, labels, t, hit, y) == Count(scores, labels, u, hit, y)
  {
    if scores != [] {
      var n := |scores| - 1;
      assert scores[n] in scores;
      assert forall s | s in scores[..n] :: s in scores;
      SameCounts(scores[..n], labels[..n], t, u, hit, y);
    }
  }

  /** Thresholds that flag the same windows are worth the same under every objective. */
  lemma SameKey(scores: seq<real>, labels: seq<int>, objective: Objective, t: real, u: real)
    requires |scores| == |labels| && SamePredictions(scores, t, u)
    ensures Key(scores, labels, objective, t) == Key(scores, labels, objective, u)
    ensures Fpr(scores, labels, t) == Fpr(scores, labels, u) && Recall(scores, labels, t) == Recall(scores, labels, u)
  {
    hide Count, Ratio, Harmonic;
    SameCounts(scores, labels, t, u, true, 0);
    SameCounts(scores, labels, t, u, true, 1);
    SameCounts(scores, labels, t, u, false, 0);
    SameCounts(scores, labels, t, u, false, 1);
  }

  /** The last of the sorted scores that `t` does not fall short of. */
  function LastAtMost(cs: seq<real>, t: real): (k: int)
    requires Increasing(cs, RealLess)
    ensures -1 <= k < |cs|
    ensures forall i | 0 <= i < |cs| :: cs[i] <= t <==> i <= k
  {
    if cs == [] then -1
    else
      var n := |cs| - 1;
      if cs[n] <= t then
        assert forall i | 0 <= i < n :: RealLess(cs[i], cs[n]);
        n
      else LastAtMost(cs[..n], t)
  }

  /** Every real threshold flags the same windows as some grid point. */
  lemma GridCovers(scores: seq<real>, t: real) returns (k: nat)
    requires scores != []
    ensures Unique(scores) != [] && k < |Grid(Unique(scores))| && SamePredictions(scores, t, Grid(Unique(scores))[k])
  {
    GridEntry(Unique(scores), 0);
    hide Unique, Grid, Midpoints, Increasing;
    var cs := Unique(scores);
    var j := LastAtMost(cs, t);
    var grid := Grid(cs);
    k := if j == |cs| - 1 then |grid| - 1 else j + 1;
    forall s | s in scores ensures s > t <==> s > grid[k] {
      assert s in cs;
      var i :| 0 <= i < |cs| && cs[i] == s;
      GridPlace(cs, j, i);
    }
  }

  /** The points of the grid, by place. */
  lemma GridEntry(cs: seq<real>, k: nat)
    requires cs != [] && k < |Grid(cs)|
    ensures |Grid(cs)| == |Midpoints(cs)| + 2 && |Midpoints(cs)| == if |cs| > 1 then |cs| - 1 else 1
    ensures Grid(cs)[k] == if k == 0 then cs[0] - Margin
                           else if k == |Grid(cs)| - 1 then cs[|cs| - 1] + Margin
                           else Midpoints(cs)[k - 1]
  {
  }

  /** The grid point standing for thresholds between the `j`-th score and the next separates them. */
  lemma GridPlace(cs: seq<real>, j: int, i: nat)
    requires cs != [] && Increasing(cs, RealLess) && -1 <= j < |cs| && i < |cs|
    ensures var grid := Grid(cs);
      var k := if j == |cs| - 1 then |grid| - 1 else j + 1;
      cs[i] > grid[k] <==> i > j
  {
    GridEntry(cs, 0);
    var grid := Grid(cs);
    hide Increasing, RealLess, Midpoints, Grid;
    if j == |cs| - 1 {
      GridEntry(cs, |grid| - 1);
      ScoresOrdered(cs, i, |cs| - 1);
    } else if j == -1 {
      ScoresOrdered(cs, 0, i);
    } else {
      GridEntry(cs, j + 1);
      MidpointBetween(cs, j);
      if i <= j { ScoresOrdered(cs, i, j); } else { ScoresOrdered(cs, j + 1, i); }
    }
  }

  lemma ScoresOrdered(cs: seq<real>, a: nat, b: nat)
    requires Increasing(cs, RealLess) && a <= b < |cs|
    ensures cs[a] <= cs[b] && (a < b ==> cs[a] < cs[b])
  {
    assert a < b ==> RealLess(cs[a], cs[b]);
  }

  lemma MidpointBetween(cs: seq<real>, a: nat)
    requires Increasing(cs, RealLess) && |cs| > 1 && a < |Midpoints(cs)|
    ensures a + 1 < |cs| && cs[a] < Midpoints(cs)[a] < cs[a + 1]
  {
    ScoresOrdered(cs, a, a + 1);
  }

  /** Midpoints lie between the extreme scores and increase. */
  lemma MidpointsIncrease(cs: seq<real>, a: nat, b: nat)
    requires Increasing(cs, RealLess) && a < |Midpoints(cs)| && b < |Midpoints(cs)|
    ensures cs[0] <= Midpoints(cs)[a] <= cs[|cs| - 1]
    ensures a < b ==> Midpoints(cs)[a] < Midpoints(cs)[b]
  {
    hide Increasing, RealLess;
    if |cs| > 1 {
      hide Midpoints;
      MidpointBetween(cs, a);
      MidpointBetween(cs, b);
      ScoresOrdered(cs, 0, a);
      ScoresOrdered(cs, a + 1, |cs| - 1);
      if a < b { ScoresOrdered(cs, a + 1, b); }
    }
  }

  lemma GridIncreases(cs: seq<real>, a: nat, b: nat)
    requires cs != [] && Increasing(cs, RealLess) && a < b < |Grid(cs)|
    ensures Grid(cs)[a] < Grid(cs)[b]
  {
    hide Midpoints;
    var mids := Midpoints(cs);
    var grid := Grid(cs);
    assert cs[0] <= cs[|cs| - 1] by { assert |cs| > 1 ==> RealLess(cs[0], cs[|cs| - 1]); }
    assert forall k | 1 <= k <= |mids| :: grid[k] == mids[k - 1];
    if a > 0 { MidpointsIncrease(cs, a - 1, if b <= |mids| then b - 1 else a - 1); }
    else if b <= |mids| { MidpointsIncrease(cs, b - 1, b - 1); }
  }

  // ---------------------------------------------------------------- monotonicity

  /** Raising the threshold flags fewer windows of every label; the number of windows of a label is fixed. */
  lemma {:induction false} CountsMonotone(scores: seq<real>, labels: seq<int>, t: real, u: real, y: int)
    requires |scores| == |labels| && t <= u
    ensures Count(scores, labels, u, true, y) <= Count(scores, labels, t, true, y)
    ensures Count(scores, labels, u, true, y) + Count(scores, labels, u, false, y)
         == Count(scores, labels, t, true, y) + Count(scores, labels, t, false, y)
  {
    if scores != [] {
      var n := |scores| - 1;
      CountsMonotone(scores[..n], labels[..n], t, u, y);
    }
  }

  lemma RatioMonotone(a: nat, b: nat, c: nat)
    requires a <= b
    ensures Ratio(a, c) <= Ratio(b, c)
  {
    if c > 0 {
      var x, y, z := a as real, b as real, c as real;
      assert y / z - x / z == (y - x) / z;
    }
  }

  lemma RatesMonotone(scores: seq<real>, labels: seq<int>, t: real, u: real)
    requires |scores| == |labels| && t <= u
    ensures Recall(scores, labels, u) <= Recall(scores, labels, t) && Fpr(scores, labels, u) <= Fpr(scores, labels, t)
  {
    CountsMonotone(scores, labels, t, u, 0);
    CountsMonotone(scores, labels, t, u, 1);
    RatioMonotone(Count(scores, labels, u, true, 1), Count(scores, labels, t, true, 1),
                  Count(scores, labels, t, true, 1) + Count(scores, labels, t, false, 1));
    RatioMonotone(Count(scores, labels, u, true, 0), Count(scores, labels, t, true, 0),
                  Count(scores, labels, t, true, 0) + Count(scores, labels, t, false, 0));
  }

  lemma {:induction false} NothingFlagged(scores: seq<real>, labels: seq<int>, t: real, y: int)
    requires |scores| == |labels| && forall s | s in scores :: s <= t
    ensures Count(scores, labels, t, true, y) == 0
  {
    if scores != [] {
      var n := |scores| - 1;
      assert scores[n] in scores && forall s | s in scores[..n] :: s in scores;
      NothingFlagged(scores[..n], labels[..n], t, y);
    }
  }

  /** Above all scores nothing is flagged, so nothing falsely. */
  lemma TopHasNoFalsePositive(scores: seq<real>, labels: seq<int>)
    requires |scores| == |labels| && scores != []
    ensures var grid := Grid(Unique(scores)); Fpr(scores, labels, grid[|grid| - 1]) == 0.0
  {
    var cs := Unique(scores);
    var grid := Grid(cs);
    forall s | s in scores ensures s <= grid[|grid| - 1] {
      var i :| 0 <= i < |cs| && cs[i] == s;
      GridPlace(cs, |cs| - 1, i);
    }
    NothingFlagged(scores, labels, grid[|grid| - 1], 0);
  }

  // ---------------------------------------------------------------- the search

  class Detector {
    var threshold: real

    constructor ()
    {
      threshold := 0.0;
    }

    /** Flags the windows that score above the threshold. */
    method Predict(scores: seq<real>) returns (flags: seq<bool>)
      ensures |flags| == |scores| && forall i | 0 <= i < |flags| :: flags[i] <==> scores[i] > threshold
    {
      flags := seq(|scores|, i requires 0 <= i < |scores| reads this => scores[i] > threshold);
    }

    /**
     Keeps the first grid point whose key no other exceeds; with no data the threshold is zero. By the
     coverage of the grid, no real threshold at all has a higher key.
     */
    method CalibrateThreshold(scores: seq<real>, labels: seq<int>, objective: Objective) returns (best: real)
      requires |scores| == |labels|
      modifies this
      ensures threshold == best
      ensures scores == [] ==> best == 0.0
      ensures scores != [] ==> Best(scores, labels, objective, best)
    {
      var candidates := Unique(scores);
      hide Key, Grid, Unique;
      if candidates == [] {
        threshold := 0.0;
        return 0.0;
      }
      GridHasPoints(candidates);
      var grid := Grid(candidates);
      best := grid[|grid| - 1];
      var bestKey := (-1.0, -1.0);
      ghost var at := |grid| - 1;
      for i := 0 to |grid|
        invariant 0 <= at < |grid| && best == grid[at]
        invariant i == 0 ==> bestKey == (-1.0, -1.0)
        invariant i > 0 ==> at < i && bestKey == Key(scores, labels, objective, best)
        invariant forall j | 0 <= j < i :: !Above(Key(scores, labels, objective, grid[j]), bestKey)
        invariant i > 0 ==> forall j | 0 <= j < at :: Above(bestKey, Key(scores, labels, objective, grid[j]))
      {
        var key := Key(scores, labels, objective, grid[i]);
        if i == 0 { KeyAboveSentinel(scores, labels, objective, grid[i]); }
        if Above(key, bestKey) {
          best, bestKey, at := grid[i], key, i;
        }
      }
      threshold := best;
      BestAt(scores, labels, objective, at);
    }
  }

  lemma GridHasPoints(cs: seq<real>)
    requires cs != []
    ensures |Grid(cs)| >= 2
  {
  }

  lemma KeyAboveSentinel(scores: seq<real>, labels: seq<int>, objective: Objective, t: real)
    requires |scores| == |labels|
    ensures Above(Key(scores, labels, objective, t), (-1.0, -1.0))
  {
    RatesInRange(scores, labels, t);
  }

  /** `best` is the first point of the grid with the highest key. */
  ghost predicate FirstBest(scores: seq<real>, labels: seq<int>, objective: Objective, at: nat)
    requires |scores| == |labels| && Unique(scores) != []
  {
    var grid := Grid(Unique(scores));
    && at < |grid|
    && (forall j | 0 <= j < |grid| ::
      !Above(Key(scores, labels, objective, grid[j]), Key(scores, labels, objective, grid[at])))
    && (forall j | 0 <= j < at ::
      Above(Key(scores, labels, objective, grid[at]), Key(scores, labels, objective, grid[j])))
  }

  /** Optimal among all real thresholds. */
  ghost predicate Best(scores: seq<real>, labels: seq<int>, objective: Objective, best: real)
    requires |scores| == |labels|
  {
    && Unique(scores) != [] && best in Grid(Unique(scores))
    && (forall t: real :: !Above(Key(scores, labels, objective, t), Key(scores, labels, objective, best)))
    && match objective
       case MaximiseF1 => true
       case WithinFpr(target) =>
         if target >= 0.0 then
           && Fpr(scores, labels, best) <= target
           && (forall g | g in Grid(Unique(scores)) && Fpr(scores, labels, g) <= target :: best <= g)
           && (forall t: real ::
             Fpr(scores, labels, t) <= target ==> Recall(scores, labels, t) <= Recall(scores, labels, best))
         else Fpr(scores, labels, best) == 0.0
  }

  lemma BestAt(scores: seq<real>, labels: seq<int>, objective: Objective, at: nat)
    requires |scores| == |labels| && Unique(scores) != [] && FirstBest(scores, labels, objective, at)
    ensures Best(scores, labels, objective, Grid(Unique(scores))[at])
  {
    var grid := Grid(Unique(scores));
    var best := grid[at];
    hide Key, Recall, Fpr, Grid, Unique;
    forall t: real ensures !Above(Key(scores, labels, objective, t), Key(scores, labels, objective, best)) {
      var k := GridCovers(scores, t);
      SameKey(scores, labels, objective, t, grid[k]);
    }
    if objective.WithinFpr? { WithinBudget(scores, labels, objective.target, at); }
  }

  /** The lowest grid point within budget, or a point without false positives when there is no budget. */
  lemma WithinBudget(scores: seq<real>, labels: seq<int>, target: real, at: nat)
    requires |scores| == |labels| && scores != [] && Unique(scores) != [] &&
      FirstBest(scores, labels, WithinFpr(target), at)
    ensures var best := Grid(Unique(scores))[at];
      if target >= 0.0 then
        && Fpr(scores, labels, best) <= target
        && (forall g | g in Grid(Unique(scores)) && Fpr(scores, labels, g) <= target :: best <= g)
        && (forall t: real ::
          Fpr(scores, labels, t) <= target ==> Recall(scores, labels, t) <= Recall(scores, labels, best))
      else Fpr(scores, labels, best) == 0.0
  {
    hide Recall, Fpr, Grid, Unique;
    var grid := Grid(Unique(scores));
    var best := grid[at];
    var top := |grid| - 1;
    TopHasNoFalsePositive(scores, labels);
    assert !Above(Key(scores, labels, WithinFpr(target), grid[top]), Key(scores, labels, WithinFpr(target), best));
    RatesInRange(scores, labels, best);
    if target >= 0.0 {
      forall g | g in grid && Fpr(scores, labels, g) <= target ensures best <= g {
        var j :| 0 <= j < |grid| && grid[j] == g;
        if j < at {
          GridIncreases(Unique(scores), j, at);
          RatesMonotone(scores, labels, g, best);
        } else if j > at {
          GridIncreases(Unique(scores), at, j);
        }
      }
      forall t: real | Fpr(scores, labels, t) <= target
        ensures Recall(scores, labels, t) <= Recall(scores, labels, best) {
        var k := GridCovers(scores, t);
        SameKey(scores, labels, WithinFpr(target), t, grid[k]);
        assert !Above(Key(scores, labels, WithinFpr(target), grid[k]), Key(scores, labels, WithinFpr(target), best));
      }
    }
  }

  lemma RatesInRange(scores: seq<real>, labels: seq<int>, t: real)
    requires |scores| == |labels|
    ensures Fpr(scores, labels, t) >= 0.0 && F1(scores, labels, t) >= 0.0
  {
    hide Count;
    RatioInRange(Count(scores, labels, t, true, 0), Count(scores, labels, t, false, 0));
    RatioInRange(Count(scores, labels, t, true, 1), Count(scores, labels, t, true, 0));
    RatioInRange(Count(scores, labels, t, true, 1), Count(scores, labels, t, false, 1));
    HarmonicInRange(Precision(scores, labels, t), Recall(scores, labels, t));
  }

  lemma RatioInRange(a: nat, b: nat)
    ensures 0.0 <= Ratio(a, a + b)
  {
  }

  lemma HarmonicInRange(p: real, r: real)
    requires p >= 0.0 && r >= 0.0
    ensures Harmonic(p, r) >= 0.0
  {
    if p + r > 0.0 {
      assert p * r >= 0.0;
      assert 2.0 * p * r >= 0.0;
    }
  }

  // ---------------------------------------------------------------- the lowest threshold of all

  /** Below every grid point but the middle one of a single score lies a threshold that flags the same windows. */
  lemma LowerTwin(scores: seq<real>, k: nat) returns (u: real)
    requires scores != [] && k < |Grid(Unique(scores))| && !(|Unique(scores)| == 1 && k == 1)
    ensures u < Grid(Unique(scores))[k] && SamePredictions(scores, u, Grid(Unique(scores))[k])
  {
    hide Unique;
    var cs := Unique(scores);
    var grid := Grid(cs);
    var j := if k == |grid| - 1 then |cs| - 1 else k - 1;
    if k == 0 {
      u := grid[0] - 1.0;
    } else {
      u := cs[j];
      BelowGridPoint(cs, k);
    }
    forall s | s in scores ensures s > u <==> s > grid[k] {
      assert s in cs;
      var i :| 0 <= i < |cs| && cs[i] == s;
      GridPlace(cs, j, i);
      if k > 0 { ScoresOrdered(cs, if i < j then i else j, if i < j then j else i); }
    }
  }

  lemma BelowGridPoint(cs: seq<real>, k: nat)
    requires cs != [] && Increasing(cs, RealLess) && 0 < k < |Grid(cs)| && !(|cs| == 1 && k == 1)
    ensures cs[if k == |Grid(cs)| - 1 then |cs| - 1 else k - 1] < Grid(cs)[k]
  {
    if k < |Grid(cs)| - 1 { MidpointBetween(cs, k - 1); }
  }

  predicate AllEqual(scores: seq<real>) {
    forall i, j | 0 <= i < j < |scores| :: scores[i] == scores[j]
  }

  lemma OneScore(scores: seq<real>)
    requires scores != []
    ensures |Unique(scores)| == 1 <==> AllEqual(scores)
  {
    hide Unique;
    var cs := Unique(scores);
    assert scores[0] in cs;
    if |cs| == 1 {
      forall i | 0 <= i < |scores| ensures scores[i] == cs[0] { assert scores[i] in cs; }
    } else {
      ScoresOrdered(cs, 0, 1);
      assert cs[0] in cs && cs[1] in cs;
      var i :| 0 <= i < |scores| && scores[i] == cs[0];
      var j :| 0 <= j < |scores| && scores[j] == cs[1];
      assert scores[if i < j then i else j] != scores[if i < j then j else i];
    }
  }

  /** When every window is flagged, all windows with label 0 are false positives. */
  lemma {:induction false} AllFlagged(scores: seq<real>, labels: seq<int>, t: real)
    requires |scores| == |labels| && forall s | s in scores :: s > t
    ensures Count(scores, labels, t, false, 0) == 0
    ensures Count(scores, labels, t, true, 0) > 0 <==> 0 in labels
  {
    if scores != [] {
      var n := |scores| - 1;
      assert scores[n] in scores && forall s | s in scores[..n] :: s in scores;
      assert labels == labels[..n] + [labels[n]];
      AllFlagged(scores[..n], labels[..n], t);
    }
  }

  lemma WholeRatio(a: nat)
    ensures Ratio(a, a) == if a == 0 then 0.0 else 1.0
  {
  }

  lemma LowestPointOverBudget(scores: seq<real>, labels: seq<int>, target: real)
    requires |scores| == |labels| && scores != [] && target >= 0.0
    ensures Fpr(scores, labels, Grid(Unique(scores))[0]) > target <==> 0 in labels && target < 1.0
  {
    hide Unique, Count, Ratio;
    var cs := Unique(scores);
    var t := Grid(cs)[0];
    forall s | s in scores ensures s > t {
      assert s in cs;
      var i :| 0 <= i < |cs| && cs[i] == s;
      GridPlace(cs, -1, i);
    }
    AllFlagged(scores, labels, t);
    WholeRatio(Count(scores, labels, t, true, 0));
  }

  /** No real threshold within budget is lower. */
  ghost predicate LowestWithinBudget(scores: seq<real>, labels: seq<int>, target: real, best: real)
    requires |scores| == |labels|
  {
    forall t: real | Fpr(scores, labels, t) <= target :: best <= t
  }

  lemma MiddleOfOneScore(scores: seq<real>, labels: seq<int>, target: real)
    requires |scores| == |labels| && |Unique(scores)| == 1 && target >= 0.0
    requires Fpr(scores, labels, Grid(Unique(scores))[0]) > target
    ensures Fpr(scores, labels, Grid(Unique(scores))[1]) <= target
    ensures LowestWithinBudget(scores, labels, target, Grid(Unique(scores))[1])
  {
    hide Unique, Fpr, Recall, Key;
    var cs := Unique(scores);
    var grid := Grid(cs);
    assert grid[1] == cs[0];
    TopHasNoFalsePositive(scores, labels);
    forall s | s in scores ensures s == cs[0] { assert s in cs; }
    SameKey(scores, labels, MaximiseF1, grid[1], grid[2]);
    forall t: real | Fpr(scores, labels, t) <= target ensures grid[1] <= t {
      if t < cs[0] { SameKey(scores, labels, MaximiseF1, t, grid[0]); }
    }
  }

  /**
   The threshold kept for a false positive budget is the lowest of all real thresholds within it exactly
   when all scores are equal, some window has label 0, and the budget is below one.
   */
  lemma LowestExactlyWhenOneScore(scores: seq<real>, labels: seq<int>, target: real, best: real)
    requires |scores| == |labels| && scores != [] && target >= 0.0
    requires Best(scores, labels, WithinFpr(target), best)
    ensures LowestWithinBudget(scores, labels, target, best) <==> AllEqual(scores) && 0 in labels && target < 1.0
  {
    hide Unique, Fpr, Recall, Key, Grid;
    OneScore(scores);
    LowestPointOverBudget(scores, labels, target);
    var grid := Grid(Unique(scores));
    GridHasPoints(Unique(scores));
    var k :| 0 <= k < |grid| && grid[k] == best;
    if |Unique(scores)| == 1 && Fpr(scores, labels, grid[0]) > target {
      MiddleOfOneScore(scores, labels, target);
      assert grid[1] in grid;
      assert best == grid[1];
    } else {
      if |Unique(scores)| == 1 {
        GridIncreases(Unique(scores), 0, 1);
        assert best <= grid[0];
      }
      var u := LowerTwin(scores, k);
      SameKey(scores, labels, WithinFpr(target), u, best);
      assert !LowestWithinBudget(scores, labels, target, best);
    }
  }

  /** Two scores, a budget of zero: one half is kept, although zero is lower and flags the same windows. */
  lemma LowerThresholdExample(best: real)
    requires Best([0.0, 1.0], [0, 1], WithinFpr(0.0), best)
    ensures best == 0.5 && 0.0 < best && Fpr([0.0, 1.0], [0, 1], 0.0) <= 0.0
    ensures !LowestWithinBudget([0.0, 1.0], [0, 1], 0.0, best)
  {
    var scores, labels := [0.0, 1.0], [0, 1];
    hide Unique, Recall, Key, Fpr;
    ExampleGrid(scores);
    ExampleFpr(0.0 - Margin);
    ExampleFpr(0.5);
    ExampleFpr(0.0);
    var grid := [0.0 - Margin, 0.5, 1.0 + Margin];
    assert grid[0] in grid && grid[1] in grid && grid[2] in grid;
  }

  lemma ExampleGrid(scores: seq<real>)
    requires scores == [0.0, 1.0]
    ensures Unique(scores) != [] && Grid(Unique(scores)) == [0.0 - Margin, 0.5, 1.0 + Margin]
  {
    hide Unique;
    var cs := Unique(scores);
    SortedIsCanonical(cs, scores, RealLess);
    assert Midpoints(scores) == [0.5];
  }

  lemma CountPair(a: real, b: real, x: int, y: int, t: real, hit: bool, l: int)
    ensures Count([a, b], [x, y], t, hit, l)
         == (if (a > t) == hit && x == l then 1 else 0) + if (b > t) == hit && y == l then 1 else 0
  {
    assert [a, b][..1] == [a] && [x, y][..1] == [x];
    assert [a][..0] == [] && [x][..0] == [];
    assert Count([a], [x], t, hit, l) == if (a > t) == hit && x == l then 1 else 0;
  }

  /** False positive rates of the example. */
  lemma ExampleFpr(t: real)
    ensures Fpr([0.0, 1.0], [0, 1], t) == if t < 0.0 then 1.0 else 0.0
  {
    hide Count;
    CountPair(0.0, 1.0, 0, 1, t, true, 0);
    CountPair(0.0, 1.0, 0, 1, t, false, 0);
  }
}
