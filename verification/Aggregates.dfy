/**
 What an incident's aggregates mean. `Fold` summarises a non-empty list of observations; its
 components are characterised directly (`FoldMeaning`) and depend only on the multiset of
 observations, not on their order (`FoldIgnoresOrder`).
 */
module Aggregates {
  import opened Prelude
  import opened IncidentDomain

  datatype Agg = Agg(
    count: int,
    score: real,
    errorRate: real,
    latency: real,
    started: Instant,
    last: Instant,
    names: set<string>)

  function Single(o: Observation): (r: Agg) {
    Agg(1, Max(0.0, o.anomalyScore), Max(0.0, o.Reading("error_rate")), Max(0.0, o.Reading("latency_p95_ms")),
        o.windowStart, o.windowEnd, o.AbnormalNames())
  }

  function Combine(a: Agg, b: Agg): (r: Agg) {
    Agg(a.count + b.count, Max(a.score, b.score), Max(a.errorRate, b.errorRate), Max(a.latency, b.latency),
        Min(a.started, b.started), Max(a.last, b.last), a.names + b.names)
  }

  function Fold(obs: seq<Observation>): (r: Agg)
    requires obs != []
  {
    var last := Single(obs[|obs| - 1]);
    if |obs| == 1 then last else Combine(Fold(obs[..|obs| - 1]), last)
  }

  lemma CombineLaws(a: Agg, b: Agg, c: Agg)
    ensures Combine(a, b) == Combine(b, a)
    ensures Combine(Combine(a, b), c) == Combine(a, Combine(b, c))
  {
  }

  lemma {:induction false} FoldConcat(xs: seq<Observation>, ys: seq<Observation>)
    requires xs != [] && ys != []
    ensures Fold(xs + ys) == Combine(Fold(xs), Fold(ys))
    decreases |ys|
  {
    var init, last := ys[..|ys| - 1], Single(ys[|ys| - 1]);
    assert (xs + ys)[..|xs + ys| - 1] == xs + init;
    if init == [] {
      assert xs + init == xs;
    } else {
      FoldConcat(xs, init);
      CombineLaws(Fold(xs), Fold(init), last);
    }
  }

  lemma FoldAppend(obs: seq<Observation>, o: Observation)
    requires obs != []
    ensures Fold(obs + [o]) == Combine(Fold(obs), Single(o))
  {
    assert (obs + [o])[..|obs + [o]| - 1] == obs;
  }

  lemma CombineSwap(a: Agg, b: Agg, c: Agg)
    ensures Combine(Combine(a, b), c) == Combine(Combine(a, c), b)
  {
  }

  lemma FoldSwap(pre: seq<Observation>, x: seq<Observation>, post: seq<Observation>)
    requires pre != [] && x != [] && post != []
    ensures Fold(pre + x + post) == Fold(pre + post + x)
  {
    FoldConcat(pre + x, post);
    FoldConcat(pre, x);
    FoldConcat(pre + post, x);
    FoldConcat(pre, post);
    CombineSwap(Fold(pre), Fold(x), Fold(post));
  }

  lemma FoldRotate(x: seq<Observation>, post: seq<Observation>)
    requires x != [] && post != []
    ensures Fold(x + post) == Fold(post + x)
  {
    FoldConcat(x, post);
    FoldConcat(post, x);
    CombineLaws(Fold(x), Fold(post), Fold(x));
  }

  /** Moving one observation to the end changes nothing. */
  lemma FoldMoveToEnd(pre: seq<Observation>, x: Observation, post: seq<Observation>)
    ensures Fold(pre + [x] + post) == Fold(pre + post + [x])
  {
    hide Fold;
    if post == [] {
      assert pre + [x] + post == pre + post + [x];
    } else if pre == [] {
      assert pre + [x] + post == [x] + post && pre + post + [x] == post + [x];
      FoldRotate([x], post);
    } else {
      FoldSwap(pre, [x], post);
    }
  }

  lemma RemoveFromBoth(pre: seq<Observation>, x: Observation, post: seq<Observation>, init: seq<Observation>)
    requires multiset(pre + [x] + post) == multiset(init + [x])
    ensures multiset(pre + post) == multiset(init)
    ensures |pre + post| == |init|
  {
    MultisetMiddle(pre, x, post);
    assert multiset(init + [x]) == multiset(init) + multiset{x};
    SameAfterOneMore(multiset(pre + post), multiset(init), x);
    assert |multiset(pre + post)| == |multiset(init)|;
  }

  lemma MultisetMiddle(pre: seq<Observation>, x: Observation, post: seq<Observation>)
    ensures multiset(pre + [x] + post) == multiset(pre + post) + multiset{x}
  {
  }

  lemma SameAfterOneMore(a: multiset<Observation>, b: multiset<Observation>, x: Observation)
    requires a + multiset{x} == b + multiset{x}
    ensures a == b
  {
    assert a == a + multiset{x} - multiset{x};
    assert b == b + multiset{x} - multiset{x};
  }

  /** Absorbing the same observations in any order gives the same aggregates. */
  lemma {:induction false} FoldIgnoresOrder(xs: seq<Observation>, ys: seq<Observation>)
    requires xs != [] && ys != [] && multiset(xs) == multiset(ys)
    ensures Fold(xs) == Fold(ys)
    decreases |xs|
  {
    hide Combine, Single;
    var init, y := ys[..|ys| - 1], ys[|ys| - 1];
    assert ys == init + [y];
    assert y in multiset(ys);
    var i :| 0 <= i < |xs| && xs[i] == y;
    var pre, post := xs[..i], xs[i + 1..];
    assert xs == pre + [y] + post;
    RemoveFromBoth(pre, y, post, init);
    FoldMoveToEnd(pre, y, post);
    assert (pre + post + [y])[..|xs| - 1] == pre + post;
    if init != [] {
      FoldIgnoresOrder(pre + post, init);
    }
  }

  /** `top` is the greatest of the readings and 0. */
  ghost predicate FlooredMax(top: real, readings: seq<real>) {
    && top >= 0.0
    && (forall i | 0 <= i < |readings| :: readings[i] <= top)
    && (top == 0.0 || top in readings)
  }

  function Scores(obs: seq<Observation>): (r: seq<real>) { seq(|obs|,
    i requires 0 <= i < |obs| => obs[i].anomalyScore) }

  function Readings(obs: seq<Observation>, name: string): (r: seq<real>) {
    seq(|obs|, i requires 0 <= i < |obs| => obs[i].Reading(name))
  }

  /** The aggregates whose maxima and count are those of `obs`. */
  ghost predicate Measures(agg: Agg, obs: seq<Observation>) {
    && agg.count == |obs|
    && FlooredMax(agg.score, Scores(obs))
    && FlooredMax(agg.errorRate, Readings(obs, "error_rate"))
    && FlooredMax(agg.latency, Readings(obs, "latency_p95_ms"))
  }

  lemma ReadingsAppend(obs: seq<Observation>, o: Observation, name: string)
    ensures Scores(obs + [o]) == Scores(obs) + [o.anomalyScore]
    ensures Readings(obs + [o], name) == Readings(obs, name) + [o.Reading(name)]
  {
  }

  lemma MeasuresCombine(agg: Agg, obs: seq<Observation>, o: Observation)
    requires Measures(agg, obs)
    ensures Measures(Combine(agg, Single(o)), obs + [o])
  {
    hide FlooredMax, Scores, Readings, Max;
    FlooredMaxExtend(agg.score, Scores(obs), o.anomalyScore);
    FlooredMaxExtend(agg.errorRate, Readings(obs, "error_rate"), o.Reading("error_rate"));
    FlooredMaxExtend(agg.latency, Readings(obs, "latency_p95_ms"), o.Reading("latency_p95_ms"));
    ReadingsAppend(obs, o, "error_rate");
    ReadingsAppend(obs, o, "latency_p95_ms");
  }

  lemma MeasuresSingle(o: Observation)
    ensures Measures(Single(o), [o])
  {
    hide Max;
    FlooredMaxSingle(o.anomalyScore);
    FlooredMaxSingle(o.Reading("error_rate"));
    FlooredMaxSingle(o.Reading("latency_p95_ms"));
    assert Scores([o]) == [o.anomalyScore];
    assert Readings([o], "error_rate") == [o.Reading("error_rate")];
    assert Readings([o], "latency_p95_ms") == [o.Reading("latency_p95_ms")];
    hide FlooredMax;
  }

  lemma FlooredMaxSingle(x: real)
    ensures FlooredMax(Max(0.0, x), [x])
  {
    assert [x][0] == x;
  }

  /** The count of a fold is the number of observations, and each maximum is the largest reading floored at zero. */
  lemma {:induction false} FoldMeaning(obs: seq<Observation>)
    requires obs != []
    ensures Measures(Fold(obs), obs)
  {
    hide Measures, Combine, Single, Fold;
    var init, last := obs[..|obs| - 1], obs[|obs| - 1];
    assert obs == init + [last];
    if init == [] {
      assert obs == [last];
      MeasuresSingle(last);
      FoldSingle(last);
    } else {
      FoldMeaning(init);
      MeasuresCombine(Fold(init), init, last);
      FoldAppend(init, last);
    }
  }

  lemma FoldSingle(o: Observation)
    ensures Fold([o]) == Single(o)
  {
  }

  lemma FlooredMaxExtend(top: real, readings: seq<real>, x: real)
    requires FlooredMax(top, readings)
    ensures FlooredMax(Max(top, Max(0.0, x)), readings + [x])
  {
    var all := readings + [x];
    assert all[|readings|] == x && forall i | 0 <= i < |readings| :: all[i] == readings[i];
    if top in readings {
      var i :| 0 <= i < |readings| && readings[i] == top;
      assert all[i] == top;
    }
  }

  predicate SpansAll(started: Instant, last: Instant, obs: seq<Observation>) {
    forall i | 0 <= i < |obs| :: started <= obs[i].windowStart && obs[i].windowEnd <= last
  }

  predicate IsSomeStart(started: Instant, obs: seq<Observation>) {
    exists i | 0 <= i < |obs| :: started == obs[i].windowStart
  }

  predicate IsSomeEnd(last: Instant, obs: seq<Observation>) {
    exists i | 0 <= i < |obs| :: last == obs[i].windowEnd
  }

  lemma SpanExtend(init: seq<Observation>, o: Observation, started: Instant, last: Instant)
    requires SpansAll(started, last, init) && IsSomeStart(started, init) && IsSomeEnd(last, init)
    ensures var s, l, obs := Min(started, o.windowStart), Max(last, o.windowEnd), init + [o];
      SpansAll(s, l, obs) && IsSomeStart(s, obs) && IsSomeEnd(l, obs)
  {
    var obs := init + [o];
    assert obs[|init|] == o;
    var p :| 0 <= p < |init| && started == init[p].windowStart;
    var q :| 0 <= q < |init| && last == init[q].windowEnd;
    assert obs[p] == init[p] && obs[q] == init[q];
  }

  /** The interval is the tightest one around all windows. */
  lemma {:induction false} FoldSpan(obs: seq<Observation>)
    requires obs != []
    ensures SpansAll(Fold(obs).started, Fold(obs).last, obs)
    ensures IsSomeStart(Fold(obs).started, obs) && IsSomeEnd(Fold(obs).last, obs)
  {
    var m := |obs| - 1;
    var init := obs[..m];
    assert obs == init + [obs[m]];
    if init != [] {
      hide SpansAll, IsSomeStart, IsSomeEnd;
      FoldSpan(init);
      SpanExtend(init, obs[m], Fold(init).started, Fold(init).last);
    }
  }

  /** A name is listed iff some window had it abnormal. */
  lemma {:induction false} FoldNames(obs: seq<Observation>, name: string)
    requires obs != []
    ensures name in Fold(obs).names <==> exists i | 0 <= i < |obs| :: name in obs[i].abnormalSignals
  {
    var m := |obs| - 1;
    var init := obs[..m];
    assert forall i | 0 <= i < m :: init[i] == obs[i];
    if init != [] {
      FoldNames(init, name);
      assert name in Fold(obs).names <==> name in Fold(init).names || name in obs[m].abnormalSignals;
    }
  }
}
