/**
 Feature engineering on telemetry windows, in batch and streaming. Rolling standard deviation is a
 parameter, an arbitrary function of the values in its window; arithmetic is exact.
 */
module Features {
  import opened Prelude
  import opened Ordering

  datatype Column =
    | RequestRate | ErrorRate | SuccessRate | LatencyMean | LatencyP50 | LatencyP90 | LatencyP95
    | PublishRate | PublishErrorRate | PublishLatencyMean | OrdersCreatedRate

  /** One telemetry window; a signal without a reading is not represented. */
  datatype Row = Row(runId: string, windowStart: real, windowEnd: real, windowSeconds: real, signals: map<Column, real>)
  {
    function At(c: Column): (r: real) { if c in signals then signals[c] else 0.0 }
  }

  /** A window with its engineered features. */
  datatype FeatureRow = FeatureRow(
    row: Row,
    requestRateMean: real, requestRateStd: real, requestRateDelta: real,
    errorRateMean: real, errorRateDelta: real,
    latencyMean: real, latencyStd: real, latencyDelta: real,
    latencyP95Mean: real, publishErrorRateMean: real, publishLatencyMean: real,
    trafficGrowth: real)

  type Std = seq<real> -> real

  /** A rolling window spans at least the current and the previous row. */
  type RollingWindow = k: nat | k >= 2 witness 3

  const Epsilon: real := 1.0

  function Sum(xs: seq<real>): (r: real) {
    if xs == [] then 0.0 else Sum(xs[..|xs| - 1]) + xs[|xs| - 1]
  }

  /** The last `k` rows up to row `i`. */
  function Window(g: seq<Row>, i: nat, k: RollingWindow): (w: seq<Row>)
    requires i < |g|
    ensures |w| > 0
  {
    g[if i + 1 > k then i + 1 - k else 0..i + 1]
  }

  function Values(rows: seq<Row>, c: Column): (xs: seq<real>)
    ensures |xs| == |rows|
  {
    seq(|rows|, i requires 0 <= i < |rows| => rows[i].At(c))
  }

  function RollMean(g: seq<Row>, i: nat, k: RollingWindow, c: Column): (r: real)
    requires i < |g|
  {
    Sum(Values(Window(g, i, k), c)) / |Window(g, i, k)| as real
  }

  /** One row has no deviation. */
  function RollStd(g: seq<Row>, i: nat, k: RollingWindow, c: Column, std: Std): (r: real)
    requires i < |g|
  {
    if |Window(g, i, k)| < 2 then 0.0 else std(Values(Window(g, i, k), c))
  }

  function Delta(g: seq<Row>, i: nat, c: Column): (r: real)
    requires i < |g|
  {
    if i == 0 then 0.0 else g[i].At(c) - g[i - 1].At(c)
  }

  function Growth(g: seq<Row>, i: nat): (r: real)
    requires i < |g|
  {
    if i == 0 then 0.0 else (g[i].At(RequestRate) - g[i - 1].At(RequestRate)) / Max(g[i - 1].At(RequestRate), Epsilon)
  }

  function Engineer(g: seq<Row>, i: nat, k: RollingWindow, std: Std): (r: FeatureRow)
    requires i < |g|
  {
    FeatureRow(g[i],
      RollMean(g, i, k, RequestRate), RollStd(g, i, k, RequestRate, std), Delta(g, i, RequestRate),
      RollMean(g, i, k, ErrorRate), Delta(g, i, ErrorRate),
      RollMean(g, i, k, LatencyMean), RollStd(g, i, k, LatencyMean, std), Delta(g, i, LatencyMean),
      RollMean(g, i, k, LatencyP95), RollMean(g, i, k, PublishErrorRate), RollMean(g, i, k, PublishLatencyMean),
      Growth(g, i))
  }

  function EngineerGroup(g: seq<Row>, k: RollingWindow, std: Std): (r: seq<FeatureRow>) {
    seq(|g|, i requires 0 <= i < |g| => Engineer(g, i, k, std))
  }

  // ---------------------------------------------------------------- what each feature is

  /** The rolling mean of a column, where there is one. */
  function MeanField(f: FeatureRow, c: Column): (r: Option<real>) {
    match c
    case RequestRate => Some(f.requestRateMean)
    case ErrorRate => Some(f.errorRateMean)
    case LatencyMean => Some(f.latencyMean)
    case LatencyP95 => Some(f.latencyP95Mean)
    case PublishErrorRate => Some(f.publishErrorRateMean)
    case PublishLatencyMean => Some(f.publishLatencyMean)
    case _ => None
  }

  function StdField(f: FeatureRow, c: Column): (r: Option<real>) {
    match c
    case RequestRate => Some(f.requestRateStd)
    case LatencyMean => Some(f.latencyStd)
    case _ => None
  }

  function DeltaField(f: FeatureRow, c: Column): (r: Option<real>) {
    match c
    case RequestRate => Some(f.requestRateDelta)
    case ErrorRate => Some(f.errorRateDelta)
    case LatencyMean => Some(f.latencyDelta)
    case _ => None
  }

  /** The first row of the window that ends with row `i`. */
  function WindowStart(i: nat, k: RollingWindow): (r: nat) {
    if i + 1 > k then i + 1 - k else 0
  }

  /** How far rows `lo` up to `hi` lie above `m` in column `c`, added up. */
  function Excess(g: seq<Row>, lo: nat, hi: nat, c: Column, m: real): (r: real)
    requires lo <= hi <= |g|
  {
    if lo == hi then 0.0 else Excess(g, lo, hi - 1, c, m) + (g[hi - 1].At(c) - m)
  }

  lemma ValuesGrow(g: seq<Row>, lo: nat, hi: nat, c: Column)
    requires lo < hi <= |g|
    ensures Sum(Values(g[lo..hi], c)) == Sum(Values(g[lo..hi - 1], c)) + g[hi - 1].At(c)
  {
    var xs := Values(g[lo..hi], c);
    assert xs[..|xs| - 1] == Values(g[lo..hi - 1], c);
  }

  lemma OneMoreTimes(n: nat, m: real)
    ensures (n + 1) as real * m == n as real * m + m
  {
  }

  lemma {:induction false} ExcessIsSum(g: seq<Row>, lo: nat, hi: nat, c: Column, m: real)
    requires lo <= hi <= |g|
    ensures Excess(g, lo, hi, c, m) == Sum(Values(g[lo..hi], c)) - (hi - lo) as real * m
  {
    hide Sum, Values, Excess;
    if lo < hi {
      ExcessIsSum(g, lo, hi - 1, c, m);
      ValuesGrow(g, lo, hi, c);
      ExcessGrows(g, lo, hi, c, m);
      OneMoreTimes(hi - 1 - lo, m);
    } else {
      NoExcess(g, lo, c, m);
    }
  }

  lemma ExcessGrows(g: seq<Row>, lo: nat, hi: nat, c: Column, m: real)
    requires lo < hi <= |g|
    ensures Excess(g, lo, hi, c, m) == Excess(g, lo, hi - 1, c, m) + (g[hi - 1].At(c) - m)
  {
  }

  lemma NoExcess(g: seq<Row>, lo: nat, c: Column, m: real)
    requires lo <= |g|
    ensures Excess(g, lo, lo, c, m) == 0.0 && Sum(Values(g[lo..lo], c)) == 0.0
  {
  }

  lemma {:induction false} ExcessBetween(g: seq<Row>, lo: nat, hi: nat, c: Column, m: real, x: real)
    requires lo <= hi <= |g|
    ensures (forall j | lo <= j < hi :: g[j].At(c) <= x) && x <= m ==> Excess(g, lo, hi, c, m) <= 0.0
    ensures (forall j | lo <= j < hi :: g[j].At(c) <= x) && x < m && lo < hi ==> Excess(g, lo, hi, c, m) < 0.0
    ensures (forall j | lo <= j < hi :: g[j].At(c) >= x) && x >= m ==> Excess(g, lo, hi, c, m) >= 0.0
    ensures (forall j | lo <= j < hi :: g[j].At(c) >= x) && x > m && lo < hi ==> Excess(g, lo, hi, c, m) > 0.0
  {
    if lo < hi { ExcessBetween(g, lo, hi - 1, c, m, x); }
  }

  /** Rows `lo` to `i` read between `low` and `high` in column `c`. */
  predicate ReadsBetween(g: seq<Row>, lo: nat, i: nat, c: Column, low: real, high: real)
    requires lo <= i < |g|
  {
    forall j | lo <= j <= i :: low <= g[j].At(c) <= high
  }

  /** Which statistic of which column each feature is. */
  lemma FieldsOfColumn(g: seq<Row>, i: nat, k: RollingWindow, std: Std, c: Column)
    requires i < |g|
    ensures var f := Engineer(g, i, k, std);
      && (MeanField(f, c).Some? ==> MeanField(f, c).value == RollMean(g, i, k, c))
      && (StdField(f, c).Some? ==> StdField(f, c).value == RollStd(g, i, k, c, std))
      && (DeltaField(f, c).Some? ==> DeltaField(f, c).value == Delta(g, i, c))
      && f.trafficGrowth == Growth(g, i)
  {
    hide RollMean, RollStd, Delta, Growth;
  }

  lemma MeanHasNoExcess(g: seq<Row>, i: nat, k: RollingWindow, c: Column)
    requires i < |g|
    ensures Excess(g, WindowStart(i, k), i + 1, c, RollMean(g, i, k, c)) == 0.0
  {
    hide Sum, Values, Window;
    var lo := WindowStart(i, k);
    WindowRows(g, i, k);
    ExcessIsSum(g, lo, i + 1, c, RollMean(g, i, k, c));
    MeanTimes(Sum(Values(g[lo..i + 1], c)), i + 1 - lo);
  }

  /**
   Every rolling mean balances the readings of its own column over the last `k` rows: they lie above it as
   much as below. So it is between the least and the greatest of them.
   */
  lemma MeanBalances(g: seq<Row>, i: nat, k: RollingWindow, std: Std, c: Column, low: real, high: real)
    requires i < |g| && MeanField(Engineer(g, i, k, std), c).Some?
    ensures var m, lo := MeanField(Engineer(g, i, k, std), c).value, WindowStart(i, k);
      && Excess(g, lo, i + 1, c, m) == 0.0
      && (ReadsBetween(g, lo, i, c, low, high) ==> low <= m <= high)
  {
    hide Engineer, MeanField, Excess, RollMean;
    FieldsOfColumn(g, i, k, std, c);
    MeanHasNoExcess(g, i, k, c);
    var m, lo := RollMean(g, i, k, c), WindowStart(i, k);
    ExcessBetween(g, lo, i + 1, c, m, low);
    ExcessBetween(g, lo, i + 1, c, m, high);
  }

  lemma WindowRows(g: seq<Row>, i: nat, k: RollingWindow)
    requires i < |g|
    ensures WindowStart(i, k) <= i && Window(g, i, k) == g[WindowStart(i, k)..i + 1]
  {
  }

  lemma MeanTimes(total: real, n: nat)
    requires n > 0
    ensures n as real * (total / n as real) == total
  {
  }

  /** A deviation is the deviation of the readings of its own column over the last `k` rows, zero for one row. */
  lemma DeviationOfWindow(g: seq<Row>, i: nat, k: RollingWindow, std: Std, c: Column) returns (xs: seq<real>)
    requires i < |g| && StdField(Engineer(g, i, k, std), c).Some?
    ensures |xs| == i + 1 - WindowStart(i, k) && forall j | 0 <= j < |xs| :: xs[j] == g[WindowStart(i, k) + j].At(c)
    ensures StdField(Engineer(g, i, k, std), c).value == if |xs| < 2 then 0.0 else std(xs)
  {
    hide Engineer, StdField;
    FieldsOfColumn(g, i, k, std, c);
    xs := Values(Window(g, i, k), c);
    WindowRows(g, i, k);
  }

  /** The deltas of a column from row 1 to row `n`, added up. */
  function SumOfDeltas(fs: seq<FeatureRow>, n: nat, c: Column): (r: real)
    requires n < |fs|
  {
    if n == 0 then 0.0
    else SumOfDeltas(fs, n - 1, c) + if DeltaField(fs[n], c).Some? then DeltaField(fs[n], c).value else 0.0
  }

  /** Deltas start at zero and telescope to the change of their own column. */
  lemma {:induction false} DeltasTelescope(g: seq<Row>, n: nat, k: RollingWindow, std: Std, c: Column)
    requires n < |g| && c in {RequestRate, ErrorRate, LatencyMean}
    ensures DeltaField(EngineerGroup(g, k, std)[0], c) == Some(0.0)
    ensures SumOfDeltas(EngineerGroup(g, k, std), n, c) == g[n].At(c) - g[0].At(c)
  {
    hide RollMean, RollStd, Growth;
    if n > 0 { DeltasTelescope(g, n - 1, k, std, c); }
  }

  /** Growth carries the previous request rate, counted as at least one, to the current one. */
  lemma GrowthCarries(g: seq<Row>, i: nat, k: RollingWindow, std: Std)
    requires i < |g|
    ensures var growth := Engineer(g, i, k, std).trafficGrowth;
      if i == 0 then growth == 0.0
      else
        var before, now := g[i - 1].At(RequestRate), g[i].At(RequestRate);
        now == before + growth * (if before < 1.0 then 1.0 else before) && (now == before ==> growth == 0.0)
  {
    hide RollMean, RollStd, Delta;
    if i > 0 {
      var before, now := g[i - 1].At(RequestRate), g[i].At(RequestRate);
      var base := if before < 1.0 then 1.0 else before;
      assert (now - before) / base * base == now - before;
    }
  }

  /** Rows that agree in one column have the same features of that column, whatever the other columns read. */
  lemma FeaturesReadOwnColumn(g: seq<Row>, h: seq<Row>, i: nat, k: RollingWindow, std: Std, c: Column)
    requires |g| == |h| && i < |g| && forall j | 0 <= j < |g| :: g[j].At(c) == h[j].At(c)
    ensures MeanField(Engineer(g, i, k, std), c) == MeanField(Engineer(h, i, k, std), c)
    ensures StdField(Engineer(g, i, k, std), c) == StdField(Engineer(h, i, k, std), c)
    ensures DeltaField(Engineer(g, i, k, std), c) == DeltaField(Engineer(h, i, k, std), c)
    ensures c == RequestRate ==> Engineer(g, i, k, std).trafficGrowth == Engineer(h, i, k, std).trafficGrowth
  {
    hide Engineer, MeanField, StdField, DeltaField;
    SameReadings(g, h, i, k, c);
    SameStatistics(g, h, i, k, std, c);
    FieldsOfColumn(g, i, k, std, c);
    FieldsOfColumn(h, i, k, std, c);
    SameFields(Engineer(g, i, k, std), Engineer(h, i, k, std), c);
    hide RollMean, RollStd, Delta, Growth;
  }

  /** Which columns have which features does not depend on the row. */
  lemma SameFields(f: FeatureRow, f': FeatureRow, c: Column)
    ensures MeanField(f, c).Some? <==> MeanField(f', c).Some?
    ensures StdField(f, c).Some? <==> StdField(f', c).Some?
    ensures DeltaField(f, c).Some? <==> DeltaField(f', c).Some?
  {
  }

  lemma SameStatistics(g: seq<Row>, h: seq<Row>, i: nat, k: RollingWindow, std: Std, c: Column)
    requires |g| == |h| && i < |g| && forall j | 0 <= j < |g| :: g[j].At(c) == h[j].At(c)
    requires |Window(g, i, k)| == |Window(h, i, k)| && Values(Window(g, i, k), c) == Values(Window(h, i, k), c)
    ensures RollMean(g, i, k, c) == RollMean(h, i, k, c) && RollStd(g, i, k, c, std) == RollStd(h, i, k, c, std)
    ensures Delta(g, i, c) == Delta(h, i, c) && (c == RequestRate ==> Growth(g, i) == Growth(h, i))
  {
    hide Window, Values, Sum;
  }

  lemma SameReadings(g: seq<Row>, h: seq<Row>, i: nat, k: RollingWindow, c: Column)
    requires |g| == |h| && i < |g| && forall j | 0 <= j < |g| :: g[j].At(c) == h[j].At(c)
    ensures |Window(g, i, k)| == |Window(h, i, k)| && Values(Window(g, i, k), c) == Values(Window(h, i, k), c)
  {
  }

  // ---------------------------------------------------------------- the whole frame

  predicate Before(a: Row, b: Row) {
    TextLess(a.runId, b.runId) || (a.runId == b.runId && a.windowStart < b.windowStart)
  }

  /** Puts `r` behind every row that is not after it, so equal rows keep their order. */
  function Insert(rows: seq<Row>, r: Row): (res: seq<Row>) {
    if rows == [] || !Before(r, rows[|rows| - 1]) then rows + [r]
    else Insert(rows[..|rows| - 1], r) + [rows[|rows| - 1]]
  }

  function SortRows(rows: seq<Row>): (r: seq<Row>) {
    if rows == [] then [] else Insert(SortRows(rows[..|rows| - 1]), rows[|rows| - 1])
  }

  function RowsOf(rows: seq<Row>, runId: string, member: bool): (r: seq<Row>)
    ensures |r| <= |rows|
    ensures forall i | 0 <= i < |r| :: (r[i].runId == runId) == member
  {
    if rows == [] then [] else
    var init := RowsOf(rows[..|rows| - 1], runId, member);
    if (rows[|rows| - 1].runId == runId) == member then init + [rows[|rows| - 1]] else init
  }

  lemma {:induction false} OthersAreFewer(rows: seq<Row>, runId: string)
    requires rows != [] && rows[0].runId == runId
    ensures |RowsOf(rows, runId, false)| < |rows|
  {
    if |rows| > 1 { OthersAreFewer(rows[..|rows| - 1], runId); }
  }

  /** Run by run, in the order in which runs appear. */
  function EngineerRuns(rows: seq<Row>, k: RollingWindow, std: Std): (r: seq<FeatureRow>)
    decreases |rows|
  {
    if rows == [] then [] else
    var runId := rows[0].runId;
    OthersAreFewer(rows, runId);
    EngineerGroup(RowsOf(rows, runId, true), k, std) + EngineerRuns(RowsOf(rows, runId, false), k, std)
  }

  function Batch(rows: seq<Row>, k: RollingWindow, std: Std): (r: seq<FeatureRow>) {
    EngineerRuns(SortRows(rows), k, std)
  }

  lemma RunsStep(rest: seq<Row>, k: RollingWindow, std: Std)
    requires rest != []
    ensures |RowsOf(rest, rest[0].runId, false)| < |rest|
    ensures EngineerRuns(rest, k, std) == EngineerGroup(RowsOf(rest, rest[0].runId, true), k, std)
                                          + EngineerRuns(RowsOf(rest, rest[0].runId, false), k, std)
  {
    OthersAreFewer(rest, rest[0].runId);
  }

  /** Engineers one run after the other and joins the parts. */
  method BuildFeatures(rows: seq<Row>, k: RollingWindow, std: Std) returns (features: seq<FeatureRow>)
    ensures features == Batch(rows, k, std)
  {
    hide EngineerGroup, EngineerRuns, RowsOf, SortRows;
    var rest := SortRows(rows);
    features := [];
    while rest != []
      invariant features + EngineerRuns(rest, k, std) == Batch(rows, k, std)
      decreases |rest|
    {
      RunsStep(rest, k, std);
      var runId := rest[0].runId;
      features := features + EngineerGroup(RowsOf(rest, runId, true), k, std);
      rest := RowsOf(rest, runId, false);
    }
    NoRuns(k, std);
  }

  lemma NoRuns(k: RollingWindow, std: Std)
    ensures EngineerRuns([], k, std) == []
  {
  }

  predicate InOrder(rows: seq<Row>) {
    forall i, j | 0 <= i < j < |rows| :: !Before(rows[j], rows[i])
  }

  lemma NotBeforeTransitive(a: Row, b: Row, c: Row)
    requires !Before(b, a) && !Before(c, b)
    ensures !Before(c, a)
  {
    TextLessIsStrictTotalOrder();
  }

  lemma BeforeAsymmetric(a: Row, b: Row)
    requires Before(a, b)
    ensures !Before(b, a)
  {
    TextLessIsStrictTotalOrder();
  }

  lemma {:induction false} InsertKeepsOrder(rows: seq<Row>, r: Row)
    requires InOrder(rows)
    ensures InOrder(Insert(rows, r)) && multiset(Insert(rows, r)) == multiset(rows) + multiset{r}
  {
    hide Before;
    if rows != [] {
      var init, last := rows[..|rows| - 1], rows[|rows| - 1];
      assert rows == init + [last];
      if Before(r, last) {
        InsertKeepsOrder(init, r);
        BeforeAsymmetric(r, last);
        forall x | x in Insert(init, r) ensures !Before(last, x) {
          assert x in multiset(Insert(init, r));
        }
      } else {
        forall i | 0 <= i < |rows| ensures !Before(r, rows[i]) {
          if i < |init| { NotBeforeTransitive(rows[i], last, r); }
        }
      }
    }
  }

  lemma NothingOutOfOrder()
    ensures InOrder([])
  {
  }

  /** Sorting orders the rows by run and start and loses none. */
  lemma {:induction false} SortRowsSorts(rows: seq<Row>)
    ensures InOrder(SortRows(rows)) && multiset(SortRows(rows)) == multiset(rows)
  {
    hide InOrder, Insert;
    NothingOutOfOrder();
    if rows != [] {
      SortRowsSorts(rows[..|rows| - 1]);
      InsertKeepsOrder(SortRows(rows[..|rows| - 1]), rows[|rows| - 1]);
      assert rows == rows[..|rows| - 1] + [rows[|rows| - 1]];
    }
  }

  // ---------------------------------------------------------------- one run in order

  /** One run whose windows start later and later. */
  predicate IsStream(rows: seq<Row>) {
    forall i, j | 0 <= i < j < |rows| :: rows[i].runId == rows[j].runId && rows[i].windowStart < rows[j].windowStart
  }

  lemma {:induction false} StreamIsSorted(rows: seq<Row>)
    requires IsStream(rows)
    ensures SortRows(rows) == rows
  {
    hide Before;
    if rows != [] {
      var init := rows[..|rows| - 1];
      assert IsStream(init);
      StreamIsSorted(init);
      assert rows == init + [rows[|rows| - 1]];
      if init != [] { NotBefore(init[|init| - 1], rows[|rows| - 1]); }
    }
  }

  lemma NotBefore(a: Row, b: Row)
    requires a.runId == b.runId && a.windowStart < b.windowStart
    ensures !Before(b, a)
  {
    TextLessIsStrictTotalOrder();
  }

  lemma {:induction false} StreamIsOneRun(rows: seq<Row>, runId: string)
    requires forall i | 0 <= i < |rows| :: rows[i].runId == runId
    ensures RowsOf(rows, runId, true) == rows && RowsOf(rows, runId, false) == []
  {
    if rows != [] {
      StreamIsOneRun(rows[..|rows| - 1], runId);
      assert rows == rows[..|rows| - 1] + [rows[|rows| - 1]];
    }
  }

  lemma BatchOfStream(rows: seq<Row>, k: RollingWindow, std: Std)
    requires IsStream(rows)
    ensures Batch(rows, k, std) == EngineerGroup(rows, k, std)
  {
    hide Engineer, SortRows;
    StreamIsSorted(rows);
    if rows != [] {
      var runId := rows[0].runId;
      StreamIsOneRun(rows, runId);
      assert EngineerRuns(RowsOf(rows, runId, false), k, std) == [];
      assert EngineerGroup(rows, k, std) + [] == EngineerGroup(rows, k, std);
    }
  }

  /** Features are determined by the window: it holds the previous row too. */
  lemma EngineerIsLocal(g: seq<Row>, i: nat, h: seq<Row>, j: nat, k: RollingWindow, std: Std)
    requires i < |g| && j < |h| && Window(g, i, k) == Window(h, j, k)
    ensures Engineer(g, i, k, std) == Engineer(h, j, k, std)
  {
    hide Window, RollMean, RollStd;
    WindowEnds(g, i, k);
    WindowEnds(h, j, k);
    forall c: Column ensures RollMean(g, i, k, c) == RollMean(h, j, k, c) &&
      RollStd(g, i, k, c, std) == RollStd(h, j, k, c, std) {
      SameRolls(g, i, h, j, k, c, std);
    }
  }

  lemma SameRolls(g: seq<Row>, i: nat, h: seq<Row>, j: nat, k: RollingWindow, c: Column, std: Std)
    requires i < |g| && j < |h| && Window(g, i, k) == Window(h, j, k)
    ensures RollMean(g, i, k, c) == RollMean(h, j, k, c) && RollStd(g, i, k, c, std) == RollStd(h, j, k, c, std)
  {
    hide Window, Sum;
  }

  lemma WindowEnds(g: seq<Row>, i: nat, k: RollingWindow)
    requires i < |g|
    ensures var w := Window(g, i, k);
      && w[|w| - 1] == g[i] && (i > 0 <==> |w| > 1) && (i > 0 ==> w[|w| - 2] == g[i - 1])
  {
  }

  /** In a single stream the features of a window do not depend on later windows. */
  lemma StreamIsCausal(rows: seq<Row>, later: seq<Row>, k: RollingWindow, std: Std, i: nat)
    requires IsStream(rows + later) && i < |rows|
    ensures |Batch(rows, k, std)| == |rows| && |Batch(rows + later, k, std)| == |rows| + |later|
    ensures Batch(rows + later, k, std)[i] == Batch(rows, k, std)[i]
  {
    hide Batch, Engineer;
    assert forall a | 0 <= a < |rows| :: (rows + later)[a] == rows[a];
    assert IsStream(rows);
    assert Window(rows, i, k) == Window(rows + later, i, k);
    BatchOfStream(rows, k, std);
    BatchOfStream(rows + later, k, std);
    EngineerIsLocal(rows, i, rows + later, i, k, std);
  }

  // ---------------------------------------------------------------- runs do not mix

  /** The feature rows of one run. */
  function FeaturesOf(fs: seq<FeatureRow>, runId: string): (r: seq<FeatureRow>) {
    if fs == [] then [] else
    var init := FeaturesOf(fs[..|fs| - 1], runId);
    if fs[|fs| - 1].row.runId == runId then init + [fs[|fs| - 1]] else init
  }

  lemma {:induction false} FeaturesOfConcat(xs: seq<FeatureRow>, ys: seq<FeatureRow>, runId: string)
    ensures FeaturesOf(xs + ys, runId) == FeaturesOf(xs, runId) + FeaturesOf(ys, runId)
  {
    if ys == [] {
      assert xs + ys == xs;
    } else {
      FeaturesOfConcat(xs, ys[..|ys| - 1], runId);
      assert (xs + ys)[..|xs + ys| - 1] == xs + ys[..|ys| - 1];
    }
  }

  lemma {:induction false} FeaturesOfOneRun(fs: seq<FeatureRow>, runId: string, other: string)
    requires forall i | 0 <= i < |fs| :: fs[i].row.runId == runId
    ensures FeaturesOf(fs, other) == if runId == other then fs else []
  {
    if fs != [] {
      FeaturesOfOneRun(fs[..|fs| - 1], runId, other);
      assert fs == fs[..|fs| - 1] + [fs[|fs| - 1]];
    }
  }

  lemma {:induction false} RowsOfConcat(xs: seq<Row>, ys: seq<Row>, runId: string)
    ensures RowsOf(xs + ys, runId, true) == RowsOf(xs, runId, true) + RowsOf(ys, runId, true)
  {
    if ys == [] {
      assert xs + ys == xs;
    } else {
      RowsOfConcat(xs, ys[..|ys| - 1], runId);
      assert (xs + ys)[..|xs + ys| - 1] == xs + ys[..|ys| - 1];
    }
  }

  /** Taking one run out leaves the rows of the others. */
  lemma {:induction false} OtherRunsStay(rows: seq<Row>, taken: string, runId: string)
    ensures RowsOf(RowsOf(rows, taken, false), runId, true) == if taken == runId then [] else RowsOf(rows, runId, true)
  {
    if rows != [] {
      var init, last := rows[..|rows| - 1], rows[|rows| - 1];
      OtherRunsStay(init, taken, runId);
      if last.runId != taken {
        var before := RowsOf(init, taken, false);
        RowsOfConcat(before, [last], runId);
        assert [last][..0] == [];
      }
    }
  }

  lemma {:induction false} RunsAreSeparate(rows: seq<Row>, k: RollingWindow, std: Std, runId: string)
    ensures FeaturesOf(EngineerRuns(rows, k, std), runId) == EngineerGroup(RowsOf(rows, runId, true), k, std)
    decreases |rows|
  {
    if rows != [] {
      hide EngineerRuns, Engineer, RowsOf, FeaturesOf;
      var first := rows[0].runId;
      RunsStep(rows, k, std);
      var group, rest := RowsOf(rows, first, true), RowsOf(rows, first, false);
      FeaturesOfConcat(EngineerGroup(group, k, std), EngineerRuns(rest, k, std), runId);
      GroupKeepsRun(group, k, std, first);
      FeaturesOfOneRun(EngineerGroup(group, k, std), first, runId);
      RunsAreSeparate(rest, k, std, runId);
      OtherRunsStay(rows, first, runId);
    }
  }

  lemma GroupKeepsRun(g: seq<Row>, k: RollingWindow, std: Std, runId: string)
    requires forall i | 0 <= i < |g| :: g[i].runId == runId
    ensures forall i | 0 <= i < |EngineerGroup(g, k, std)| :: EngineerGroup(g, k, std)[i].row.runId == runId
  {
  }

  // ---------------------------------------------------------------- sorting one run

  /** Inserting a row of another run does not show in this one; a row of this run goes where it would alone. */
  lemma {:induction false} InsertInRun(rows: seq<Row>, r: Row, runId: string)
    requires InOrder(rows)
    ensures RowsOf(Insert(rows, r), runId, true)
         == if r.runId == runId then Insert(RowsOf(rows, runId, true), r) else RowsOf(rows, runId, true)
  {
    hide Before;
    if rows == [] {
      assert [r][..0] == [];
    } else {
      var init, last := rows[..|rows| - 1], rows[|rows| - 1];
      var mine := RowsOf(rows, runId, true);
      if !Before(r, last) {
        RowsOfConcat(rows, [r], runId);
        assert [r][..0] == [];
        if mine != [] { NotAfterRun(rows, r, runId); }
      } else {
        InsertInRun(init, r, runId);
        RowsOfConcat(Insert(init, r), [last], runId);
        assert [last][..0] == [];
      }
    }
  }

  lemma {:induction false} RowsOfMembers(rows: seq<Row>, runId: string, r: Row)
    ensures r in RowsOf(rows, runId, true) <==> r in rows && r.runId == runId
  {
    if rows != [] {
      RowsOfMembers(rows[..|rows| - 1], runId, r);
      assert rows == rows[..|rows| - 1] + [rows[|rows| - 1]];
    }
  }

  lemma NotAfterRun(rows: seq<Row>, r: Row, runId: string)
    requires InOrder(rows) && rows != [] && !Before(r, rows[|rows| - 1]) && RowsOf(rows, runId, true) != []
    ensures var mine := RowsOf(rows, runId, true); !Before(r, mine[|mine| - 1])
  {
    hide Before, RowsOf;
    var mine := RowsOf(rows, runId, true);
    var x := mine[|mine| - 1];
    RowsOfMembers(rows, runId, x);
    assert x in mine;
    var i :| 0 <= i < |rows| && rows[i] == x;
    if i < |rows| - 1 { NotBeforeTransitive(x, rows[|rows| - 1], r); }
  }

  /** Sorting all rows sorts each run. */
  lemma {:induction false} SortByRun(rows: seq<Row>, runId: string)
    ensures RowsOf(SortRows(rows), runId, true) == SortRows(RowsOf(rows, runId, true))
  {
    if rows != [] {
      hide Insert, InOrder;
      var init, last := rows[..|rows| - 1], rows[|rows| - 1];
      SortByRun(init, runId);
      SortRowsSorts(init);
      InsertInRun(SortRows(init), last, runId);
      var mine := RowsOf(init, runId, true);
      if last.runId == runId { assert (mine + [last])[..|mine|] == mine; }
    }
  }

  /**
   The features of one run in a frame of many are those of that run alone: statistics never bleed
   across runs.
   */
  lemma RunsDoNotBleed(rows: seq<Row>, k: RollingWindow, std: Std, runId: string)
    ensures FeaturesOf(Batch(rows, k, std), runId) == EngineerGroup(SortRows(RowsOf(rows, runId, true)), k, std)
    ensures FeaturesOf(Batch(rows, k, std), runId) == Batch(RowsOf(rows, runId, true), k, std)
  {
    hide EngineerRuns, EngineerGroup, SortRows, RowsOf, FeaturesOf;
    RunsAreSeparate(SortRows(rows), k, std, runId);
    SortByRun(rows, runId);
    OneRunAlone(RowsOf(rows, runId, true), k, std, runId);
  }

  lemma OneRunAlone(rows: seq<Row>, k: RollingWindow, std: Std, runId: string)
    requires forall i | 0 <= i < |rows| :: rows[i].runId == runId
    ensures Batch(rows, k, std) == EngineerGroup(SortRows(rows), k, std)
  {
    hide EngineerRuns, Engineer, SortRows, RowsOf, FeaturesOf;
    var sorted := SortRows(rows);
    SortRowsSorts(rows);
    forall i | 0 <= i < |sorted| ensures sorted[i].runId == runId { assert sorted[i] in multiset(sorted); }
    StreamIsOneRun(sorted, runId);
    NoRuns(k, std);
    if sorted == [] {
      assert EngineerGroup([], k, std) == [];
    } else {
      RunsStep(sorted, k, std);
      assert EngineerGroup(sorted, k, std) + [] == EngineerGroup(sorted, k, std);
    }
  }

  // ---------------------------------------------------------------- causality

  /** No row of `later` comes before a row of `rows` in the same run. */
  predicate ComesLater(rows: seq<Row>, later: seq<Row>) {
    forall i, j | 0 <= i < |rows| && 0 <= j < |later| && rows[i].runId == later[j].runId :: !Before(later[j], rows[i])
  }

  lemma InsertAfter(xs: seq<Row>, ys: seq<Row>, r: Row)
    requires forall i | 0 <= i < |xs| :: !Before(r, xs[i])
    ensures Insert(xs + ys, r) == xs + Insert(ys, r)
  {
    if ys == [] {
      assert xs + ys == xs;
    } else {
      var init, last := ys[..|ys| - 1], ys[|ys| - 1];
      assert (xs + ys)[..|xs + ys| - 1] == xs + init;
      if Before(r, last) { InsertAfter(xs, init, r); }
    }
  }

  lemma SortedNotAfter(xs: seq<Row>, r: Row)
    requires forall i | 0 <= i < |xs| :: !Before(r, xs[i])
    ensures forall i | 0 <= i < |SortRows(xs)| :: !Before(r, SortRows(xs)[i])
  {
    hide Before, SortRows, InOrder;
    SortRowsSorts(xs);
    var sorted := SortRows(xs);
    forall i | 0 <= i < |sorted| ensures !Before(r, sorted[i]) {
      assert sorted[i] in multiset(sorted);
      var j :| 0 <= j < |xs| && xs[j] == sorted[i];
    }
  }

  lemma SortStep(xs: seq<Row>, r: Row)
    ensures SortRows(xs + [r]) == Insert(SortRows(xs), r)
  {
    hide Insert;
    assert (xs + [r])[..|xs|] == xs;
  }

  lemma {:induction false} SortAppend(xs: seq<Row>, ys: seq<Row>)
    requires forall i, j | 0 <= i < |xs| && 0 <= j < |ys| :: !Before(ys[j], xs[i])
    ensures SortRows(xs + ys) == SortRows(xs) + SortRows(ys)
  {
    hide Before, Insert, SortRows;
    if ys == [] {
      assert xs + ys == xs;
      NothingSorted();
    } else {
      var init, last := ys[..|ys| - 1], ys[|ys| - 1];
      SortAppend(xs, init);
      assert xs + ys == (xs + init) + [last] && ys == init + [last];
      SortStep(xs + init, last);
      SortStep(init, last);
      SortedNotAfter(xs, last);
      InsertAfter(SortRows(xs), SortRows(init), last);
    }
  }

  lemma NothingSorted()
    ensures SortRows([]) == []
  {
  }

  lemma GroupIsCausal(rows: seq<Row>, later: seq<Row>, k: RollingWindow, std: Std)
    ensures EngineerGroup(rows, k, std) <= EngineerGroup(rows + later, k, std)
  {
    hide Engineer;
    forall i | 0 <= i < |rows| ensures Engineer(rows, i, k, std) == Engineer(rows + later, i, k, std) {
      assert Window(rows, i, k) == Window(rows + later, i, k);
      EngineerIsLocal(rows, i, rows + later, i, k, std);
    }
  }

  lemma RowsOfLater(rows: seq<Row>, later: seq<Row>, runId: string)
    requires ComesLater(rows, later)
    ensures var a, b := RowsOf(rows, runId, true), RowsOf(later, runId, true);
      forall i, j | 0 <= i < |a| && 0 <= j < |b| :: !Before(b[j], a[i])
  {
    hide Before, RowsOf;
    var a, b := RowsOf(rows, runId, true), RowsOf(later, runId, true);
    forall i, j | 0 <= i < |a| && 0 <= j < |b| ensures !Before(b[j], a[i]) {
      RowsOfMembers(rows, runId, a[i]);
      RowsOfMembers(later, runId, b[j]);
      assert a[i] in a && b[j] in b;
      var x :| 0 <= x < |rows| && rows[x] == a[i];
      var y :| 0 <= y < |later| && later[y] == b[j];
    }
  }

  /**
   Batch features are causal in frames of any number of runs: rows added later, of this run or of others,
   leave every feature row of a run as it was.
   */
  lemma BatchIsCausal(rows: seq<Row>, later: seq<Row>, k: RollingWindow, std: Std, runId: string)
    requires ComesLater(rows, later)
    ensures FeaturesOf(Batch(rows, k, std), runId) <= FeaturesOf(Batch(rows + later, k, std), runId)
  {
    hide EngineerRuns, EngineerGroup, SortRows, RowsOf, FeaturesOf, Before, ComesLater, Batch;
    var a, b := RowsOf(rows, runId, true), RowsOf(later, runId, true);
    RunsDoNotBleed(rows, k, std, runId);
    RunsDoNotBleed(rows + later, k, std, runId);
    RowsOfConcat(rows, later, runId);
    RowsOfLater(rows, later, runId);
    SortAppend(a, b);
    GroupIsCausal(SortRows(a), SortRows(b), k, std);
  }

  // ---------------------------------------------------------------- streaming

  /** The last `k` rows. */
  function LastRows(rows: seq<Row>, k: nat): (r: seq<Row>) {
    if |rows| <= k then rows else rows[|rows| - k..]
  }

  lemma LastRowsStream(history: seq<Row>, k: nat)
    requires IsStream(history)
    ensures IsStream(LastRows(history, k))
  {
    var buffer := LastRows(history, k);
    var off := |history| - |buffer|;
    forall i, j | 0 <= i < j < |buffer|
      ensures buffer[i].runId == buffer[j].runId && buffer[i].windowStart < buffer[j].windowStart {
      assert buffer[i] == history[off + i] && buffer[j] == history[off + j];
    }
  }

  lemma LastOfBuffer(history: seq<Row>, k: RollingWindow, std: Std)
    requires IsStream(history) && history != []
    ensures var buffer := LastRows(history, k);
      && |Batch(buffer, k, std)| == |buffer| > 0 && |Batch(history, k, std)| == |history|
      && Batch(buffer, k, std)[|buffer| - 1] == Batch(history, k, std)[|history| - 1]
  {
    hide Batch, Engineer;
    var buffer := LastRows(history, k);
    LastRowsStream(history, k);
    assert Window(buffer, |buffer| - 1, k) == buffer == Window(history, |history| - 1, k);
    BatchOfStream(buffer, k, std);
    BatchOfStream(history, k, std);
    EngineerIsLocal(buffer, |buffer| - 1, history, |history| - 1, k, std);
  }

  lemma {:induction false} InsertSize(rows: seq<Row>, r: Row)
    ensures |Insert(rows, r)| == |rows| + 1
  {
    if rows != [] { InsertSize(rows[..|rows| - 1], r); }
  }

  lemma {:induction false} RunsSplit(rows: seq<Row>, runId: string)
    ensures |RowsOf(rows, runId, true)| + |RowsOf(rows, runId, false)| == |rows|
  {
    if rows != [] { RunsSplit(rows[..|rows| - 1], runId); }
  }

  lemma {:induction false} RunsSize(rows: seq<Row>, k: RollingWindow, std: Std)
    ensures |EngineerRuns(rows, k, std)| == |rows|
    decreases |rows|
  {
    if rows != [] {
      OthersAreFewer(rows, rows[0].runId);
      RunsSplit(rows, rows[0].runId);
      RunsSize(RowsOf(rows, rows[0].runId, false), k, std);
    }
  }

  lemma {:induction false} SortSize(rows: seq<Row>)
    ensures |SortRows(rows)| == |rows|
  {
    if rows != [] {
      SortSize(rows[..|rows| - 1]);
      InsertSize(SortRows(rows[..|rows| - 1]), rows[|rows| - 1]);
    }
  }

  /** Every row of the frame has a row of features. */
  lemma BatchSize(rows: seq<Row>, k: RollingWindow, std: Std)
    ensures |Batch(rows, k, std)| == |rows|
  {
    SortSize(rows);
    RunsSize(SortRows(rows), k, std);
  }

  /** A pushed window; what it leaves out is filled in. */
  datatype Record = Record(
    runId: Option<string>, windowStart: Option<real>, windowEnd: Option<real>, windowSeconds: Option<real>,
      signals: map<Column, real>)
  {
    function Fill(now: real): (r: Row) {
      var start := if windowStart.Some? then windowStart.value else now;
      Row(if runId.Some? then runId.value else "stream", start, if windowEnd.Some? then windowEnd.value else start,
          if windowSeconds.Some? then windowSeconds.value else 0.0, signals)
    }
  }

  lemma BufferSlides(history: seq<Row>, row: Row, k: RollingWindow)
    ensures var grown := LastRows(history, k) + [row];
      LastRows(history + [row], k) == if |grown| > k then grown[1..] else grown
  {
  }

  /** Keeps the last few windows and recomputes their features on every push. */
  class StreamFeaturizer {
    const k: RollingWindow
    const std: Std
    var buffer: seq<Row>
    /** Every row pushed since the last reset. */
    ghost var history: seq<Row>

    constructor (k: RollingWindow, std: Std)
      ensures this.k == k && this.std == std && Valid() && history == []
    {
      this.k := k;
      this.std := std;
      buffer := [];
      history := [];
    }

    ghost predicate Valid()
      reads this
    {
      buffer == LastRows(history, k)
    }

    method Reset()
      modifies this
      ensures Valid() && history == []
    {
      buffer := [];
      history := [];
    }

    /** The deque drops its oldest row when it is full. */
    method Append(row: Row)
      requires Valid()
      modifies this
      ensures Valid() && history == old(history) + [row]
    {
      BufferSlides(history, row, k);
      buffer := buffer + [row];
      if |buffer| > k { buffer := buffer[1..]; }
      history := history + [row];
    }

    /**
     Adds a window and returns its features. Over one run with increasing starts they are those of
     the batch over the whole history.
     */
    method Push(record: Record, now: real) returns (features: FeatureRow)
      requires Valid()
      modifies this
      ensures Valid() && history == old(history) + [record.Fill(now)]
      ensures |Batch(buffer, k, std)| > 0 && features == Batch(buffer, k, std)[|Batch(buffer, k, std)| - 1]
      ensures IsStream(history) ==>
        |Batch(history, k, std)| == |history| && features == Batch(history, k, std)[|history| - 1]
    {
      hide Batch, IsStream;
      Append(record.Fill(now));
      var frame := BuildFeatures(buffer, k, std);
      BatchSize(buffer, k, std);
      features := frame[|frame| - 1];
      if IsStream(history) { LastOfBuffer(history, k, std); }
    }
  }
}
