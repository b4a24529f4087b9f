/** The longest run of the investigation graph: every bound on visits is met with equality. */
module RcaLongest {
  import opened Prelude
  import opened RcaPlan
  import opened RcaGraph
  import R = RcaReport

  /** From `s`, with the same answers at every visit, exactly `n` nodes are visited. */
  ghost predicate Takes(s: State, a: Answers, cfg: Config, n: nat)
    decreases n
  {
    if n == 0 then Route(s).None?
    else Route(s).Some? && Takes(Visit(s, Route(s).value, a, cfg), a, cfg, n - 1)
  }

  /** A run that has come to `s` goes on for those visits. */
  lemma {:induction false} RunGoesOn(states: seq<State>, answers: seq<Answers>, a: Answers, cfg: Config, n: nat)
    returns (states': seq<State>, answers': seq<Answers>)
    requires IsRun(states, answers, cfg) && Takes(states[|answers|], a, cfg, n)
    ensures IsRun(states', answers', cfg) && |answers'| == |answers| + n && Route(states'[|answers'|]) == None
    decreases n
  {
    hide Visit;
    states', answers' := states, answers;
    if n > 0 {
      var s := states[|answers|];
      var next := Visit(s, Route(s).value, a, cfg);
      assert IsRun(states + [next], answers + [a], cfg) by {
        var ss, aa := states + [next], answers + [a];
        forall i | 0 <= i < |aa|
          ensures Route(ss[i]).Some? && ss[i + 1] == Visit(ss[i], Route(ss[i]).value, aa[i], cfg)
        {
          if i < |answers| { assert ss[i] == states[i] && ss[i + 1] == states[i + 1] && aa[i] == answers[i]; }
        }
      }
      states', answers' := RunGoesOn(states + [next], answers + [a], a, cfg, n - 1);
    }
  }

  // ---------------------------------------------------------------- the answers

  /** `n` different calls. */
  function Calls(n: nat): (calls: seq<string>)
    ensures |calls| == n && forall i | 0 <= i < n :: |calls[i]| == i
  {
    if n == 0 then [] else
    var init := Calls(n - 1);
    init + [seq(n - 1, _ => 'x')]
  }

  /** Every call is usable. */
  function Permissive(limits: Limits, maxRepairs: nat): (r: Config) {
    Config(limits, maxRepairs, x => Some(x))
  }

  /** An account of the uncertainty that the gate always rejects. */
  const BlankSynthesis := R.Synthesis(true, None, [], [], R.Unknown, " ", [])

  /** The incident comes with one piece of evidence. */
  function Loading(): (r: Answers) {
    Answers(_ => 0.0, _ => ToolReply(true, ["ev_001"], 1), OtherError, OtherError, OtherError, OtherError, OtherError,
      "")
  }

  /** All tool calls but one are planned, verification asks for that one, and no report is ever acceptable. */
  function Working(planned: nat): (r: Answers) {
    Answers(_ => 0.0, _ => ToolReply(true, [], 0), Answer(Calls(planned)), OtherError, Answer(Analysis([], [])),
            Answer(Verification([], true, ["more"])), Answer(BlankSynthesis), "")
  }

  // ---------------------------------------------------------------- from stage to stage

  /** Limits are kept for another `steps` steps, and evidence may still be collected. */
  predicate Fits(s: State, cfg: Config, steps: nat) {
    && s.usage.steps + steps <= cfg.limits.maxSteps && s.usage.toolCalls <= cfg.limits.maxToolCalls
    && s.usage.evidenceItems <= cfg.limits.maxEvidence && s.usage.issued < cfg.limits.maxEvidence
  }

  /** A run whose hypotheses and findings are still empty, at node `n`. */
  predicate At(s: State, n: Node, reanalysed: nat) {
    && s.next == Some(n) && s.status == PhaseOf(n) && s.hypotheses == [] && s.findings == [] && s.proposed == []
    && s.reanalysisCount == reanalysed
  }

  lemma GuardPasses(s: State, n: Node, cfg: Config)
    requires Fits(s, cfg, 0) && cfg.limits.Valid()
    ensures Guard(s, n, cfg, 0.0) == None
  {
  }

  lemma BlankIsRejected(s: State)
    requires s.hypotheses == []
    ensures R.Issues(R.BuiltReport(s.findings, s.hypotheses, BlankSynthesis, Known(s)), Known(s))
      == [R.BlankUncertainty]
  {
    hide R.Issues, R.BuiltReport, R.DanglingIssues, R.HypothesisIds;
    R.BuiltReportPasses(s.findings, s.hypotheses, BlankSynthesis, Known(s));
    R.GroundedNothingDangles(s.hypotheses, Known(s));
  }

  lemma {:induction false} RepairsTake(s: State, a: Answers, cfg: Config, planned: nat)
    requires a == Working(planned) && cfg.limits.Valid() && At(s, Synthesize, s.reanalysisCount)
    requires s.repairCount <= cfg.Repairs() && Fits(s, cfg, 2 * (cfg.Repairs() - s.repairCount))
    ensures Takes(s, a, cfg, 2 + 2 * (cfg.Repairs() - s.repairCount))
    decreases cfg.Repairs() - s.repairCount
  {
    hide R.Issues, R.BuiltReport, R.FallbackReport;
    GuardPasses(s, Synthesize, cfg);
    BlankIsRejected(s);
    var built := Visit(s, Synthesize, a, cfg);
    var judged := Visit(built, Validate, a, cfg);
    assert built.next == Some(Validate) && Route(built) == Some(Validate);
    if s.repairCount < cfg.maxRepairs {
      RepairsTake(judged, a, cfg, planned);
    } else {
      assert Route(judged) == None;
    }
    assert Takes(built, a, cfg, 1 + 2 * (cfg.Repairs() - s.repairCount));
  }

  lemma SecondAnalysis(s: State, a: Answers, cfg: Config, planned: nat)
    requires a == Working(planned) && cfg.limits.Valid() && At(s, Analyze, 1) && Fits(s, cfg, 2)
    requires |s.queue| == 1 && s.usage.toolCalls + 1 == cfg.limits.maxToolCalls
    ensures var s' := Visit(s, Analyze, a, cfg);
      && At(s', Verify, 1) && s'.repairCount == s.repairCount
      && s'.usage == Step(Step(s.usage.(toolCalls := s.usage.toolCalls + 1)))
  {
    GuardPasses(s, Analyze, cfg);
    assert s.queue[1..] == [];
    assert Drained(s.queue, s.usage, a, cfg, 0) == Step(s.usage.(toolCalls := s.usage.toolCalls + 1));
  }

  lemma SecondVerification(s: State, a: Answers, cfg: Config, planned: nat)
    requires a == Working(planned) && cfg.limits.Valid() && At(s, Verify, 1) && Fits(s, cfg, 1)
    ensures var s' := Visit(s, Verify, a, cfg);
      At(s', Synthesize, 1) && s'.repairCount == s.repairCount && s'.usage == Step(s.usage)
  {
    hide AcceptedCalls;
    GuardPasses(s, Verify, cfg);
    assert AllJudged(s.proposed, [], Known(s)) == [];
  }

  /** The second analysis makes the last call; verification then has nothing left to ask for. */
  lemma SecondAnalysisTakes(s: State, a: Answers, cfg: Config, planned: nat)
    requires a == Working(planned) && cfg.limits.Valid() && At(s, Analyze, 1) && s.repairCount == 0
    requires |s.queue| == 1 && s.usage.toolCalls + 1 == cfg.limits.maxToolCalls
    requires Fits(s, cfg, 3 + 2 * cfg.Repairs())
    ensures Takes(s, a, cfg, 4 + 2 * cfg.Repairs())
  {
    hide Visit, Takes;
    SecondAnalysis(s, a, cfg, planned);
    var analysed := Visit(s, Analyze, a, cfg);
    SecondVerification(analysed, a, cfg, planned);
    RepairsTake(Visit(analysed, Verify, a, cfg), a, cfg, planned);
    OneMore(analysed, a, cfg, 2 + 2 * cfg.Repairs());
    OneMore(s, a, cfg, 3 + 2 * cfg.Repairs());
  }

  lemma FirstAnalysis(s: State, a: Answers, cfg: Config, planned: nat)
    requires a == Working(planned) && cfg.limits.Valid() && At(s, Analyze, 0) && s.queue == [] && Fits(s, cfg, 1)
    ensures var s' := Visit(s, Analyze, a, cfg);
      && At(s', Verify, 0) && s'.repairCount == s.repairCount && s'.queue == []
      && s'.usage == Step(s.usage) && s'.evidence == s.evidence
  {
    GuardPasses(s, Analyze, cfg);
  }

  lemma FirstVerification(s: State, a: Answers, cfg: Config, planned: nat)
    requires a == Working(planned) && cfg.limits.Valid() && cfg.screen == (x => Some(x)) && At(s, Verify, 0) &&
      Fits(s, cfg, 1)
    requires s.usage.toolCalls + 1 == cfg.limits.maxToolCalls
    ensures var s' := Visit(s, Verify, a, cfg);
      && At(s', Analyze, 1) && s'.repairCount == s.repairCount && s'.queue == ["more"]
      && s'.usage == Step(s.usage)
  {
    hide AcceptedCalls;
    GuardPasses(s, Verify, cfg);
    DistinctCallsAccepted(["more"], cfg.screen, 1);
    assert AllJudged(s.proposed, [], Known(s)) == [];
  }

  /** The first analysis has no call to make; verification asks for the one that is left. */
  lemma FirstAnalysisTakes(s: State, a: Answers, cfg: Config, planned: nat)
    requires a == Working(planned) && cfg.limits.Valid() && cfg.screen == (x => Some(x))
    requires At(s, Analyze, 0) && s.repairCount == 0 && s.queue == [] &&
      s.usage.toolCalls + 1 == cfg.limits.maxToolCalls
    requires Fits(s, cfg, 5 + 2 * cfg.Repairs())
    ensures Takes(s, a, cfg, 6 + 2 * cfg.Repairs())
  {
    hide Visit, Takes;
    FirstAnalysis(s, a, cfg, planned);
    var analysed := Visit(s, Analyze, a, cfg);
    FirstVerification(analysed, a, cfg, planned);
    var verified := Visit(analysed, Verify, a, cfg);
    SecondAnalysisTakes(verified, a, cfg, planned);
    OneMore(analysed, a, cfg, 4 + 2 * cfg.Repairs());
    OneMore(s, a, cfg, 5 + 2 * cfg.Repairs());
  }

  lemma {:induction false} CollectionTakes(s: State, a: Answers, cfg: Config, planned: nat)
    requires a == Working(planned) && cfg.limits.Valid() && cfg.screen == (x => Some(x))
    requires At(s, Collect, 0) && s.repairCount == 0 && s.queue != []
    requires s.usage.toolCalls + |s.queue| + 1 == cfg.limits.maxToolCalls
    requires Fits(s, cfg, |s.queue| + 5 + 2 * cfg.Repairs())
    ensures Takes(s, a, cfg, |s.queue| + 6 + 2 * cfg.Repairs())
    decreases |s.queue|
  {
    hide Takes;
    GuardPasses(s, Collect, cfg);
    var collected := Visit(s, Collect, a, cfg);
    assert s.evidence + [] == s.evidence;
    if |s.queue| == 1 {
      assert At(collected, Analyze, 0) && collected.queue == [];
      FirstAnalysisTakes(collected, a, cfg, planned);
    } else {
      assert At(collected, Collect, 0);
      CollectionTakes(collected, a, cfg, planned);
    }
    OneMore(s, a, cfg, |s.queue| + 5 + 2 * cfg.Repairs());
  }

  lemma OneMore(s: State, a: Answers, cfg: Config, n: nat)
    requires Route(s).Some? && Takes(Visit(s, Route(s).value, a, cfg), a, cfg, n)
    ensures Takes(s, a, cfg, n + 1)
  {
    hide Visit;
  }

  /**
   The bound on visits is attained: with three or more tool calls and enough steps there is a run of
   exactly max_tool_calls + 6 + 2 * repairs visits.
   */
  lemma BoundIsAttained(limits: Limits, maxRepairs: nat) returns (states: seq<State>, answers: seq<Answers>)
    requires limits.Valid() && limits.maxToolCalls >= 3 && limits.maxEvidence >= 2
    requires limits.maxSteps >= limits.maxToolCalls + 6 + 2 * maxRepairs
    ensures IsRun(states, answers, Permissive(limits, maxRepairs))
    ensures |answers| == limits.maxToolCalls + 6 + 2 * maxRepairs && Route(states[|answers|]) == None
  {
    var cfg := Permissive(limits, maxRepairs);
    var planned := limits.maxToolCalls - 2;
    var a := Working(planned);
    var loaded := InitializeNode(Start, Loading(), cfg);
    assert IsRun([Start, loaded], [Loading()], cfg);
    PlanningTakes(loaded, a, cfg, planned);
    states, answers := RunGoesOn([Start, loaded], [Loading()], a, cfg, planned + 7 + 2 * maxRepairs);
  }

  lemma PlanningTakes(s: State, a: Answers, cfg: Config, planned: nat)
    requires a == Working(planned) && cfg.limits.Valid() && cfg.screen == (x => Some(x))
    requires At(s, Plan, 0) && s.repairCount == 0 && s.usage.toolCalls == 1
    requires planned >= 1 && planned + 2 == cfg.limits.maxToolCalls && Fits(s, cfg, planned + 6 + 2 * cfg.Repairs())
    ensures Takes(s, a, cfg, planned + 7 + 2 * cfg.Repairs())
  {
    hide Takes, AcceptedCalls;
    GuardPasses(s, Plan, cfg);
    DistinctCallsAccepted(Calls(planned), cfg.screen, RemainingCalls(s.usage, cfg));
    var ready := Visit(s, Plan, a, cfg);
    assert At(ready, Collect, 0) && ready.queue == Calls(planned);
    CollectionTakes(ready, a, cfg, planned);
    OneMore(s, a, cfg, planned + 6 + 2 * cfg.Repairs());
  }
}
