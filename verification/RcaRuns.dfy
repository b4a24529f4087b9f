/** What every run of the investigation graph promises. */
module RcaRuns {
  import opened Prelude
  import opened RcaPlan
  import opened RcaGraph
  import R = RcaReport

  // ---------------------------------------------------------------- one visit

  /** More evidence never invalidates what hypotheses cite. */
  lemma GroundedLater(s: State, s': State)
    requires HypothesesGrounded(s) && s.evidence <= s'.evidence && s'.hypotheses == s.hypotheses
    ensures HypothesesGrounded(s')
  {
    forall h | h in s'.hypotheses ensures R.CitesOnly(h, Known(s')) {
      assert R.CitesOnly(h, Known(s));
    }
  }

  lemma InitializeGood(s: State, a: Answers, cfg: Config)
    requires Inv(s, cfg) && s.next == Some(Initialize) && cfg.limits.Valid()
    ensures GoodVisit(s, InitializeNode(s, a, cfg), cfg)
  {
    hide R.Issues, R.Passes;
  }

  lemma PlanGood(s: State, a: Answers, cfg: Config)
    requires Inv(s, cfg) && s.next == Some(Plan) && cfg.limits.Valid()
    ensures GoodVisit(s, PlanNode(s, a, cfg), cfg)
  {
    hide AcceptedCalls, R.Issues, R.Passes, HypothesesGrounded;
    var remaining := RemainingCalls(s.usage, cfg);
    var s' := PlanNode(s, a, cfg);
    if a.plan.Answer? { AcceptedCallsMeaning(a.plan.value, cfg.screen, remaining); }
    if a.replan.Answer? { AcceptedCallsMeaning(a.replan.value, cfg.screen, remaining); }
    GroundedLater(s, s');
  }

  lemma CollectGood(s: State, a: Answers, cfg: Config)
    requires Inv(s, cfg) && s.next == Some(Collect) && cfg.limits.Valid()
    ensures GoodVisit(s, CollectNode(s, a, cfg), cfg)
  {
    hide R.Issues, R.Passes, HypothesesGrounded;
    GroundedLater(s, CollectNode(s, a, cfg));
  }

  lemma {:induction false} DrainedBudget(queue: seq<string>, u: Usage, a: Answers, cfg: Config, k: nat)
    ensures u.toolCalls <= Drained(queue, u, a, cfg, k).toolCalls <= u.toolCalls + |queue|
    decreases |queue|
  {
    if queue != [] && RemainingEvidence(u, cfg.limits) != 0 {
      match RunCall(u, cfg, a.elapsed(k + 1), a.tools(k)) {
        case Refused(_) =>
        case Ran(u', _) => DrainedBudget(queue[1..], Step(u'), a, cfg, k + 1);
      }
    }
  }

  lemma AnalyzeGood(s: State, a: Answers, cfg: Config)
    requires Inv(s, cfg) && s.next == Some(Analyze) && cfg.limits.Valid()
    ensures GoodVisit(s, AnalyzeNode(s, a, cfg), cfg)
  {
    hide R.Issues, R.Passes, HypothesesGrounded, Drained;
    DrainedBudget(s.queue, s.usage, a, cfg, 0);
    GroundedLater(s, AnalyzeNode(s, a, cfg));
  }

  lemma VerifyGood(s: State, a: Answers, cfg: Config)
    requires Inv(s, cfg) && s.next == Some(Verify) && cfg.limits.Valid()
    ensures GoodVisit(s, VerifyNode(s, a, cfg), cfg)
  {
    hide R.Issues, R.Passes, AcceptedCalls;
    var s' := VerifyNode(s, a, cfg);
    var remaining := RemainingCalls(s.usage, cfg);
    if a.verification.Answer? {
      AcceptedCallsMeaning(a.verification.value.calls, cfg.screen, if remaining < 3 then remaining else 3);
    }
    if s'.hypotheses == s.hypotheses {
      GroundedLater(s, s');
    } else {
      assert HypothesesGrounded(s');
    }
  }

  lemma BuiltIsSound(s: State, synthesis: R.Synthesis, s': State)
    requires HypothesesGrounded(s) && s'.evidence == s.evidence
    requires s'.rca == Some(R.BuiltReport(s.findings, s.hypotheses, synthesis, Known(s)))
    ensures PendingReportSound(s')
  {
    hide R.Issues, R.Passes, R.BuiltReport, R.Grounded, R.StatesUncertainty, R.DanglingIssues, R.HypothesisIds;
    R.BuiltReportPasses(s.findings, s.hypotheses, synthesis, Known(s));
    R.GroundedNothingDangles(s.hypotheses, Known(s));
  }

  lemma SynthesizeGood(s: State, a: Answers, cfg: Config)
    requires Inv(s, cfg) && s.next == Some(Synthesize) && cfg.limits.Valid()
    ensures GoodVisit(s, SynthesizeNode(s, a, cfg), cfg)
  {
    hide R.Issues, R.Passes, R.BuiltReport, HypothesesGrounded;
    var s' := SynthesizeNode(s, a, cfg);
    GroundedLater(s, s');
    if s'.rca == s.rca {
      assert PendingReportSound(s');
    } else {
      BuiltIsSound(s, a.synthesis.value, s');
    }
  }

  lemma FallBackAccepted(s: State, texts: string)
    requires HypothesesGrounded(s)
    ensures var r := R.FallbackReport(s.evidence, s.hypotheses, texts);
      R.Issues(r, Known(s)) == [] && R.Passes(r, Known(s)) && r.status == R.Insufficient
  {
    hide R.Issues, R.Passes, R.DanglingIssues, R.HypothesisIds, R.Grounded, R.Discarded;
    R.FallbackPasses(s.evidence, s.hypotheses, texts);
    R.GroundedNothingDangles(s.hypotheses, Known(s));
  }

  lemma FallBackGood(s: State, a: Answers, reason: Reason, cfg: Config)
    requires Inv(s, cfg) && s.next == Some(Validate) && (reason == SynthesisNotReached || reason == ReportRejected)
    ensures GoodVisit(s, FallBack(s, a, reason), cfg)
    ensures FallBack(s, a, reason).status == InsufficientEvidence && FallBack(s, a, reason).hypotheses == s.hypotheses
  {
    hide R.Issues, R.Passes, R.FallbackReport, HypothesesGrounded;
    FallBackAccepted(s, a.issueTexts);
    GroundedLater(s, FallBack(s, a, reason));
  }

  lemma RepairGood(s: State, cfg: Config)
    requires Inv(s, cfg) && s.next == Some(Validate) && s.repairCount < cfg.maxRepairs
    ensures var s' := s.(status := Verifying, repairCount := s.repairCount + 1, usage := Step(s.usage),
      next := Some(Synthesize));
      GoodVisit(s, s', cfg)
  {
    hide R.Issues, R.Passes, HypothesesGrounded;
    GroundedLater(s, s.(status := Verifying, repairCount := s.repairCount + 1, usage := Step(s.usage),
      next := Some(Synthesize)));
  }

  lemma AcceptGood(s: State, cfg: Config)
    requires Inv(s, cfg) && s.next == Some(Validate) && s.rca.Some? && R.Issues(s.rca.value, Known(s)) == []
    ensures GoodVisit(s, Terminal(s.(usage := Step(s.usage)), ReportOutcome(s.rca.value.status), AnalysisComplete), cfg)
  {
    hide R.Issues, R.Passes, HypothesesGrounded;
    R.NoIssue(s.rca.value, Known(s));
    GroundedLater(s, Terminal(s.(usage := Step(s.usage)), ReportOutcome(s.rca.value.status), AnalysisComplete));
  }

  lemma ValidateGood(s: State, a: Answers, cfg: Config)
    requires Inv(s, cfg) && s.next == Some(Validate) && cfg.limits.Valid()
    ensures GoodVisit(s, ValidateNode(s, a, cfg), cfg)
  {
    hide R.Issues, FallBack, Inv, GoodVisit;
    if s.rca == None {
      FallBackGood(s, a, SynthesisNotReached, cfg);
    } else if R.Issues(s.rca.value, Known(s)) == [] {
      AcceptGood(s, cfg);
    } else if s.repairCount < cfg.maxRepairs {
      RepairGood(s, cfg);
    } else {
      FallBackGood(s, a, ReportRejected, cfg);
    }
  }

  lemma VisitGood(s: State, a: Answers, cfg: Config)
    requires Inv(s, cfg) && Route(s).Some? && cfg.limits.Valid()
    ensures GoodVisit(s, Visit(s, Route(s).value, a, cfg), cfg)
  {
    hide Inv, GoodVisit, InitializeNode, PlanNode, CollectNode, AnalyzeNode, VerifyNode, SynthesizeNode, ValidateNode;
    match Route(s).value {
      case Initialize => InitializeGood(s, a, cfg);
      case Plan => PlanGood(s, a, cfg);
      case Collect => CollectGood(s, a, cfg);
      case Analyze => AnalyzeGood(s, a, cfg);
      case Verify => VerifyGood(s, a, cfg);
      case Synthesize => SynthesizeGood(s, a, cfg);
      case Validate => ValidateGood(s, a, cfg);
    }
  }

  // ---------------------------------------------------------------- whole runs

  lemma {:induction false} RunGood(states: seq<State>, answers: seq<Answers>, cfg: Config, n: nat)
    requires IsRun(states, answers, cfg) && cfg.limits.Valid() && n < |states|
    ensures Inv(states[n], cfg)
    ensures n + Remaining(states[n], cfg) <= cfg.limits.maxToolCalls + 6 + 2 * cfg.Repairs()
  {
    hide Visit, Inv;
    if n == 0 {
      StartGood(cfg);
    } else {
      RunGood(states, answers, cfg, n - 1);
      assert Route(states[n - 1]).Some?;
      VisitGood(states[n - 1], answers[n - 1], cfg);
    }
  }

  lemma StartGood(cfg: Config)
    requires cfg.limits.Valid()
    ensures Inv(Start, cfg) && Remaining(Start, cfg) == cfg.limits.maxToolCalls + 6 + 2 * cfg.Repairs()
  {
  }

  function RecursionLimit(l: Limits): (r: int) {
    3 * (l.maxToolCalls + l.maxSteps) + 25
  }

  /**
   Whatever model, tools and clock answer, a run visits at most max_tool_calls + 6 + 2 * repairs
   nodes. That is below the recursion limit of the graph unless very many repairs are allowed, and
   always for the default of one.
   */
  lemma RunsAreBounded(states: seq<State>, answers: seq<Answers>, cfg: Config)
    requires IsRun(states, answers, cfg) && cfg.limits.Valid()
    ensures |answers| <= cfg.limits.maxToolCalls + 6 + 2 * cfg.Repairs()
    ensures 2 * cfg.Repairs() < 2 * cfg.limits.maxToolCalls + 3 * cfg.limits.maxSteps + 19 ==>
      |answers| < RecursionLimit(cfg.limits)
    ensures cfg.maxRepairs <= 1 ==> |answers| < RecursionLimit(cfg.limits)
  {
    hide Visit, Inv;
    RunGood(states, answers, cfg, |answers|);
  }

  /**
   A run that ends COMPLETED, or INSUFFICIENT_EVIDENCE with a report, ends with a report that passes
   validation against the evidence of the final state and carries that status. The fallback is never
   rejected, and no more tools are called than allowed.
   */
  lemma AcceptedReportsPass(states: seq<State>, answers: seq<Answers>, cfg: Config)
    requires IsRun(states, answers, cfg) && cfg.limits.Valid()
    ensures var s := states[|answers|];
      && (s.status == Completed ==> s.rca.Some?)
      && (s.status in {Completed, InsufficientEvidence} && s.rca.Some? ==>
            R.Passes(s.rca.value, Known(s)) && ReportOutcome(s.rca.value.status) == s.status)
      && s.reason != FallbackInvalid
      && s.usage.toolCalls <= cfg.limits.maxToolCalls
  {
    hide Visit, R.Issues, R.Passes;
    RunGood(states, answers, cfg, |answers|);
  }

  /** Every change of status is an edge of the lifecycle, a stutter, or one of two named jumps. */
  lemma StatusFollowsLifecycle(states: seq<State>, answers: seq<Answers>, cfg: Config, n: nat)
    requires IsRun(states, answers, cfg) && cfg.limits.Valid() && n < |answers|
    ensures LegalChange(states[n].status, states[n + 1].status)
    ensures states[n].evidence <= states[n + 1].evidence
  {
    hide Visit, Inv;
    RunGood(states, answers, cfg, n);
    assert Route(states[n]).Some?;
    VisitGood(states[n], answers[n], cfg);
  }

  /** The first jump: an investigation that starts too late goes from PENDING to TIMED_OUT. */
  lemma LateStartTimesOut(a: Answers, cfg: Config)
    requires cfg.limits.Valid()
    ensures var s := InitializeNode(Start, a, cfg);
      IsRun([Start, s], [a], cfg) && (s.status == TimedOut <==> a.elapsed(0) > cfg.limits.timeout)
  {
  }

  /**
   The second jump: an investigation that loaded its incident leaves PLANNING for VERIFYING exactly
   when it has no step left for planning or the incident alone is over the evidence limit.
   */
  lemma PlanningJumpsWhenOverLimit(a: Answers, b: Answers, cfg: Config)
    requires cfg.limits.Valid() && a.elapsed(0) <= cfg.limits.timeout && a.tools(0).ok && a.tools(0).evidence != []
    ensures var s := InitializeNode(Start, a, cfg);
      var s' := PlanNode(s, b, cfg);
      && IsRun([Start, s, s'], [a, b], cfg) && s.status == Planning
      && (s'.status == Verifying <==> cfg.limits.maxSteps < 2 || |a.tools(0).evidence| > cfg.limits.maxEvidence)
  {
    var s := InitializeNode(Start, a, cfg);
    var states, answers := [Start, s, PlanNode(s, b, cfg)], [a, b];
    assert states[1] == Visit(states[0], Initialize, answers[0], cfg);
    assert states[2] == Visit(states[1], Plan, answers[1], cfg);
  }

  // ---------------------------------------------------------------- what a visit does with its answers

  /**
   While evidence is being collected none is lost: whatever the meter counts goes into the state. Collecting goes
   on exactly while calls and evidence budget are left.
   */
  lemma CollectionLosesNothing(s: State, a: Answers, cfg: Config)
    requires Inv(s, cfg) && s.next == Some(Collect) && cfg.limits.Valid()
    ensures var s' := CollectNode(s, a, cfg);
      && s'.usage.evidenceItems - |s'.evidence| == s.usage.evidenceItems - |s.evidence|
      && (s'.usage.toolCalls == s.usage.toolCalls || s'.usage.toolCalls == s.usage.toolCalls + 1)
      && (s'.usage.toolCalls > s.usage.toolCalls ==>
            && s'.evidence == s.evidence + a.tools(0).evidence && s'.queue == s.queue[1..]
            && (s'.next == Some(Collect) <==> s'.queue != [] && RemainingEvidence(s'.usage, cfg.limits) > 0))
  {
    hide R.Issues, R.Passes, HypothesesGrounded;
  }

  /** The verdict given to a hypothesis nobody judged, by how often it cites collected evidence for and against. */
  lemma DefaultVerdictMeaning(h: ProposedHypothesis, known: set<string>)
    ensures var pro, con := |R.KeepIds(h.supporting, known)|, |R.KeepIds(h.contradicting, known)|;
      var v := DefaultVerdict(h, known);
      && (v == R.Refuted <==> con > pro)
      && (v == R.Conflicting <==> 1 <= con <= pro)
      && (v == R.Supported <==> con == 0 && pro >= 2)
      && (v == R.Unverified <==> con == 0 && pro <= 1)
  {
  }

  /** The report a synthesis visit writes shows what the model proposed, cut down to the collected evidence. */
  lemma SynthesisIsShown(s: State, a: Answers, cfg: Config)
    requires Guard(s, Synthesize, cfg, a.elapsed(0)) == None && a.synthesis.Answer?
    ensures var s' := SynthesizeNode(s, a, cfg);
      && s'.rca.Some? && R.ShowsRootCause(s'.rca.value, a.synthesis.value, Known(s))
      && R.ShowsProposed(s'.rca.value, s.findings, a.synthesis.value, Known(s))
      && ReportOutcome(s'.rca.value.status) == (if a.synthesis.value.completed then Completed else InsufficientEvidence)
  {
    hide R.ShowsRootCause, R.ShowsProposed;
    R.BuiltShowsRootCause(s.findings, s.hypotheses, a.synthesis.value, Known(s));
    R.BuiltShowsProposed(s.findings, s.hypotheses, a.synthesis.value, Known(s));
  }

  /** The model call that node `n` makes fails, by timeout or otherwise. */
  predicate ModelFails(n: Node, a: Answers, byTimeout: bool) {
    match n
    case Plan =>
      if byTimeout then a.plan.TimeoutError? || (a.plan.Answer? && a.replan.TimeoutError?)
      else a.plan.OtherError? || (a.plan.Answer? && a.replan.OtherError?)
    case Analyze => if byTimeout then a.analysis.TimeoutError? else a.analysis.OtherError?
    case Verify => if byTimeout then a.verification.TimeoutError? else a.verification.OtherError?
    case Synthesize => if byTimeout then a.synthesis.TimeoutError? else a.synthesis.OtherError?
    case _ => false
  }

  predicate TimeIsOver(a: Answers, cfg: Config) {
    a.elapsed(0) > cfg.limits.timeout || a.elapsed(1) > cfg.limits.timeout
  }

  /**
   A visit ends FAILED only because the incident could not be loaded or a model call failed otherwise than by
   timeout, and TIMED_OUT only because time was over or a model call timed out. When nothing else stands in
   the way, a failing call of analysis, verification or synthesis does end it so.
   */
  lemma WhyItEnds(s: State, a: Answers, cfg: Config)
    requires Inv(s, cfg) && Route(s).Some? && cfg.limits.Valid()
    ensures var n := Route(s).value;
      var s' := Visit(s, n, a, cfg);
      && (s'.status == Failed ==>
            (n == Initialize && (!a.tools(0).ok || a.tools(0).evidence == [])) || ModelFails(n, a, false))
      && (s'.status == TimedOut ==> TimeIsOver(a, cfg) || ModelFails(n, a, true))
      && (n in {Analyze, Verify, Synthesize} && !OverLimit(s.usage, cfg.limits) && !TimeIsOver(a, cfg) ==>
            (s'.status == Failed <==> ModelFails(n, a, false)) && (s'.status == TimedOut <==> ModelFails(n, a, true)))
  {
    hide R.Issues, R.Passes, HypothesesGrounded, R.BuiltReport, AcceptedCalls, Drained, R.FallbackReport;
    match Route(s).value {
      case Initialize =>
      case Plan => PlanEnds(s, a, cfg);
      case Collect => CollectEnds(s, a, cfg);
      case Validate => ValidateEnds(s, a, cfg);
      case _ =>
    }
  }

  lemma PlanEnds(s: State, a: Answers, cfg: Config)
    requires Inv(s, cfg) && s.next == Some(Plan)
    ensures var s' := PlanNode(s, a, cfg);
      (s'.status == Failed ==> ModelFails(Plan, a, false))
      && (s'.status == TimedOut ==> TimeIsOver(a, cfg) || ModelFails(Plan, a, true))
  {
    hide AcceptedCalls, R.Issues, R.Passes, HypothesesGrounded;
  }

  lemma CollectEnds(s: State, a: Answers, cfg: Config)
    requires Inv(s, cfg) && s.next == Some(Collect)
    ensures CollectNode(s, a, cfg).status != Failed
    ensures CollectNode(s, a, cfg).status == TimedOut ==> TimeIsOver(a, cfg)
  {
    hide R.Issues, R.Passes, HypothesesGrounded;
  }

  lemma ValidateEnds(s: State, a: Answers, cfg: Config)
    requires Inv(s, cfg) && s.next == Some(Validate)
    ensures ValidateNode(s, a, cfg).status != Failed && ValidateNode(s, a, cfg).status != TimedOut
  {
    hide R.Issues, R.Passes, FallBack, HypothesesGrounded;
    FallBackGood(s, a, SynthesisNotReached, cfg);
    FallBackGood(s, a, ReportRejected, cfg);
  }

  /** The analysis keeps the first hypotheses, at most as many as allowed, and all of them if they fit. */
  lemma AnalysisKeepsFirst(s: State, a: Answers, cfg: Config)
    requires AnalyzeNode(s, a, cfg).next == Some(Verify)
    ensures a.analysis.Answer?
    ensures var kept, all := AnalyzeNode(s, a, cfg).proposed, a.analysis.value.hypotheses;
      && kept <= all && |kept| <= cfg.limits.maxHypotheses
      && (kept != all ==> |kept| == cfg.limits.maxHypotheses)
      && AnalyzeNode(s, a, cfg).findings == a.analysis.value.findings
  {
    hide Drained;
  }

  /** Verification sends back to analysis once, on request, with one to three usable calls that fit the budget. */
  lemma ReanalysisIsBounded(s: State, a: Answers, cfg: Config)
    requires VerifyNode(s, a, cfg).next == Some(Analyze) && s.next == Some(Verify)
    ensures a.verification.Answer? && a.verification.value.needsMore && s.reanalysisCount == 0
    ensures var s' := VerifyNode(s, a, cfg);
      && 1 <= |s'.queue| <= 3 && s'.usage.toolCalls + |s'.queue| <= cfg.limits.maxToolCalls
      && s'.reanalysisCount == 1
      && forall c | c in s'.queue :: IsUsable(a.verification.value.calls, cfg.screen, c)
  {
    hide AcceptedCalls, AllJudged;
    if a.verification.Answer? {
      var remaining := RemainingCalls(s.usage, cfg);
      AcceptedCallsMeaning(a.verification.value.calls, cfg.screen, if remaining < 3 then remaining else 3);
    }
  }
}
