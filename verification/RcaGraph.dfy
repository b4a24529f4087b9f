/**
 The investigation graph: seven nodes over one shared state, driven by a model, tools and a clock
 that answer arbitrarily. Each visit of a node is a function of the state and of those answers.
 */
module RcaGraph {
  import opened Prelude
  import opened RcaPlan
  import R = RcaReport

  datatype Status =
    | Pending | Planning | CollectingEvidence | Analyzing | Verifying
    | Completed | InsufficientEvidence | Failed | TimedOut
  {
    predicate IsTerminal() { this in {Completed, InsufficientEvidence, Failed, TimedOut} }
  }

  function AllowedTransitions(s: Status): (r: set<Status>) {
    match s
    case Pending => {Planning, Failed}
    case Planning => {CollectingEvidence, InsufficientEvidence, Failed, TimedOut}
    case CollectingEvidence => {CollectingEvidence, Analyzing, InsufficientEvidence, Failed, TimedOut}
    case Analyzing => {Analyzing, Verifying, InsufficientEvidence, Failed, TimedOut}
    case Verifying => {Analyzing, Completed, InsufficientEvidence, Failed, TimedOut}
    case _ => {}
  }

  predicate CanTransition(current: Status, target: Status) {
    target in AllowedTransitions(current)
  }

  datatype Node = Initialize | Plan | Collect | Analyze | Verify | Synthesize | Validate

  datatype Reason =
    | Running | LimitBeforeLoading | IncidentNotLoaded | LlmTimedOut | LlmFailed | TimeIsUp | NoPlan
    | LimitReached | SynthesisNotReached | FallbackInvalid | ReportRejected | AnalysisComplete

  // ---------------------------------------------------------------- limits

  datatype Limits = Limits(maxToolCalls: int, maxSteps: int, maxEvidence: int, timeout: real, maxHypotheses: nat)
  {
    predicate Valid() {
      1 <= maxToolCalls <= 100 && 1 <= maxSteps <= 200 && 1 <= maxEvidence <= 200 && 0.0 < timeout <= 900.0 &&
        1 <= maxHypotheses <= 20
    }
  }

  /** `issued` counts the evidence ids the tools have drawn. */
  datatype Usage = Usage(toolCalls: nat, steps: nat, evidenceItems: nat, issued: nat)

  datatype LimitKind = ToolCalls | Steps | EvidenceItems | Time

  function CheckLimits(u: Usage, l: Limits, elapsed: real): (r: Option<LimitKind>) {
    if u.toolCalls > l.maxToolCalls then Some(ToolCalls)
    else if u.steps > l.maxSteps then Some(Steps)
    else if u.evidenceItems > l.maxEvidence then Some(EvidenceItems)
    else if elapsed > l.timeout then Some(Time)
    else None
  }

  function RemainingEvidence(u: Usage, l: Limits): (r: nat) {
    if l.maxEvidence > u.issued then l.maxEvidence - u.issued else 0
  }

  datatype Config = Config(limits: Limits, maxRepairs: int, screen: Screen)
  {
    function Repairs(): (r: nat) { if maxRepairs > 0 then maxRepairs else 0 }
  }

  // ---------------------------------------------------------------- what the outside answers

  datatype Reply<T> = Answer(value: T) | TimeoutError | OtherError

  datatype ToolReply = ToolReply(ok: bool, evidence: seq<string>, issued: nat)

  datatype ProposedHypothesis = ProposedHypothesis(supporting: seq<string>, contradicting: seq<string>)

  datatype Analysis = Analysis(findings: seq<R.ProposedFinding>, hypotheses: seq<ProposedHypothesis>)

  datatype VerdictItem = VerdictItem(index: nat, verdict: R.Verdict)

  datatype Verification = Verification(verdicts: seq<VerdictItem>, needsMore: bool, calls: seq<string>)

  /** Every answer a visit may draw; `elapsed(k)` is the clock at its k-th limit check. */
  datatype Answers = Answers(
    elapsed: nat -> real,
    tools: nat -> ToolReply,
    plan: Reply<seq<string>>,
    replan: Reply<seq<string>>,
    analysis: Reply<Analysis>,
    verification: Reply<Verification>,
    synthesis: Reply<R.Synthesis>,
    issueTexts: string)

  // ---------------------------------------------------------------- state

  datatype State = State(
    status: Status,
    next: Option<Node>,
    reason: Reason,
    queue: seq<string>,
    evidence: seq<string>,
    reanalysisCount: nat,
    repairCount: nat,
    findings: seq<R.ProposedFinding>,
    proposed: seq<ProposedHypothesis>,
    hypotheses: seq<R.Hypothesis>,
    rca: Option<R.Report>,
    usage: Usage)

  const Start := State(Pending, Some(Initialize), Running, [], [], 0, 0, [], [], [], None, Usage(0, 0, 0, 0))

  function Known(s: State): (r: set<string>) { SetOf(s.evidence) }

  /** The next node, unless the status is terminal. */
  function Route(s: State): (r: Option<Node>) {
    if s.status.IsTerminal() then None else s.next
  }

  function Terminal(s: State, status: Status, reason: Reason): (r: State) {
    s.(status := status, reason := reason, next := None)
  }

  function LlmTerminal(s: State, timeout: bool): (r: State) {
    if timeout then Terminal(s, TimedOut, LlmTimedOut) else Terminal(s, Failed, LlmFailed)
  }

  /** One entry in the trace; its number is the step counter. */
  function Step(u: Usage): (r: Usage) { u.(steps := u.steps + 1) }

  function Degrade(n: Node): (r: Option<(Node, Status)>) {
    match n
    case Plan => Some((Synthesize, Verifying))
    case Collect => Some((Analyze, Analyzing))
    case Analyze => Some((Synthesize, Verifying))
    case Verify => Some((Synthesize, Verifying))
    case Synthesize => Some((Validate, Verifying))
    case _ => None
  }

  /** The limit check at the top of a node; `None` lets it proceed. */
  function Guard(s: State, n: Node, cfg: Config, elapsed: real): (r: Option<State>) {
    match CheckLimits(s.usage, cfg.limits, elapsed)
    case None => None
    case Some(Time) => Some(Terminal(s, TimedOut, TimeIsUp))
    case Some(_) =>
      match Degrade(n)
      case None => Some(Terminal(s, InsufficientEvidence, LimitReached))
      case Some((target, status)) =>
        Some(s.(status := status, next := Some(target), queue := [], usage := Step(s.usage)))
  }

  datatype CallOutcome = Refused(kind: LimitKind) | Ran(usage: Usage, reply: ToolReply)

  function RunCall(u: Usage, cfg: Config, elapsed: real, reply: ToolReply): (r: CallOutcome) {
    match CheckLimits(u, cfg.limits, elapsed)
    case Some(kind) => Refused(kind)
    case None =>
      Ran(u.(toolCalls := u.toolCalls + 1, evidenceItems := u.evidenceItems + |reply.evidence|,
        issued := u.issued + reply.issued), reply)
  }

  // ---------------------------------------------------------------- nodes

  function InitializeNode(s: State, a: Answers, cfg: Config): (r: State) {
    var u := Step(s.usage);
    match RunCall(u, cfg, a.elapsed(0), a.tools(0))
    case Refused(_) => Terminal(s.(usage := u), TimedOut, LimitBeforeLoading)
    case Ran(u', reply) =>
      if !reply.ok || reply.evidence == [] then Terminal(s.(usage := u'), Failed, IncidentNotLoaded)
      else s.(status := Planning, evidence := s.evidence + [reply.evidence[0]], usage := Step(u'), queue := [],
              reanalysisCount := 0, repairCount := 0, next := Some(Plan))
  }

  function RemainingCalls(u: Usage, cfg: Config): (r: nat) {
    if cfg.limits.maxToolCalls > u.toolCalls then cfg.limits.maxToolCalls - u.toolCalls else 0
  }

  function PlanNode(s: State, a: Answers, cfg: Config): (r: State) {
    var guarded := Guard(s, Plan, cfg, a.elapsed(0));
    if guarded.Some? then guarded.value
    else if !a.plan.Answer? then LlmTerminal(s, a.plan.TimeoutError?)
    else
      var remaining := RemainingCalls(s.usage, cfg);
      var first := AcceptedCalls(a.plan.value, cfg.screen, remaining);
      if first != [] then Planned(s, first)
      else if !a.replan.Answer? then LlmTerminal(s, a.replan.TimeoutError?)
      else Planned(s, AcceptedCalls(a.replan.value, cfg.screen, remaining))
  }

  function Planned(s: State, accepted: seq<string>): (r: State) {
    var s' := s.(usage := Step(s.usage));
    if accepted == [] then Terminal(s', InsufficientEvidence, NoPlan)
    else s'.(status := CollectingEvidence, queue := accepted, next := Some(Collect))
  }

  function CollectNode(s: State, a: Answers, cfg: Config): (r: State) {
    var guarded := Guard(s, Collect, cfg, a.elapsed(0));
    if guarded.Some? then guarded.value
    else if s.queue == [] then s.(status := Analyzing, next := Some(Analyze))
    else match RunCall(s.usage, cfg, a.elapsed(1), a.tools(0))
      case Refused(Time) => Terminal(s, TimedOut, TimeIsUp)
      case Refused(_) => s.(status := Analyzing, queue := [], usage := Step(s.usage), next := Some(Analyze))
      case Ran(u, reply) =>
        var rest := s.queue[1..];
        var s' := s.(queue := rest, usage := Step(u), evidence := s.evidence + reply.evidence);
        if rest != [] && RemainingEvidence(u, cfg.limits) > 0 then s'.(next := Some(Collect))
        else s'.(status := Analyzing, next := Some(Analyze))
  }

  /** The meters once the follow-up calls have been made, as far as budget and limits allow. */
  function Drained(queue: seq<string>, u: Usage, a: Answers, cfg: Config, k: nat): (r: Usage)
    decreases |queue|
  {
    if queue == [] || RemainingEvidence(u, cfg.limits) == 0 then u
    else match RunCall(u, cfg, a.elapsed(k + 1), a.tools(k))
      case Refused(_) => u
      case Ran(u', _) => Drained(queue[1..], Step(u'), a, cfg, k + 1)
  }

  /** The evidence those calls return, in order. */
  function DrainedEvidence(queue: seq<string>, u: Usage, a: Answers, cfg: Config, k: nat): (r: seq<string>)
    decreases |queue|
  {
    if queue == [] || RemainingEvidence(u, cfg.limits) == 0 then []
    else match RunCall(u, cfg, a.elapsed(k + 1), a.tools(k))
      case Refused(_) => []
      case Ran(u', reply) => reply.evidence + DrainedEvidence(queue[1..], Step(u'), a, cfg, k + 1)
  }

  method DrainExtraQueue(queue0: seq<string>, u0: Usage, a: Answers, cfg: Config)
    returns (u: Usage, evidence: seq<string>)
    ensures u == Drained(queue0, u0, a, cfg, 0) && evidence == DrainedEvidence(queue0, u0, a, cfg, 0)
    ensures u.evidenceItems == u0.evidenceItems + |evidence|
    ensures u.toolCalls <= u0.toolCalls + |queue0|
  {
    hide RunCall;
    var queue, k := queue0, 0;
    u, evidence := u0, [];
    while queue != [] && RemainingEvidence(u, cfg.limits) > 0
      invariant Drained(queue, u, a, cfg, k) == Drained(queue0, u0, a, cfg, 0)
      invariant evidence + DrainedEvidence(queue, u, a, cfg, k) == DrainedEvidence(queue0, u0, a, cfg, 0)
      invariant u.evidenceItems == u0.evidenceItems + |evidence|
      invariant u.toolCalls + |queue| <= u0.toolCalls + |queue0|
      decreases |queue|
    {
      RunCallMeters(u, cfg, a.elapsed(k + 1), a.tools(k));
      match RunCall(u, cfg, a.elapsed(k + 1), a.tools(k)) {
        case Refused(_) => return;
        case Ran(u', reply) =>
          u := Step(u');
          evidence := evidence + reply.evidence;
      }
      queue := queue[1..];
      k := k + 1;
    }
  }

  lemma RunCallMeters(u: Usage, cfg: Config, elapsed: real, reply: ToolReply)
    ensures var r := RunCall(u, cfg, elapsed, reply);
      r.Ran? ==> r.reply == reply && r.usage.toolCalls == u.toolCalls + 1 && r.usage.steps == u.steps
                 && r.usage.evidenceItems == u.evidenceItems + |reply.evidence|
  {
  }

  /** The follow-up evidence informs the model's analysis but is not kept in the state. */
  function AnalyzeNode(s: State, a: Answers, cfg: Config): (r: State) {
    var guarded := Guard(s, Analyze, cfg, a.elapsed(0));
    if guarded.Some? then guarded.value
    else
      var s' := s.(usage := Drained(s.queue, s.usage, a, cfg, 0));
      if !a.analysis.Answer? then LlmTerminal(s', a.analysis.TimeoutError?)
      else
        var hyps := a.analysis.value.hypotheses;
        s'.(status := Verifying, findings := a.analysis.value.findings,
            proposed := if |hyps| <= cfg.limits.maxHypotheses then hyps else hyps[..cfg.limits.maxHypotheses],
            usage := Step(s'.usage), next := Some(Verify))
  }

  function DefaultVerdict(h: ProposedHypothesis, known: set<string>): (r: R.Verdict) {
    var s, c := |R.KeepIds(h.supporting, known)|, |R.KeepIds(h.contradicting, known)|;
    if c > s then R.Refuted
    else if s >= 1 && c >= 1 then R.Conflicting
    else if s >= 2 then R.Supported
    else R.Unverified
  }

  /** The last verdict given for hypothesis `i`. */
  function VerdictFor(items: seq<VerdictItem>, i: nat): (r: Option<R.Verdict>) {
    if items == [] then None
    else if items[|items| - 1].index == i then Some(items[|items| - 1].verdict)
    else VerdictFor(items[..|items| - 1], i)
  }

  function Judged(h: ProposedHypothesis, i: nat, items: seq<VerdictItem>, known: set<string>): (r: R.Hypothesis) {
    var v := VerdictFor(items, i);
    R.Hypothesis(R.KeepIds(h.supporting, known), R.KeepIds(h.contradicting, known),
                 if v.Some? then v.value else DefaultVerdict(h, known))
  }

  function AllJudged(hs: seq<ProposedHypothesis>, items: seq<VerdictItem>, known: set<string>): (r: seq<R.Hypothesis>)
    ensures |r| == |hs|
    ensures forall i | 0 <= i < |r| :: r[i] == Judged(hs[i], i, items, known)
  {
    seq(|hs|, i requires 0 <= i < |hs| => Judged(hs[i], i, items, known))
  }

  /** Builds the final hypotheses from the last verdict given for each. */
  method JudgeHypotheses(proposed: seq<ProposedHypothesis>, items: seq<VerdictItem>, known: set<string>)
    returns (hs: seq<R.Hypothesis>)
    ensures hs == AllJudged(proposed, items, known)
    ensures R.Grounded(hs, known)
  {
    var verdicts: map<nat, R.Verdict> := map[];
    for j := 0 to |items|
      invariant forall i :: VerdictFor(items[..j], i) == if i in verdicts then Some(verdicts[i]) else None
    {
      assert items[..j + 1][..j] == items[..j];
      verdicts := verdicts[items[j].index := items[j].verdict];
    }
    assert items[..|items|] == items;
    hs := [];
    for i := 0 to |proposed|
      invariant |hs| == i && forall k | 0 <= k < i :: hs[k] == Judged(proposed[k], k, items, known)
    {
      var verdict := if i in verdicts then verdicts[i] else DefaultVerdict(proposed[i], known);
      hs := hs + [R.Hypothesis(R.KeepIds(proposed[i].supporting, known), R.KeepIds(proposed[i].contradicting, known),
        verdict)];
    }
  }

  function VerifyNode(s: State, a: Answers, cfg: Config): (r: State) {
    var guarded := Guard(s, Verify, cfg, a.elapsed(0));
    if guarded.Some? then guarded.value
    else if !a.verification.Answer? then LlmTerminal(s, a.verification.TimeoutError?)
    else
      var v := a.verification.value;
      var s' := s.(hypotheses := AllJudged(s.proposed, v.verdicts, Known(s)), usage := Step(s.usage));
      var remaining := RemainingCalls(s.usage, cfg);
      var extra := AcceptedCalls(v.calls, cfg.screen, if remaining < 3 then remaining else 3);
      if v.needsMore && s.reanalysisCount < 1 && v.calls != [] && extra != []
      then s'.(status := Analyzing, queue := extra, reanalysisCount := s.reanalysisCount + 1, next := Some(Analyze))
      else s'.(status := Verifying, next := Some(Synthesize))
  }

  function SynthesizeNode(s: State, a: Answers, cfg: Config): (r: State) {
    var guarded := Guard(s, Synthesize, cfg, a.elapsed(0));
    if guarded.Some? then guarded.value
    else if !a.synthesis.Answer? then LlmTerminal(s, a.synthesis.TimeoutError?)
    else s.(status := Verifying, rca := Some(R.BuiltReport(s.findings, s.hypotheses, a.synthesis.value, Known(s))),
            usage := Step(s.usage), next := Some(Validate))
  }

  function ReportOutcome(status: R.ReportStatus): (r: Status) {
    if status == R.Completed then Completed else InsufficientEvidence
  }

  /** Ends with the fallback report, which must itself pass. */
  ghost function FallBack(s: State, a: Answers, reason: Reason): (r: State) {
    var fallback := R.FallbackReport(s.evidence, s.hypotheses, a.issueTexts);
    if R.Issues(fallback, Known(s)) != [] then Terminal(s, Failed, FallbackInvalid)
    else Terminal(s.(rca := Some(fallback), usage := Step(s.usage)), InsufficientEvidence, reason)
  }

  ghost function ValidateNode(s: State, a: Answers, cfg: Config): (r: State) {
    if s.rca == None then FallBack(s, a, SynthesisNotReached)
    else if R.Issues(s.rca.value, Known(s)) != [] then
      if s.repairCount < cfg.maxRepairs then
        s.(status := Verifying, repairCount := s.repairCount + 1, usage := Step(s.usage), next := Some(Synthesize))
      else FallBack(s, a, ReportRejected)
    else Terminal(s.(usage := Step(s.usage)), ReportOutcome(s.rca.value.status), AnalysisComplete)
  }

  ghost function Visit(s: State, n: Node, a: Answers, cfg: Config): (r: State) {
    match n
    case Initialize => InitializeNode(s, a, cfg)
    case Plan => PlanNode(s, a, cfg)
    case Collect => CollectNode(s, a, cfg)
    case Analyze => AnalyzeNode(s, a, cfg)
    case Verify => VerifyNode(s, a, cfg)
    case Synthesize => SynthesizeNode(s, a, cfg)
    case Validate => ValidateNode(s, a, cfg)
  }

  /** A run from the start: every visit but the last leads to another node. */
  ghost predicate IsRun(states: seq<State>, answers: seq<Answers>, cfg: Config) {
    && |states| == |answers| + 1 && states[0] == Start
    && forall i | 0 <= i < |answers| ::
         Route(states[i]).Some? && states[i + 1] == Visit(states[i], Route(states[i]).value, answers[i], cfg)
  }

  // ---------------------------------------------------------------- invariant

  function PhaseOf(n: Node): (r: Status) {
    match n
    case Initialize => Pending
    case Plan => Planning
    case Collect => CollectingEvidence
    case Analyze => Analyzing
    case _ => Verifying
  }

  /** The calls still allowed cover those queued. */
  predicate BudgetKept(s: State, cfg: Config) {
    var queued := if s.next == Some(Collect) || s.next == Some(Analyze) then |s.queue| else 0;
    s.usage.toolCalls + queued <= cfg.limits.maxToolCalls
  }

  ghost predicate HypothesesGrounded(s: State) {
    R.Grounded(s.hypotheses, Known(s))
  }

  /** A report awaiting validation can only lack an account of its uncertainty. */
  ghost predicate PendingReportSound(s: State) {
    s.rca.Some? ==> R.Issues(s.rca.value, Known(s)) == [] || R.Issues(s.rca.value, Known(s)) == [R.BlankUncertainty]
  }

  /** What holds of a finished run: a report that counts has passed the gate. */
  ghost predicate Gated(s: State) {
    && (s.status == Completed ==> s.rca.Some?)
    && (s.status in {Completed, InsufficientEvidence} && s.rca.Some? ==>
          R.Passes(s.rca.value, Known(s)) && ReportOutcome(s.rca.value.status) == s.status)
  }

  ghost predicate Inv(s: State, cfg: Config) {
    && BudgetKept(s, cfg) && HypothesesGrounded(s) && PendingReportSound(s) && Gated(s)
    && s.reason != FallbackInvalid
    && s.reanalysisCount <= 1 && s.repairCount <= cfg.Repairs()
    && (s.status.IsTerminal() <==> s.next == None)
    && (s.next.Some? ==> s.status == PhaseOf(s.next.value))
    && (s.next == Some(Initialize) ==> s == Start)
    && (s.next == Some(Plan) ==> s.usage.toolCalls == 1)
    && (s.next == Some(Collect) ==> s.queue != [])
    && (s.next.Some? && s.next.value in {Plan, Collect, Analyze, Verify} ==> s.rca == None && s.repairCount == 0)
    && (s.next.Some? && s.next.value in {Plan, Collect} ==> s.reanalysisCount == 0)
  }

  /** A count limit is exceeded; counts only grow, so every guard from here on degrades. */
  predicate OverLimit(u: Usage, l: Limits) {
    u.toolCalls > l.maxToolCalls || u.steps > l.maxSteps || u.evidenceItems > l.maxEvidence
  }

  /**
   An upper bound on the visits still to come. A re-analysis, which costs two visits, needs an unspent
   tool call.
   */
  function Remaining(s: State, cfg: Config): (r: nat) {
    var repairs := 2 * if cfg.Repairs() > s.repairCount then cfg.Repairs() - s.repairCount else 0;
    var over := OverLimit(s.usage, cfg.limits);
    var unspent := RemainingCalls(s.usage, cfg);
    var again := if s.reanalysisCount == 0 && unspent > 0 && !over then 2 else 0;
    match Route(s)
    case None => 0
    case Some(Initialize) => (if cfg.limits.maxToolCalls > 0 then cfg.limits.maxToolCalls else 0) + 6 + repairs
    case Some(Plan) => (if cfg.limits.maxToolCalls > 0 then cfg.limits.maxToolCalls else 0) + 5 + repairs
    case Some(Collect) => 4 + repairs + if over then 0 else if |s.queue| < unspent then |s.queue| + 2 else unspent + 1
    case Some(Analyze) => repairs + if over then 3 else 4 + again
    case Some(Verify) => 3 + again + repairs
    case Some(Synthesize) => 2 + repairs
    case Some(Validate) => 1 + repairs
  }

  /** The two jumps that the lifecycle table does not list. */
  predicate Exceptional(current: Status, target: Status) {
    (current == Pending && target == TimedOut) || (current == Planning && target == Verifying)
  }

  predicate LegalChange(current: Status, target: Status) {
    current == target || CanTransition(current, target) || Exceptional(current, target)
  }

  /** What one visit keeps and how it moves. */
  ghost predicate GoodVisit(s: State, s': State, cfg: Config) {
    && Inv(s', cfg) && Remaining(s', cfg) < Remaining(s, cfg) && LegalChange(s.status, s'.status)
    && s.evidence <= s'.evidence && s.usage.toolCalls <= s'.usage.toolCalls
  }
}
