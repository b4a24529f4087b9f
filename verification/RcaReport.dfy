/**
 Root-cause reports: the deterministic validation gate, the assembly of a report from what the model
 proposed, and the fallback. Only what validation can see of a report is kept.
 */
module RcaReport {
  import opened Prelude
  import opened Ordering

  datatype Confidence = Unknown | Low | Medium | High
  {
    function Rank(): (r: nat) {
      match this
      case Unknown => 0
      case Low => 1
      case Medium => 2
      case High => 3
    }
  }

  datatype ReportStatus = Completed | Insufficient

  datatype FindingType = Observation | Correlation | HypothesisFinding | RootCauseFinding | ContributingFactor

  datatype Finding = Finding(seqNo: nat, kind: FindingType, evidenceIds: seq<string>, confidence: Confidence)

  datatype Verdict = Supported | Refuted | Unverified | Conflicting

  datatype Hypothesis = Hypothesis(supporting: seq<string>, contradicting: seq<string>, verdict: Verdict)

  datatype RootCause = RootCause(confidence: Confidence, evidenceIds: seq<string>)

  datatype Report = Report(
    status: ReportStatus,
    findings: seq<Finding>,
    contributing: seq<Finding>,
    hypotheses: seq<Hypothesis>,
    timeline: seq<seq<string>>,
    actionEvidence: seq<string>,
    requiresApproval: bool,
    rootCause: Option<RootCause>,
    overall: Confidence,
    uncertainty: string)

  // ---------------------------------------------------------------- text

  predicate IsSpace(c: char) {
    var n := c as int;
    9 <= n <= 13 || 28 <= n <= 32 || n == 0x85 || n == 0xa0 || n == 0x1680 || 0x2000 <= n <= 0x200a
    || n == 0x2028 || n == 0x2029 || n == 0x202f || n == 0x205f || n == 0x3000
  }

  /** Stripping the text leaves nothing. */
  predicate Blank(s: string) {
    forall c | c in s :: IsSpace(c)
  }

  // ---------------------------------------------------------------- what a valid report is

  ghost predicate CitedByFindings(fs: seq<Finding>, id: string) {
    exists f :: f in fs && id in f.evidenceIds
  }

  ghost predicate CitedByHypotheses(hs: seq<Hypothesis>, id: string) {
    exists h :: h in hs && (id in h.supporting || id in h.contradicting)
  }

  ghost predicate CitedByTimeline(entries: seq<seq<string>>, id: string) {
    exists e :: e in entries && id in e
  }

  /** Some section of the report points at evidence `id`. */
  ghost predicate Cites(r: Report, id: string) {
    || CitedByFindings(r.findings, id) || CitedByFindings(r.contributing, id)
    || CitedByHypotheses(r.hypotheses, id) || CitedByTimeline(r.timeline, id)
    || id in r.actionEvidence || (r.rootCause.Some? && id in r.rootCause.value.evidenceIds)
  }

  predicate Backed(f: Finding) {
    f.confidence.Rank() >= Low.Rank() ==> f.evidenceIds != []
  }

  predicate RootCauseSound(r: Report) {
    r.rootCause.Some? ==>
      && r.rootCause.value.evidenceIds != [] && r.status == Completed
      && r.overall.Rank() <= r.rootCause.value.confidence.Rank()
  }

  predicate Consistent(r: Report) {
    && RootCauseSound(r)
    && (forall f | f in r.findings + r.contributing :: Backed(f))
    && (forall f | f in r.contributing :: f.kind == ContributingFactor)
    && !Blank(r.uncertainty) && r.requiresApproval
  }

  ghost predicate Passes(r: Report, known: set<string>) {
    (forall id | Cites(r, id) :: id in known) && Consistent(r)
  }

  // ---------------------------------------------------------------- the validator

  datatype Issue =
    | Dangling(id: string)
    | RootCauseOnInsufficient | RootCauseWithoutEvidence | RootCauseNotCompleted | Overconfident
    | UnbackedFinding(seqNo: nat, confidence: Confidence)
    | WrongFactorType(seqNo: nat, kind: FindingType)
    | BlankUncertainty
    | ApprovalNotRequired

  method CollectFindingIds(fs: seq<Finding>) returns (ids: set<string>)
    ensures forall id :: id in ids <==> CitedByFindings(fs, id)
  {
    ids := {};
    for i := 0 to |fs|
      invariant forall id :: id in ids <==> CitedByFindings(fs[..i], id)
    {
      assert fs[..i + 1] == fs[..i] + [fs[i]];
      ids := ids + SetOf(fs[i].evidenceIds);
    }
    assert fs[..|fs|] == fs;
  }

  method CollectHypothesisIds(hs: seq<Hypothesis>) returns (ids: set<string>)
    ensures forall id :: id in ids <==> CitedByHypotheses(hs, id)
  {
    ids := {};
    for i := 0 to |hs|
      invariant forall id :: id in ids <==> CitedByHypotheses(hs[..i], id)
    {
      assert hs[..i + 1] == hs[..i] + [hs[i]];
      ids := ids + SetOf(hs[i].supporting);
      ids := ids + SetOf(hs[i].contradicting);
    }
    assert hs[..|hs|] == hs;
  }

  method CollectTimelineIds(entries: seq<seq<string>>) returns (ids: set<string>)
    ensures forall id :: id in ids <==> CitedByTimeline(entries, id)
  {
    ids := {};
    for i := 0 to |entries|
      invariant forall id :: id in ids <==> CitedByTimeline(entries[..i], id)
    {
      assert entries[..i + 1] == entries[..i] + [entries[i]];
      ids := ids + SetOf(entries[i]);
    }
    assert entries[..|entries|] == entries;
  }

  /** Joins the ids cited by the sections one after the other. */
  method ReferencedEvidenceIds(r: Report) returns (ids: set<string>)
    ensures forall id :: id in ids <==> Cites(r, id)
  {
    var a := CollectFindingIds(r.findings);
    var b := CollectFindingIds(r.contributing);
    var c := CollectHypothesisIds(r.hypotheses);
    var d := CollectTimelineIds(r.timeline);
    ids := a + b + c + d + SetOf(r.actionEvidence);
    if r.rootCause.Some? { ids := ids + SetOf(r.rootCause.value.evidenceIds); }
  }

  function UnbackedIssues(fs: seq<Finding>): (r: seq<Issue>) {
    if fs == [] then [] else
    var f := fs[|fs| - 1];
    UnbackedIssues(fs[..|fs| - 1]) + if Backed(f) then [] else [UnbackedFinding(f.seqNo, f.confidence)]
  }

  function TypeIssues(fs: seq<Finding>): (r: seq<Issue>) {
    if fs == [] then [] else
    var f := fs[|fs| - 1];
    TypeIssues(fs[..|fs| - 1]) + if f.kind == ContributingFactor then [] else [WrongFactorType(f.seqNo, f.kind)]
  }

  function RootCauseIssues(r: Report): (res: seq<Issue>) {
    if r.rootCause == None then [] else
    (if r.status == Insufficient then [RootCauseOnInsufficient] else [])
    + (if r.rootCause.value.evidenceIds == [] then [RootCauseWithoutEvidence] else [])
    + (if r.status != Completed then [RootCauseNotCompleted] else [])
    + (if r.overall.Rank() > r.rootCause.value.confidence.Rank() then [Overconfident] else [])
  }

  function ConsistencyIssues(r: Report): (res: seq<Issue>) {
    RootCauseIssues(r) + UnbackedIssues(r.findings + r.contributing) + TypeIssues(r.contributing)
    + (if Blank(r.uncertainty) then [BlankUncertainty] else [])
    + (if r.requiresApproval then [] else [ApprovalNotRequired])
  }

  lemma {:induction false} NoUnbackedIssue(fs: seq<Finding>)
    ensures UnbackedIssues(fs) == [] <==> forall f | f in fs :: Backed(f)
  {
    if fs != [] {
      NoUnbackedIssue(fs[..|fs| - 1]);
      assert fs == fs[..|fs| - 1] + [fs[|fs| - 1]];
    }
  }

  lemma {:induction false} NoTypeIssue(fs: seq<Finding>)
    ensures TypeIssues(fs) == [] <==> forall f | f in fs :: f.kind == ContributingFactor
  {
    if fs != [] {
      NoTypeIssue(fs[..|fs| - 1]);
      assert fs == fs[..|fs| - 1] + [fs[|fs| - 1]];
    }
  }

  lemma NoConsistencyIssue(r: Report)
    ensures ConsistencyIssues(r) == [] <==> Consistent(r)
  {
    NoUnbackedIssue(r.findings + r.contributing);
    NoTypeIssue(r.contributing);
  }

  method ValidateRootCause(r: Report) returns (issues: seq<Issue>)
    ensures issues == RootCauseIssues(r)
  {
    issues := [];
    if r.status == Insufficient && r.rootCause.Some? { issues := issues + [RootCauseOnInsufficient]; }
    if r.rootCause.Some? {
      if r.rootCause.value.evidenceIds == [] { issues := issues + [RootCauseWithoutEvidence]; }
      if r.status != Completed { issues := issues + [RootCauseNotCompleted]; }
      if r.overall.Rank() > r.rootCause.value.confidence.Rank() { issues := issues + [Overconfident]; }
    }
  }

  method ValidateFindings(fs: seq<Finding>) returns (issues: seq<Issue>)
    ensures issues == UnbackedIssues(fs)
  {
    issues := [];
    for i := 0 to |fs|
      invariant issues == UnbackedIssues(fs[..i])
    {
      assert fs[..i + 1][..i] == fs[..i];
      if fs[i].confidence.Rank() >= Low.Rank() && fs[i].evidenceIds == [] {
        issues := issues + [UnbackedFinding(fs[i].seqNo, fs[i].confidence)];
      }
    }
    assert fs[..|fs|] == fs;
  }

  method ValidateFactorTypes(fs: seq<Finding>) returns (issues: seq<Issue>)
    ensures issues == TypeIssues(fs)
  {
    issues := [];
    for i := 0 to |fs|
      invariant issues == TypeIssues(fs[..i])
    {
      assert fs[..i + 1][..i] == fs[..i];
      if fs[i].kind != ContributingFactor { issues := issues + [WrongFactorType(fs[i].seqNo, fs[i].kind)]; }
    }
    assert fs[..|fs|] == fs;
  }

  /** Collects every failure, in order; there is none exactly when the report is consistent. */
  method ValidateConsistency(r: Report) returns (issues: seq<Issue>)
    ensures issues == ConsistencyIssues(r)
    ensures issues == [] <==> Consistent(r)
  {
    hide RootCauseIssues, UnbackedIssues, TypeIssues, Consistent, Blank;
    NoConsistencyIssue(r);
    issues := ValidateRootCause(r);
    var unbacked := ValidateFindings(r.findings + r.contributing);
    var types := ValidateFactorTypes(r.contributing);
    issues := issues + unbacked + types;
    if Blank(r.uncertainty) { issues := issues + [BlankUncertainty]; }
    if !r.requiresApproval { issues := issues + [ApprovalNotRequired]; }
  }

  ghost function CitedIds(r: Report): (res: set<string>) {
    FindingIds(r.findings) + FindingIds(r.contributing) + HypothesisIds(r.hypotheses) + TimelineIds(r.timeline)
    + SetOf(r.actionEvidence) + if r.rootCause.Some? then SetOf(r.rootCause.value.evidenceIds) else {}
  }

  ghost function FindingIds(fs: seq<Finding>): (r: set<string>) { set f, id | f in fs && id in f.evidenceIds :: id }

  ghost function HypothesisIds(hs: seq<Hypothesis>): (r: set<string>) {
    (set h, id | h in hs && id in h.supporting :: id) + (set h, id | h in hs && id in h.contradicting :: id)
  }

  ghost function TimelineIds(entries: seq<seq<string>>): (r: set<string>) { set e, id | e in entries && id in e :: id }

  lemma CitedIdsMeaning(r: Report, id: string)
    ensures id in CitedIds(r) <==> Cites(r, id)
  {
  }

  function DanglingIssues(ids: seq<string>): (r: seq<Issue>) {
    seq(|ids|, i requires 0 <= i < |ids| => Dangling(ids[i]))
  }

  /** Everything the validator reports: dangling references in order, then inconsistencies. */
  ghost function Issues(r: Report, known: set<string>): (res: seq<Issue>) {
    DanglingIssues(SortedTexts(CitedIds(r) - known)) + ConsistencyIssues(r)
  }

  lemma NoDangling(r: Report, known: set<string>)
    ensures DanglingIssues(SortedTexts(CitedIds(r) - known)) == [] <==> forall id | Cites(r, id) :: id in known
  {
    hide Cites, CitedIds, Sorted;
    forall id ensures id in CitedIds(r) <==> Cites(r, id) { CitedIdsMeaning(r, id); }
    var dangling := CitedIds(r) - known;
    if dangling != {} {
      var id :| id in dangling;
      assert id in SortedTexts(dangling) && Cites(r, id);
    } else {
      forall id | Cites(r, id) ensures id in known {
        assert id in dangling <==> id in CitedIds(r) && id !in known;
      }
    }
  }

  lemma NoIssue(r: Report, known: set<string>)
    ensures Issues(r, known) == [] <==> Passes(r, known)
    ensures (forall id | Cites(r, id) :: id in known) ==> Issues(r, known) == ConsistencyIssues(r)
  {
    hide Cites, CitedIds, ConsistencyIssues, Consistent, SortedTexts, DanglingIssues;
    NoConsistencyIssue(r);
    NoDangling(r, known);
  }

  /** The gate: no issue exactly when the report passes. */
  method ValidateReport(r: Report, known: set<string>) returns (issues: seq<Issue>)
    ensures issues == Issues(r, known)
    ensures issues == [] <==> Passes(r, known)
  {
    hide Cites, CitedIds, ConsistencyIssues, Passes, SortedTexts, DanglingIssues;
    NoIssue(r, known);
    var ids := ReferencedEvidenceIds(r);
    forall id ensures id in CitedIds(r) <==> Cites(r, id) { CitedIdsMeaning(r, id); }
    assert ids == CitedIds(r);
    var dangling := SortedTexts(ids - known);
    issues := DanglingIssues(dangling);
    var rest := ValidateConsistency(r);
    issues := issues + rest;
  }

  /**
   The gate in plain terms: only collected evidence is cited; a root cause cites some, stands on a completed
   report and is at least as confident as the report; a finding without evidence claims no confidence; factors
   are factors; the uncertainty is stated and a human must approve.
   */
  lemma PassesMeaning(r: Report, known: set<string>)
    ensures Passes(r, known) <==>
      && (forall id | Cites(r, id) :: id in known)
      && (r.rootCause.Some? ==>
            r.rootCause.value.evidenceIds != [] && r.status == Completed
            && NotAbove(r.overall, r.rootCause.value.confidence))
      && (forall f | f in r.findings :: f.evidenceIds == [] ==> f.confidence == Unknown)
      && (forall f | f in r.contributing ::
            f.kind == ContributingFactor && (f.evidenceIds == [] ==> f.confidence == Unknown))
      && (exists c :: c in r.uncertainty && !IsSpace(c)) && r.requiresApproval
  {
    hide Cites, IsSpace;
    forall f | f in r.findings + r.contributing ensures Backed(f) <==>
      (f.evidenceIds == [] ==> f.confidence == Unknown) {
    }
    assert forall f :: f in r.findings + r.contributing <==> f in r.findings || f in r.contributing;
  }

  // ---------------------------------------------------------------- assembly

  datatype ProposedFinding = ProposedFinding(kind: FindingType, evidenceIds: seq<string>, confidence: Confidence)

  datatype Synthesis = Synthesis(
    completed: bool,
    rootCause: Option<RootCause>,
    contributing: seq<ProposedFinding>,
    actionEvidence: seq<string>,
    overall: Confidence,
    uncertainty: string,
    timeline: seq<seq<string>>)

  /** Exactly the collected ids are kept, as often as they were cited. */
  ghost predicate Kept(ids: seq<string>, known: set<string>, kept: seq<string>) {
    forall id :: multiset(kept)[id] == if id in known then multiset(ids)[id] else 0
  }

  /** The cited ids that were collected, in their order. */
  function KeepIds(ids: seq<string>, known: set<string>): (kept: seq<string>)
    ensures forall id :: id in kept <==> id in ids && id in known
    ensures Kept(ids, known, kept)
  {
    if ids == [] then [] else
    var kept := KeepIds(ids[..|ids| - 1], known);
    var last := ids[|ids| - 1];
    assert ids == ids[..|ids| - 1] + [last];
    if last in known then kept + [last] else kept
  }

  function MakeFinding(seqNo: nat, p: ProposedFinding, known: set<string>, kind: FindingType): (r: Finding) {
    var kept := KeepIds(p.evidenceIds, known);
    Finding(seqNo, kind, kept, if kept != [] then p.confidence else Unknown)
  }

  function KeepTimeline(entries: seq<seq<string>>, known: set<string>): (r: seq<seq<string>>) {
    seq(|entries|, i requires 0 <= i < |entries| => KeepIds(entries[i], known))
  }

  /** Only a concluded investigation states a root cause, and only with collected evidence. */
  function KeptRootCause(s: Synthesis, known: set<string>): (r: Option<RootCause>) {
    if s.rootCause.Some? && s.completed && KeepIds(s.rootCause.value.evidenceIds, known) != []
    then Some(RootCause(s.rootCause.value.confidence, KeepIds(s.rootCause.value.evidenceIds, known)))
    else None
  }

  function ClampedConfidence(overall: Confidence, rootCause: Option<RootCause>): (r: Confidence) {
    match rootCause
    case Some(rc) => if overall.Rank() > rc.confidence.Rank() then rc.confidence else overall
    case None => if overall.Rank() > Low.Rank() then Low else overall
  }

  /** The findings of the analysis followed by the factors of the synthesis, which are always factors. */
  function AllProposed(proposed: seq<ProposedFinding>, factors: seq<ProposedFinding>): (r: seq<ProposedFinding>) {
    proposed + seq(|factors|, i requires 0 <= i < |factors| => factors[i].(kind := ContributingFactor))
  }

  /** The findings numbered in order of appearance, only the contributing factors or only the others. */
  function Numbered(all: seq<ProposedFinding>, known: set<string>, factors: bool): (r: seq<Finding>) {
    if all == [] then [] else
    var init, last := Numbered(all[..|all| - 1], known, factors), all[|all| - 1];
    if (last.kind == ContributingFactor) == factors then init + [MakeFinding(|all|, last, known, last.kind)] else init
  }

  lemma NumberedAppend(all: seq<ProposedFinding>, p: ProposedFinding, known: set<string>, factors: bool)
    ensures Numbered(all + [p], known, factors)
         == Numbered(all, known, factors)
            + if (p.kind == ContributingFactor) == factors then [MakeFinding(|all| + 1, p, known, p.kind)] else []
  {
    assert (all + [p])[..|all|] == all;
  }

  method SplitProposed(proposed: seq<ProposedFinding>, known: set<string>)
    returns (findings: seq<Finding>, contributing: seq<Finding>)
    ensures |findings| + |contributing| == |proposed|
    ensures findings == Numbered(proposed, known, false) && contributing == Numbered(proposed, known, true)
  {
    hide MakeFinding, Numbered;
    findings, contributing := [], [];
    NothingNumbered(known);
    for i := 0 to |proposed|
      invariant |findings| + |contributing| == i
      invariant findings == Numbered(proposed[..i], known, false) &&
        contributing == Numbered(proposed[..i], known, true)
    {
      assert proposed[..i + 1] == proposed[..i] + [proposed[i]];
      NumberedAppend(proposed[..i], proposed[i], known, false);
      NumberedAppend(proposed[..i], proposed[i], known, true);
      var seqNo := |findings| + |contributing| + 1;
      if proposed[i].kind == ContributingFactor {
        contributing := contributing + [MakeFinding(seqNo, proposed[i], known, ContributingFactor)];
      } else {
        findings := findings + [MakeFinding(seqNo, proposed[i], known, proposed[i].kind)];
      }
    }
    assert proposed[..|proposed|] == proposed;
  }

  lemma NothingNumbered(known: set<string>)
    ensures Numbered([], known, false) == [] && Numbered([], known, true) == []
  {
  }

  method SplitFindings(proposed: seq<ProposedFinding>, factors: seq<ProposedFinding>, known: set<string>)
    returns (findings: seq<Finding>, contributing: seq<Finding>)
    ensures findings == Numbered(AllProposed(proposed, factors), known, false)
    ensures contributing == Numbered(AllProposed(proposed, factors), known, true)
  {
    hide MakeFinding, Numbered;
    ghost var all := AllProposed(proposed, factors);
    findings, contributing := SplitProposed(proposed, known);
    assert all[..|proposed|] == proposed;
    for i := 0 to |factors|
      invariant |findings| + |contributing| == |proposed| + i
      invariant findings == Numbered(all[..|proposed| + i], known, false)
      invariant contributing == Numbered(all[..|proposed| + i], known, true)
    {
      var factor := factors[i].(kind := ContributingFactor);
      assert all[..|proposed| + i + 1] == all[..|proposed| + i] + [factor];
      NumberedAppend(all[..|proposed| + i], factor, known, false);
      NumberedAppend(all[..|proposed| + i], factor, known, true);
      FactorAsFinding(|findings| + |contributing| + 1, factors[i], known);
      contributing := contributing + [MakeFinding(|findings| + |contributing| + 1, factors[i], known,
        ContributingFactor)];
    }
    assert all[..|proposed| + |factors|] == all;
  }

  lemma FactorAsFinding(seqNo: nat, p: ProposedFinding, known: set<string>)
    ensures MakeFinding(seqNo, p, known, ContributingFactor)
         == MakeFinding(seqNo, p.(kind := ContributingFactor), known, ContributingFactor)
  {
  }

  const NoUncertainty := "Uncertainty was not characterized."

  function BuiltReport(proposed: seq<ProposedFinding>, hypotheses: seq<Hypothesis>, s: Synthesis,
                       known: set<string>): (r: Report) {
    var all := AllProposed(proposed, s.contributing);
    var rootCause := KeptRootCause(s, known);
    Report(
      if s.completed then Completed else Insufficient,
      Numbered(all, known, false), Numbered(all, known, true), hypotheses, KeepTimeline(s.timeline, known),
      KeepIds(s.actionEvidence, known), true, rootCause, ClampedConfidence(s.overall, rootCause),
      if s.uncertainty == "" then NoUncertainty else s.uncertainty)
  }

  // ---------------------------------------------------------------- what an assembled report shows

  /** `a` is no more confident than `b`. */
  predicate NotAbove(a: Confidence, b: Confidence) {
    match a
    case Unknown => true
    case Low => b != Unknown
    case Medium => b == Medium || b == High
    case High => b == High
  }

  /** `c` is the lower of the two. */
  predicate IsLower(c: Confidence, a: Confidence, b: Confidence) {
    (c == a || c == b) && NotAbove(c, a) && NotAbove(c, b)
  }

  predicate CitesSome(ids: seq<string>, known: set<string>) {
    exists id :: id in ids && id in known
  }

  /** Finding number `seqNo` is there, with its kind, its collected ids, and its confidence if it has any. */
  ghost predicate ShowsFinding(fs: seq<Finding>, seqNo: nat, p: ProposedFinding, known: set<string>,
                               kind: FindingType) {
    exists f :: f in fs && f.seqNo == seqNo && f.kind == kind && Kept(p.evidenceIds, known, f.evidenceIds)
                && f.confidence == if CitesSome(p.evidenceIds, known) then p.confidence else Unknown
  }

  /** The proposed root cause is reported exactly when the investigation concluded and it cites collected evidence. */
  ghost predicate ShowsRootCause(r: Report, s: Synthesis, known: set<string>) {
    && (r.rootCause.Some? <==>
          s.completed && s.rootCause.Some? && CitesSome(s.rootCause.value.evidenceIds, known))
    && (r.rootCause.Some? ==>
          && r.rootCause.value.confidence == s.rootCause.value.confidence
          && Kept(s.rootCause.value.evidenceIds, known, r.rootCause.value.evidenceIds))
    && IsLower(r.overall, s.overall, if r.rootCause.Some? then r.rootCause.value.confidence else Low)
  }

  /** Nothing proposed is lost except ids that were not collected, and nothing is added. */
  ghost predicate ShowsProposed(r: Report, proposed: seq<ProposedFinding>, s: Synthesis, known: set<string>) {
    && |r.findings| + |r.contributing| == |proposed| + |s.contributing|
    && (forall i | 0 <= i < |proposed| ::
          ShowsFinding(if proposed[i].kind == ContributingFactor then r.contributing else r.findings,
                       i + 1, proposed[i], known, proposed[i].kind))
    && (forall i | 0 <= i < |s.contributing| ::
          ShowsFinding(r.contributing, |proposed| + i + 1, s.contributing[i], known, ContributingFactor))
    && |r.timeline| == |s.timeline| && (forall i | 0 <= i < |s.timeline| :: Kept(s.timeline[i], known, r.timeline[i]))
    && Kept(s.actionEvidence, known, r.actionEvidence)
  }

  lemma KeptSome(ids: seq<string>, known: set<string>)
    ensures KeepIds(ids, known) != [] <==> CitesSome(ids, known)
  {
    var kept := KeepIds(ids, known);
    if kept != [] { assert kept[0] in kept; }
  }

  lemma MadeFindingShows(fs: seq<Finding>, seqNo: nat, p: ProposedFinding, known: set<string>, kind: FindingType)
    requires MakeFinding(seqNo, p, known, kind) in fs
    ensures ShowsFinding(fs, seqNo, p, known, kind)
  {
    hide KeepIds, Kept, CitesSome;
    KeptSome(p.evidenceIds, known);
  }

  /** Every proposed finding is on its side of the split, under its number. */
  lemma {:induction false} NumberedComplete(all: seq<ProposedFinding>, known: set<string>, i: nat)
    requires i < |all|
    ensures MakeFinding(i + 1, all[i], known, all[i].kind) in Numbered(all, known, all[i].kind == ContributingFactor)
  {
    hide MakeFinding;
    if i < |all| - 1 { NumberedComplete(all[..|all| - 1], known, i); }
  }

  lemma {:induction false} NumberedCount(all: seq<ProposedFinding>, known: set<string>)
    ensures |Numbered(all, known, false)| + |Numbered(all, known, true)| == |all|
  {
    hide MakeFinding;
    if all != [] { NumberedCount(all[..|all| - 1], known); }
  }

  lemma BuiltShowsRootCause(proposed: seq<ProposedFinding>, hypotheses: seq<Hypothesis>, s: Synthesis,
                            known: set<string>)
    ensures ShowsRootCause(BuiltReport(proposed, hypotheses, s, known), s, known)
  {
    hide KeepIds, Kept, CitesSome, Numbered, KeepTimeline;
    if s.rootCause.Some? { KeptSome(s.rootCause.value.evidenceIds, known); }
  }

  lemma BuiltShowsProposed(proposed: seq<ProposedFinding>, hypotheses: seq<Hypothesis>, s: Synthesis,
                           known: set<string>)
    ensures ShowsProposed(BuiltReport(proposed, hypotheses, s, known), proposed, s, known)
  {
    hide KeepIds, Kept, Numbered, MakeFinding, ShowsFinding, KeptRootCause, ClampedConfidence;
    var r := BuiltReport(proposed, hypotheses, s, known);
    var all := AllProposed(proposed, s.contributing);
    NumberedCount(all, known);
    forall i | 0 <= i < |proposed|
      ensures ShowsFinding(if proposed[i].kind == ContributingFactor then r.contributing else r.findings,
                           i + 1, proposed[i], known, proposed[i].kind)
    {
      assert all[i] == proposed[i];
      NumberedComplete(all, known, i);
      MadeFindingShows(if proposed[i].kind == ContributingFactor then r.contributing else r.findings,
                       i + 1, proposed[i], known, proposed[i].kind);
    }
    forall i | 0 <= i < |s.contributing|
      ensures ShowsFinding(r.contributing, |proposed| + i + 1, s.contributing[i], known, ContributingFactor)
    {
      var k := |proposed| + i;
      assert all[k] == s.contributing[i].(kind := ContributingFactor);
      NumberedComplete(all, known, k);
      FactorAsFinding(k + 1, s.contributing[i], known);
      MadeFindingShows(r.contributing, k + 1, s.contributing[i], known, ContributingFactor);
    }
  }

  /** Assembles the report from what the model proposed. */
  method BuildReport(proposed: seq<ProposedFinding>, hypotheses: seq<Hypothesis>, s: Synthesis, known: set<string>)
    returns (r: Report)
    ensures r == BuiltReport(proposed, hypotheses, s, known)
    ensures r.status == (if s.completed then Completed else Insufficient) && r.hypotheses == hypotheses
    ensures r.uncertainty == (if s.uncertainty == "" then NoUncertainty else s.uncertainty) && r.requiresApproval
    ensures ShowsRootCause(r, s, known) && ShowsProposed(r, proposed, s, known)
    ensures Passes(r, known) <==> Grounded(hypotheses, known) && StatesUncertainty(s)
  {
    hide ShowsRootCause, ShowsProposed, Passes, Grounded, StatesUncertainty, Numbered, Kept;
    BuiltShowsRootCause(proposed, hypotheses, s, known);
    BuiltShowsProposed(proposed, hypotheses, s, known);
    var findings, contributing := SplitFindings(proposed, s.contributing, known);
    var rootCause := None;
    if s.rootCause.Some? && s.completed {
      var ids := KeepIds(s.rootCause.value.evidenceIds, known);
      if ids != [] { rootCause := Some(RootCause(s.rootCause.value.confidence, ids)); }
    }
    var overall := s.overall;
    if rootCause.Some? && overall.Rank() > rootCause.value.confidence.Rank() { overall := rootCause.value.confidence; }
    if rootCause == None && overall.Rank() > Low.Rank() { overall := Low; }
    r := Report(
      if s.completed then Completed else Insufficient, findings, contributing, hypotheses,
      KeepTimeline(s.timeline, known), KeepIds(s.actionEvidence, known), true, rootCause, overall,
      if s.uncertainty == "" then NoUncertainty else s.uncertainty);
    BuiltReportPasses(proposed, hypotheses, s, known);
  }

  predicate CitesOnly(h: Hypothesis, known: set<string>) {
    (forall id | id in h.supporting :: id in known) && forall id | id in h.contradicting :: id in known
  }

  /** Every hypothesis cites collected evidence only. */
  predicate Grounded(hypotheses: seq<Hypothesis>, known: set<string>) {
    forall h | h in hypotheses :: CitesOnly(h, known)
  }

  /** The account of the uncertainty is left out, and then supplied, or it is not blank. */
  predicate StatesUncertainty(s: Synthesis) {
    s.uncertainty == "" || !Blank(s.uncertainty)
  }

  lemma GroundedMeaning(hypotheses: seq<Hypothesis>, known: set<string>)
    ensures Grounded(hypotheses, known) <==> HypothesisIds(hypotheses) <= known
  {
    if !Grounded(hypotheses, known) {
      var h :| h in hypotheses && !CitesOnly(h, known);
      var id :| (id in h.supporting || id in h.contradicting) && id !in known;
      assert id in HypothesisIds(hypotheses);
    }
  }

  lemma {:induction false} NumberedSound(all: seq<ProposedFinding>, known: set<string>, factors: bool)
    ensures forall f | f in Numbered(all, known, factors) ::
      Backed(f) && ((f.kind == ContributingFactor) == factors) && forall id | id in f.evidenceIds :: id in known
  {
    if all != [] {
      NumberedSound(all[..|all| - 1], known, factors);
      hide KeepIds;
    }
  }

  /** No section but the hypotheses cites anything that was not collected. */
  ghost predicate OthersGrounded(r: Report, known: set<string>) {
    && FindingIds(r.findings) <= known && FindingIds(r.contributing) <= known && TimelineIds(r.timeline) <= known
    && SetOf(r.actionEvidence) <= known && (r.rootCause.Some? ==> SetOf(r.rootCause.value.evidenceIds) <= known)
  }

  /** Then exactly the ungrounded ids of the hypotheses dangle. */
  lemma OnlyHypothesesDangle(r: Report, known: set<string>)
    requires OthersGrounded(r, known)
    ensures CitedIds(r) - known == HypothesisIds(r.hypotheses) - known
    ensures Passes(r, known) <==> Grounded(r.hypotheses, known) && Consistent(r)
  {
    hide FindingIds, TimelineIds, HypothesisIds, Consistent, Cites;
    assert CitedIds(r) - known == HypothesisIds(r.hypotheses) - known;
    GroundedMeaning(r.hypotheses, known);
    forall id ensures id in CitedIds(r) <==> Cites(r, id) { CitedIdsMeaning(r, id); }
    assert HypothesisIds(r.hypotheses) <= known <==> HypothesisIds(r.hypotheses) - known == {};
    assert (forall id | id in CitedIds(r) :: id in known) <==> CitedIds(r) - known == {};
  }

  lemma BuiltOthersGrounded(proposed: seq<ProposedFinding>, hypotheses: seq<Hypothesis>, s: Synthesis,
                            known: set<string>)
    ensures OthersGrounded(BuiltReport(proposed, hypotheses, s, known), known)
  {
    hide Numbered, AllProposed, KeepIds, ClampedConfidence;
    var all := AllProposed(proposed, s.contributing);
    NumberedSound(all, known, false);
    NumberedSound(all, known, true);
  }

  lemma NoUncertaintyIsText()
    ensures !Blank(NoUncertainty)
  {
    assert NoUncertainty[0] == 'U' && !IsSpace('U');
  }

  lemma BuiltConsistency(proposed: seq<ProposedFinding>, hypotheses: seq<Hypothesis>, s: Synthesis, known: set<string>)
    ensures ConsistencyIssues(BuiltReport(proposed, hypotheses, s, known))
         == if StatesUncertainty(s) then [] else [BlankUncertainty]
  {
    hide Numbered, AllProposed, KeepIds, Blank, UnbackedIssues, TypeIssues;
    var r := BuiltReport(proposed, hypotheses, s, known);
    var all := AllProposed(proposed, s.contributing);
    NumberedSound(all, known, false);
    NumberedSound(all, known, true);
    NoUncertaintyIsText();
    NoUnbackedIssue(r.findings + r.contributing);
    NoTypeIssue(r.contributing);
    assert RootCauseIssues(r) == [];
  }

  /**
   Whatever the model proposed, the assembled report passes exactly when its hypotheses cite collected
   evidence only and its account of the uncertainty is empty or not blank. Its issues are the ungrounded
   ids of the hypotheses and then a blank account of the uncertainty, and nothing else.
   */
  lemma BuiltReportPasses(proposed: seq<ProposedFinding>, hypotheses: seq<Hypothesis>, s: Synthesis, known: set<string>)
    ensures var r := BuiltReport(proposed, hypotheses, s, known);
      && (Passes(r, known) <==> Grounded(hypotheses, known) && StatesUncertainty(s))
      && Issues(r, known) == DanglingIssues(SortedTexts(HypothesisIds(hypotheses) - known))
                             + if StatesUncertainty(s) then [] else [BlankUncertainty]
  {
    hide OthersGrounded, Consistent, CitedIds, HypothesisIds, SortedTexts, ConsistencyIssues, Passes, StatesUncertainty;
    hide DanglingIssues, Grounded;
    var r := BuiltReport(proposed, hypotheses, s, known);
    BuiltOthersGrounded(proposed, hypotheses, s, known);
    BuiltConsistency(proposed, hypotheses, s, known);
    OnlyHypothesesDangle(r, known);
    NoConsistencyIssue(r);
  }

  const Discarded := "The automated analysis failed" + " internal validation and was discarded: "

  /** The report used when the model's own could not be validated; `reasons` are at most five issue texts. */
  function FallbackReport(evidence: seq<string>, hypotheses: seq<Hypothesis>, reasons: string): (r: Report) {
    var anchor := if evidence == [] then [] else [evidence[0]];
    Report(Insufficient, [], [], hypotheses, [], anchor, true, None, Low, Discarded + reasons)
  }

  lemma DiscardedIsText(reasons: string)
    ensures !Blank(Discarded + reasons)
  {
    var text := Discarded + reasons;
    assert "The automated analysis failed"[0] == 'T';
    assert Discarded[0] == 'T';
    assert text[0] == 'T';
    assert !IsSpace(text[0]) && text[0] in text;
  }

  /** The fallback passes exactly when its hypotheses cite collected evidence only; nothing else can dangle. */
  lemma FallbackPasses(evidence: seq<string>, hypotheses: seq<Hypothesis>, reasons: string)
    ensures var r, known := FallbackReport(evidence, hypotheses, reasons), SetOf(evidence);
      && (Passes(r, known) <==> Grounded(hypotheses, known))
      && Issues(r, known) == DanglingIssues(SortedTexts(HypothesisIds(hypotheses) - known))
  {
    hide Blank, Discarded, CitedIds, HypothesisIds, SortedTexts, DanglingIssues, Grounded, Passes;
    DiscardedIsText(reasons);
    var r := FallbackReport(evidence, hypotheses, reasons);
    assert OthersGrounded(r, SetOf(evidence));
    OnlyHypothesesDangle(r, SetOf(evidence));
    NoConsistencyIssue(r);
  }

  /** Grounded hypotheses leave nothing dangling. */
  lemma GroundedNothingDangles(hypotheses: seq<Hypothesis>, known: set<string>)
    requires Grounded(hypotheses, known)
    ensures DanglingIssues(SortedTexts(HypothesisIds(hypotheses) - known)) == []
  {
    hide HypothesisIds, Grounded;
    GroundedMeaning(hypotheses, known);
    assert HypothesisIds(hypotheses) - known == {};
  }
}
