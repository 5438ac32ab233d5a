/**
  What every run of the plan-trip graph keeps: the decision that commit or cancel acts
  on is about the very proposal the verifier passed, versions count the applied
  revisions, and nothing is decided, committed or applied twice.
  */
module WorkflowSafety {
  import opened Prelude
  import opened Approvals
  import opened DraftStore
  import opened Text
  import opened Workflow
  import E = EvidenceRepair
  import R = Revision

  // -------------------------------------------------------------------- the audit

  /** What an observer of the whole run counts; no node reads it. */
  datatype Audit = Audit(
    passes: nat,
    commits: nat,
    cancels: nat,
    patches: seq<(R.Patch, string)>,
    since: set<Node>)

  datatype Session = Session(state: State, audit: Audit)

  predicate Applying(s: State, t: State) {
    s.at == ApplyRevision && t.at == MissingInfoCheck
  }

  function Observe(a: Audit, s: State, t: State): Audit {
    Audit(
      if s.at == Verifier && t.at == DecisionGate then a.passes + 1 else a.passes,
      if s.at == CommitDraft && t.derived.committed.CommittedFor? then a.commits + 1 else a.commits,
      if s.at == Cancel && t.derived.cancelled.CancelledBy? then a.cancels + 1 else a.cancels,
      if Applying(s, t) && s.analysis.ReadyPlan? && s.change.Some?
        then a.patches + [(s.analysis.patch, s.change.value.text)] else a.patches,
      if Applying(s, t) then {} else a.since + {s.at})
  }

  function Advance(cfg: Config, w: Session, i: Input): Session {
    var t := Step(cfg, w.state, i);
    Session(t, Observe(w.audit, w.state, t))
  }

  function Start(request: R.TripRequest, saved: seq<Row>): Session {
    Session(Initial(request, saved), Audit(0, 0, 0, [], {}))
  }

  /** A run: it starts fresh, whatever the database holds, and every session follows
      from the one before on some input. */
  predicate IsRun(cfg: Config, request: R.TripRequest, run: seq<Session>, inputs: seq<Input>) {
    && |run| == |inputs| + 1 && run[0] == Start(request, run[0].state.saved)
    && forall k {:trigger inputs[k]} | 0 <= k < |inputs| :: run[k + 1] == Advance(cfg, run[k], inputs[k])
  }

  // --------------------------------------------------------------- the invariants

  /** Between the start, or an applied revision, and the person's decision. */
  predicate Drafting(n: Node) {
    n.InputExtract? || n.MissingInfoCheck? || n.SafetyCheck? || n.MemoryRead? || n.PlanningContext?
    || n.ToolPlan? || n.ToolExecute? || n.ToolCheck? || n.CandidateRank? || n.BudgetOptimize?
    || n.RetrievalPlan? || n.HybridRetrieve? || n.Rerank? || n.EvidenceGrade?
    || n.Proposal? || n.Verifier? || n.DecisionGate?
  }

  /** The nodes an accepted decision leads through. */
  predicate Settling(n: Node) {
    n.CommitDraft? || n.Cancel? || n.RevisionAnalyze? || n.ApplyRevision?
  }

  /** Where the current version comes from. */
  predicate Lineage(w: Session) {
    var s, n := w.state, |w.audit.patches|;
    (Drafting(s.at) || (Settling(s.at) && !s.at.ApplyRevision?)) ==>
      if n == 0 then s.applied.NotApplied? && s.analysis.NoAnalysis?
      else s.applied.Applied? && s.applied.baseVersion == n
  }

  /** A proposal of the current version whose id is its digest. */
  predicate Current(w: Session) {
    var p := w.state.derived.proposal;
    p.Doc? && p.version == 1 + |w.audit.patches| && p.id == ProposalDigest(p.facts, p.version, p.body)
  }

  /** The verifier has passed exactly this proposal. */
  predicate Endorsed(w: Session) {
    var d := w.state.derived;
    Current(w) && d.proposal.boundary == DRAFT_ONLY
    && d.verdict == Verdict(Passed, true, DecisionGate, Some(d.proposal.id), true)
  }

  predicate AtGate(w: Session) {
    Endorsed(w) && w.state.derived.pending == [ApprovalOf(w.state.derived.proposal.id)]
  }

  /** An accepted decision, the proposal it names, and the action that carries it. */
  predicate Settled(w: Session) {
    var s, d := w.state, w.state.derived;
    Endorsed(w) && d.outcome.Accepted?
    && (s.at == d.outcome.next || (s.at.ApplyRevision? && d.outcome.next.RevisionAnalyze?))
    && d.outcome.next == Destination(d.outcome.decision)
    && d.outcome.proposal == d.proposal.id && d.outcome.version == d.proposal.version
    && d.outcome.action == ApproveOf(d.proposal.id)
    && d.pending == [ApprovalOf(d.proposal.id).(status := StatusOf(d.outcome.decision), event := Some(d.outcome.event))]
    && (d.outcome.decision.RequestChanges? ==>
          s.change.Some? && Strip(s.change.value.text) != ""
          && s.change.value.base == d.proposal.id && s.change.value.baseVersion == d.proposal.version)
    && (s.at.ApplyRevision? ==> s.applied.Analyzed? && BaseMatches(s))
  }

  predicate Agreement(w: Session) {
    && (w.state.at.Verifier? ==> Current(w))
    && (w.state.at.DecisionGate? ==> AtGate(w))
    && (Settling(w.state.at) ==> Settled(w))
  }

  /** The evidence the proposal stands on, and the loop that gathers it. */
  predicate Grounded(cfg: Config, s: State) {
    var l, f := LoopOf(s), s.derived.facts;
    && ((s.at.InputExtract? || s.at.MissingInfoCheck? || s.at.SafetyCheck? || s.at.MemoryRead? || s.at.PlanningContext?
         || s.at.ToolPlan? || s.at.ToolExecute? || s.at.ToolCheck? || s.at.CandidateRank?) ==>
          l == E.Loop(E.NoRagPlan, None, None, E.NoGrade, 0))
    && (s.at.BudgetOptimize? || s.at.RetrievalPlan? || s.at.Proposal? || s.at.Verifier? ==>
          E.Ready(l, f, cfg.ragRounds) && (!s.at.RetrievalPlan? ==> l.gaps.None?))
    && (s.at.HybridRetrieve? || s.at.Rerank? || s.at.EvidenceGrade? ==> E.Planned(l, f, cfg.ragRounds))
    && (s.at.RetrievalPlan? || s.at.HybridRetrieve? || s.at.Rerank? || s.at.EvidenceGrade? ==> s.derived.feasible)
    && (s.at.Proposal? || s.at.Verifier? ==> MayPropose(s))
  }

  predicate Inv(cfg: Config, w: Session) {
    Lineage(w) && Agreement(w) && Grounded(cfg, w.state)
  }

  // ----------------------------------------------------------------- preservation

  lemma VersionIsNext(w: Session)
    requires Lineage(w) && w.state.at.Proposal?
    ensures ResolvedVersion(w.state) == 1 + |w.audit.patches|
  {
  }

  lemma EvidenceKept(cfg: Config, s: State, i: Input)
    requires Grounded(cfg, s) && (s.at.RetrievalPlan? || s.at.EvidenceGrade?)
    ensures Grounded(cfg, Step(cfg, s, i))
  {
    if s.at.RetrievalPlan? {
      E.RepairConsumes(LoopOf(s), s.derived.facts, cfg.ragRounds);
      assert LoopOf(Step(cfg, s, i)) == E.Plan(LoopOf(s), s.derived.facts, cfg.ragRounds);
    } else {
      E.GradeKeeps(LoopOf(s), s.derived.facts, cfg.ragRounds, i.review);
      assert LoopOf(Step(cfg, s, i)) == E.GradeEvidence(LoopOf(s), i.review);
    }
  }

  /** The verifier's edge back to retrieval is never taken: the evidence it would complain about has passed. */
  lemma RetrievalEdgeIsDead(cfg: Config, s: State, i: Input)
    requires Grounded(cfg, s) && s.at.Verifier?
    ensures !Step(cfg, s, i).at.RetrievalPlan?
    ensures LoopOf(Step(cfg, s, i)) == LoopOf(s) && Step(cfg, s, i).derived.facts == s.derived.facts
    ensures MayPropose(Step(cfg, s, i))
  {
  }

  lemma PlainKept(cfg: Config, s: State, i: Input)
    requires Grounded(cfg, s) && Drafting(s.at)
    requires !s.at.RetrievalPlan? && !s.at.EvidenceGrade? && !s.at.Verifier? && !s.at.DecisionGate?
    ensures Grounded(cfg, Step(cfg, s, i))
  {
  }

  lemma EndsGrounded(cfg: Config, t: State)
    requires t.at.DecisionGate? || !Drafting(t.at)
    ensures Grounded(cfg, t)
  {
  }

  lemma ApplyGrounded(cfg: Config, s: State, i: Input)
    requires s.at.ApplyRevision?
    ensures Grounded(cfg, Step(cfg, s, i))
  {
  }

  lemma GroundedKept(cfg: Config, s: State, i: Input)
    requires Grounded(cfg, s)
    ensures Grounded(cfg, Step(cfg, s, i))
  {
    if s.at.RetrievalPlan? || s.at.EvidenceGrade? {
      EvidenceKept(cfg, s, i);
    } else if s.at.Verifier? {
      RetrievalEdgeIsDead(cfg, s, i);
    } else if s.at.ApplyRevision? {
      ApplyGrounded(cfg, s, i);
    } else if Drafting(s.at) && !s.at.DecisionGate? {
      PlainKept(cfg, s, i);
    } else {
      StepFollowsEdges(cfg, s, i);
      EndsGrounded(cfg, Step(cfg, s, i));
    }
  }

  lemma ProposalKept(cfg: Config, w: Session, i: Input)
    requires Inv(cfg, w) && w.state.at.Proposal?
    ensures Lineage(Advance(cfg, w, i)) && Agreement(Advance(cfg, w, i))
  {
    VersionIsNext(w);
  }

  lemma OnwardKept(w: Session, t: State)
    requires Lineage(w) && Drafting(w.state.at) && w.state.at !in {Proposal, Verifier, DecisionGate}
    requires t.at in Successors(w.state.at) && SameRevision(w.state, t)
    ensures var next := Session(t, Observe(w.audit, w.state, t)); Lineage(next) && Agreement(next)
  {
  }

  lemma DraftingKept(cfg: Config, w: Session, i: Input)
    requires Inv(cfg, w) && Drafting(w.state.at) && w.state.at !in {Proposal, Verifier, DecisionGate}
    ensures Lineage(Advance(cfg, w, i)) && Agreement(Advance(cfg, w, i))
  {
    StepFollowsEdges(cfg, w.state, i);
    OnwardKept(w, Step(cfg, w.state, i));
  }

  /** The verifier leaves the proposal alone and opens the gate only for one whose id and boundary it has checked. */
  predicate Examined(s: State, t: State) {
    var p := s.derived.proposal;
    && t.at in Successors(Verifier) && SameRevision(s, t) && t.derived.proposal == p
    && (t.at.DecisionGate? && p.Doc? ==>
          && p.boundary == DRAFT_ONLY && p.id == ProposalDigest(p.facts, p.version, p.body)
          && t.derived.verdict == Verdict(Passed, true, DecisionGate, Some(p.id), true)
          && t.derived.pending == [ApprovalOf(p.id)])
  }

  lemma VerifierExamines(cfg: Config, s: State, i: Input)
    requires s.at.Verifier?
    ensures Examined(s, Step(cfg, s, i))
  {
    VerifierMoves(cfg, s, i);
  }

  lemma ExaminedKept(w: Session, t: State)
    requires Lineage(w) && Agreement(w) && w.state.at.Verifier? && Examined(w.state, t)
    ensures var next := Session(t, Observe(w.audit, w.state, t)); Lineage(next) && Agreement(next)
  {
  }

  lemma VerifierKept(cfg: Config, w: Session, i: Input)
    requires Inv(cfg, w) && w.state.at.Verifier?
    ensures Lineage(Advance(cfg, w, i)) && Agreement(Advance(cfg, w, i))
  {
    VerifierExamines(cfg, w.state, i);
    ExaminedKept(w, Step(cfg, w.state, i));
  }

  /**
    What the gate leaves behind: an invalid answer changes nothing that matters, a valid
    one is recorded on the one pending action, in the decision result and in the history.
    */
  predicate Recorded(s: State, t: State) {
    var d, o, p := s.derived, t.derived.outcome, s.derived.proposal;
    && t.at in Successors(DecisionGate) && !t.at.FinalResponse?
    && t.request == s.request && t.applied == s.applied && t.analysis == s.analysis
    && t.derived.proposal == p && t.derived.verdict == d.verdict
    && t.derived.committed == d.committed && t.derived.cancelled == d.cancelled && t.saved == s.saved
    && (t.at.DecisionGate? ==> t.history == s.history && t.derived.pending == d.pending)
    && (!t.at.DecisionGate? ==>
          && o.Accepted? && p.Doc? && t.at == o.next == Destination(o.decision)
          && o.proposal == p.id && o.version == p.version && o.action == ApproveOf(p.id)
          && t.history == s.history + [HistoryItem(o.event, o.proposal, o.version, o.action, o.decision)]
          && o.event.proposal == o.proposal && o.event.version == o.version
          && o.event.action == o.action && o.event.decision == o.decision
          && t.derived.pending == Mark(d.pending, o.action, Decided(o.decision, o.event))
          && (o.decision.RequestChanges? ==>
                && t.change.Some? && Strip(t.change.value.text) != ""
                && o.event.change == Some(t.change.value.text)
                && t.change.value.base == p.id && t.change.value.baseVersion == p.version))
  }

  lemma GateRecords(w: Session, i: Input)
    requires AtGate(w)
    ensures Recorded(w.state, GateStep(w.state, i))
  {
    GateOpens(w);
    if i.answer.Answer? && i.answer.change.Some? {
      StripTwice(i.answer.change.value);
    }
  }

  lemma StepRecords(cfg: Config, w: Session, i: Input)
    requires AtGate(w) && w.state.at.DecisionGate?
    ensures Recorded(w.state, Step(cfg, w.state, i))
  {
    GateRecords(w, i);
  }

  lemma MarkOnly(id: ProposalId, d: Decision, e: EventId)
    ensures Mark([ApprovalOf(id)], ApproveOf(id), Decided(d, e))
            == [ApprovalOf(id).(status := StatusOf(d), event := Some(e))]
  {
    assert Mark([ApprovalOf(id)], ApproveOf(id), Decided(d, e))[0] == Decided(d, e)(ApprovalOf(id));
  }

  lemma RecordedKept(w: Session, t: State)
    requires Lineage(w) && AtGate(w) && w.state.at.DecisionGate? && Recorded(w.state, t)
    ensures var next := Session(t, Observe(w.audit, w.state, t)); Lineage(next) && Agreement(next)
  {
    if !t.at.DecisionGate? {
      MarkOnly(w.state.derived.proposal.id, t.derived.outcome.decision, t.derived.outcome.event);
    }
  }

  lemma GateKept(cfg: Config, w: Session, i: Input)
    requires Inv(cfg, w) && w.state.at.DecisionGate?
    ensures Lineage(Advance(cfg, w, i)) && Agreement(Advance(cfg, w, i))
  {
    StepRecords(cfg, w, i);
    RecordedKept(w, Step(cfg, w.state, i));
  }

  lemma AnalyzeKept(cfg: Config, w: Session, i: Input)
    requires Inv(cfg, w) && w.state.at.RevisionAnalyze?
    ensures Lineage(Advance(cfg, w, i)) && Agreement(Advance(cfg, w, i))
  {
  }

  lemma ApplyKept(cfg: Config, w: Session, i: Input)
    requires Inv(cfg, w) && w.state.at.ApplyRevision?
    ensures Lineage(Advance(cfg, w, i)) && Agreement(Advance(cfg, w, i))
  {
  }

  lemma Kept(cfg: Config, w: Session, i: Input)
    requires Inv(cfg, w)
    ensures Inv(cfg, Advance(cfg, w, i))
  {
    GroundedKept(cfg, w.state, i);
    AgreementKept(cfg, w, i);
  }

  lemma LeadsToTheEnd(m: Node, n: Node)
    requires m in {Clarify, SafeReject, CommitDraft, Cancel, FinalResponse, End} && n in Successors(m)
    ensures n in {FinalResponse, End}
  {
  }

  lemma EndingKept(cfg: Config, w: Session, i: Input)
    requires w.state.at in {Clarify, SafeReject, CommitDraft, Cancel, FinalResponse, End}
    ensures Lineage(Advance(cfg, w, i)) && Agreement(Advance(cfg, w, i))
  {
    var t := Step(cfg, w.state, i);
    StepFollowsEdges(cfg, w.state, i);
    LeadsToTheEnd(w.state.at, t.at);
    AfterTheEnd(Session(t, Observe(w.audit, w.state, t)));
  }

  lemma AfterTheEnd(w: Session)
    requires w.state.at in {FinalResponse, End}
    ensures Lineage(w) && Agreement(w)
  {
  }

  lemma AgreementKept(cfg: Config, w: Session, i: Input)
    requires Inv(cfg, w)
    ensures Lineage(Advance(cfg, w, i)) && Agreement(Advance(cfg, w, i))
  {
    if w.state.at.Verifier? {
      VerifierKept(cfg, w, i);
    } else if w.state.at.DecisionGate? {
      GateKept(cfg, w, i);
    } else if w.state.at.Proposal? {
      ProposalKept(cfg, w, i);
    } else if Drafting(w.state.at) {
      DraftingKept(cfg, w, i);
    } else if w.state.at.RevisionAnalyze? {
      AnalyzeKept(cfg, w, i);
    } else if w.state.at.ApplyRevision? {
      ApplyKept(cfg, w, i);
    } else {
      EndingKept(cfg, w, i);
    }
  }

  /** Every state of every run keeps the invariant. */
  lemma {:induction false} Always(cfg: Config, request: R.TripRequest, run: seq<Session>, inputs: seq<Input>, n: nat)
    requires IsRun(cfg, request, run, inputs) && n < |run|
    ensures Inv(cfg, run[n])
  {
    if n == 0 {
    } else {
      Always(cfg, request, run, inputs, n - 1);
      Kept(cfg, run[n - 1], inputs[n - 1]);
    }
  }

  /** At the gate the payload is always built, from the current proposal and its only pending approval. */
  lemma GateOpens(w: Session)
    requires AtGate(w)
    ensures var p := w.state.derived.proposal;
            BuildPayload(w.state.derived) == Some(Payload(ApproveOf(p.id), p.id, 1 + |w.audit.patches|))
  {
    var d := w.state.derived;
    var only := ApprovalOf(d.proposal.id);
    FoundIff(d.pending, d.proposal.id, only);
    assert d.pending[0] == only;
  }
}
