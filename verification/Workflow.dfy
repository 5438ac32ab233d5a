/**
  The plan-trip graph of app/workflows/plan_trip_workflow.py as a transition system.
  One step executes the node the run stands at and moves along one of its edges;
  what models, tools, people and the database answer is the step's input.
  */
module Workflow {
  import opened Prelude
  import opened Approvals
  import opened DraftStore
  import opened Text
  import E = EvidenceRepair
  import R = Revision
  import RequestCheck
  import ToolLoop

  datatype Node =
    | InputExtract | MissingInfoCheck | Clarify | SafetyCheck | SafeReject | MemoryRead | PlanningContext
    | ToolPlan | ToolExecute | ToolCheck | CandidateRank | BudgetOptimize
    | RetrievalPlan | HybridRetrieve | Rerank | EvidenceGrade
    | Proposal | Verifier | DecisionGate | CommitDraft | RevisionAnalyze | ApplyRevision | Cancel
    | FinalResponse | End

  /** The settings that bound the loops. */
  datatype Config = Config(tools: ToolLoop.Limits, ragRounds: nat, budgetRepairs: nat, proposalRepairs: nat)

  // ------------------------------------------------------------------- the state

  datatype Boundary = Boundary(draftOnly: bool, booked: bool, paid: bool, notified: bool)

  const DRAFT_ONLY := Boundary(true, false, false, false)

  datatype Doc = NoProposal | Doc(id: ProposalId, version: int, facts: string, body: string, boundary: Boundary)

  datatype VerdictStatus = Passed | RepairRequired | VerifierFailed

  datatype Verdict =
    | NoVerdict
    | Verdict(status: VerdictStatus, passed: bool, next: Node, about: Option<ProposalId>, approvalRequired: bool)

  /** The decision result; the last three ids are absent unless the decision was accepted. */
  datatype Outcome =
    | NoOutcome
    | GateFailed
    | Rejected(proposal: ProposalId, version: int, action: ActionId)
    | Accepted(decision: Decision, next: Node, proposal: ProposalId, version: int, action: ActionId, event: EventId)

  datatype Change = Change(text: string, base: ProposalId, baseVersion: int)

  datatype Analysis = NoAnalysis | AnalysisFailed | NeedsClarification(base: ProposalId, baseVersion: int)
                    | ReadyPlan(base: ProposalId, baseVersion: int, baseRequest: R.TripRequest, patch: R.Patch)

  datatype Applied = NotApplied | Analyzed | Applied(base: ProposalId, baseVersion: int) | ApplyFailed

  /** A replay is a commit that found what an earlier one had saved. */
  datatype CommitState = NotCommitted | CommittedFor(event: EventId, replay: bool) | CommitFailed

  datatype CancelState = NotCancelled | CancelledBy(event: EventId, replay: bool) | CancelFailed

  /** One accepted decision in the audit list. */
  datatype HistoryItem = HistoryItem(event: EventId, proposal: ProposalId, version: int, action: ActionId,
                                     decision: Decision)

  /** What the optimizer makes of the ranked candidates: whether it selects,
      and whether the verifier will accept the selection. */
  datatype Optimum = Optimum(feasible: bool, sound: bool)

  /** Everything computed from the current request; an applied revision resets all of it. */
  datatype Derived = Derived(
    facts: E.Facts,
    covered: bool,
    planRetry: nat,
    executeRetry: nat,
    optimum: Optimum,
    feasible: bool,
    plan: E.RagPlan,
    required: Option<E.Needs>,
    gaps: Option<E.Needs>,
    grade: E.Grade,
    proposal: Doc,
    generated: bool,
    verdict: Verdict,
    pending: seq<Action>,
    outcome: Outcome,
    gateError: bool,
    attempts: nat,
    committed: CommitState,
    cancelled: CancelState)

  const FRESH := Derived(E.Facts(false, false), false, 0, 0, Optimum(false, false), false,
                         E.NoRagPlan, None, None, E.NoGrade, NoProposal,
                         false, NoVerdict, [], NoOutcome, false, 0, NotCommitted, NotCancelled)

  datatype State = State(
    at: Node,
    request: R.TripRequest,
    change: Option<Change>,
    analysis: Analysis,
    applied: Applied,
    history: seq<HistoryItem>,
    budgetRetry: nat,
    ragRetry: nat,
    proposalRetry: nat,
    saved: seq<Row>,
    derived: Derived)

  /** A new session whose message reads as the given request, over what the database holds. */
  function Initial(request: R.TripRequest, saved: seq<Row>): State {
    State(InputExtract, request, None, NoAnalysis, NotApplied, [], 0, 0, 0, saved, FRESH)
  }

  // ------------------------------------------------------------------- the inputs

  datatype Target = AtProposal | AtRetrieval | AtBudget | AtFinal

  /** What the verifier finds in the generated text; the issues for budget and retrieval are decided by the state. */
  datatype Findings = VerifierCrashed | Findings(others: set<Target>)

  /** A person's answer at the gate, or something that is not one. */
  datatype Answer =
    | Unreadable
    | Answer(decision: Decision, proposal: ProposalId, action: ActionId,
             change: Option<string>, reason: Option<string>, client: Option<string>)

  datatype Reading = AnalyzerRaised | Understood(patch: R.Patch) | Ambiguous

  datatype Draft = Draft(facts: string, body: string, boundary: Boundary)

  /** The choices of the world; every node reads its own fields only. */
  datatype Input = Input(
    unclear: bool,
    blocked: bool,
    covered: bool,
    risks: bool,
    needsReplan: bool,
    requiredFailed: bool,
    ranked: bool,
    optimum: Optimum,
    review: E.Review,
    draft: Option<Draft>,
    findings: Findings,
    answer: Answer,
    reading: Reading,
    stored: bool)

  // ------------------------------------------------------- planning and evidence

  function Go(s: State, n: Node): State { s.(at := n) }

  /** What is known for the rest of the planning: a destination, and whether the registry accepts the required calls. */
  function PlanningContextStep(s: State, i: Input): State {
    var d := s.derived;
    s.(at := ToolPlan,
       derived := d.(facts := d.facts.(plannable := RequestCheck.HasText(s.request.destination)), covered := i.covered))
  }

  function ToolCheckStep(cfg: Config, s: State, i: Input): State {
    var d := s.derived;
    var v := ToolLoop.Decide(!d.covered, i.needsReplan, i.requiredFailed, d.planRetry, d.executeRetry, cfg.tools);
    var next := match v.next
      case GoToPlan => ToolPlan
      case GoToExecute => ToolExecute
      case GoToRank => CandidateRank
      case GoToFinal => FinalResponse;
    s.(at := next, derived := d.(planRetry := v.planRetry, executeRetry := v.executeRetry))
  }

  function LoopOf(s: State): E.Loop {
    E.Loop(s.derived.plan, s.derived.required, s.derived.gaps, s.derived.grade, s.ragRetry)
  }

  function WithLoop(s: State, l: E.Loop): State {
    s.(ragRetry := l.retries,
       derived := s.derived.(plan := l.plan, required := l.required, gaps := l.gaps, grade := l.grade))
  }

  function RetrievalPlanStep(cfg: Config, s: State): State {
    Go(WithLoop(s, E.Plan(LoopOf(s), s.derived.facts, cfg.ragRounds)), HybridRetrieve)
  }

  function EvidenceGradeStep(s: State, i: Input): State {
    var l := E.GradeEvidence(LoopOf(s), i.review);
    Go(WithLoop(s, l),
        if l.grade.next.Continue? then Proposal
        else if l.grade.next.Repair? then RetrievalPlan
        else FinalResponse)
  }

  // ------------------------------------------------------ proposal and verification

  /** `_resolve_proposal_version` */
  function ResolvedVersion(s: State): int {
    if s.applied.Applied? && s.applied.baseVersion >= 1 then s.applied.baseVersion + 1
    else if s.analysis.ReadyPlan? && s.analysis.baseVersion >= 1 then s.analysis.baseVersion + 1
    else 1
  }

  predicate MayPropose(s: State) {
    s.derived.feasible && s.derived.grade.Grade? && s.derived.grade.passed
  }

  function ProposalStep(s: State, i: Input): State {
    if MayPropose(s) && i.draft.Some? then
      var v, draft := ResolvedVersion(s), i.draft.value;
      var doc := Doc(ProposalDigest(draft.facts, v, draft.body), v, draft.facts, draft.body, draft.boundary);
      s.(at := Verifier, derived := s.derived.(proposal := doc, generated := true, verdict := NoVerdict, pending := []))
    else
      s.(at := FinalResponse, derived := s.derived.(proposal := NoProposal, generated := false))
  }

  function BlockingTargets(s: State, f: Findings): set<Target>
    requires f.Findings?
  {
    var p := s.derived.proposal;
    if p.NoProposal? then {AtProposal}
    else
      (f.others - {AtRetrieval, AtBudget})
      + (if s.derived.optimum.sound then {} else {AtBudget})
      + (if s.derived.grade.Grade? && s.derived.grade.passed then {} else {AtRetrieval})
      + (if p.boundary == DRAFT_ONLY then {} else {AtProposal})
      + (if p.id == ProposalDigest(p.facts, p.version, p.body) then {} else {AtProposal})
  }

  /** `_decide_next_action` */
  function NextAction(cfg: Config, s: State, targets: set<Target>): Node {
    if targets == {} then DecisionGate
    else if AtFinal in targets then FinalResponse
    else if AtBudget in targets then
      if s.budgetRetry < cfg.budgetRepairs then BudgetOptimize else FinalResponse
    else if AtRetrieval in targets then
      var rounds := if s.derived.plan.RagPlan? then s.derived.plan.rounds else 1;
      if !(s.derived.plan.RagPlan? && s.derived.plan.exhausted) && s.ragRetry < rounds
      then RetrievalPlan
      else FinalResponse
    else if s.proposalRetry < cfg.proposalRepairs then Proposal else FinalResponse
  }

  /** What is wrong furthest upstream is repaired first, and only within its limit; otherwise the run ends. */
  lemma RepairsUpstreamFirst(cfg: Config, s: State, targets: set<Target>)
    ensures var next, plan := NextAction(cfg, s, targets), s.derived.plan;
            var again := if plan.RagPlan? then !plan.exhausted && s.ragRetry < plan.rounds else s.ragRetry < 1;
            && (next.DecisionGate? <==> targets == {})
            && (next.Proposal? <==> targets == {AtProposal} && s.proposalRetry < cfg.proposalRepairs)
            && (next.RetrievalPlan? <==> AtRetrieval in targets && targets !! {AtFinal, AtBudget} && again)
            && (next.BudgetOptimize? <==>
                  AtBudget in targets && AtFinal !in targets && s.budgetRetry < cfg.budgetRepairs)
            && next in {DecisionGate, Proposal, RetrievalPlan, BudgetOptimize, FinalResponse}
  {
    if targets != {} && targets !! {AtFinal, AtBudget, AtRetrieval} {
      assert forall t: Target :: t.AtFinal? || t.AtBudget? || t.AtRetrieval? || t.AtProposal?;
      assert forall t | t in targets :: t == AtProposal;
      var t :| t in targets;
      assert targets == {AtProposal};
    }
  }

  function ApprovalOf(id: ProposalId): Action {
    Action(ApproveOf(id), ApproveProposal, true, Pending, Some(id), None, false)
  }

  function DocId(p: Doc): Option<ProposalId> {
    if p.Doc? then Some(p.id) else None
  }

  function VerifierStep(cfg: Config, s: State, i: Input): State {
    if i.findings.VerifierCrashed? then
      s.(at := FinalResponse,
         derived := s.derived.(verdict := Verdict(VerifierFailed, false, FinalResponse, None, false), pending := []))
    else
      var next := NextAction(cfg, s, BlockingTargets(s, i.findings));
      var p := s.derived.proposal;
      var pass := next == DecisionGate;
      var status := if pass then Passed else if next == FinalResponse then VerifierFailed else RepairRequired;
      s.(at := next,
         proposalRetry := if next == Proposal then s.proposalRetry + 1 else s.proposalRetry,
         budgetRetry := if next == BudgetOptimize then s.budgetRetry + 1 else s.budgetRetry,
         derived := s.derived.(verdict := Verdict(status, pass, next, DocId(p), pass),
                               pending := if pass && p.Doc? then [ApprovalOf(p.id)] else []))
  }

  // ---------------------------------------------------------------- the human gate

  datatype Payload = Payload(action: ActionId, proposal: ProposalId, version: int)

  /** `build_decision_interrupt_payload`; None where it raises. */
  function BuildPayload(d: Derived): Option<Payload> {
    if !(d.verdict.Verdict? && d.verdict.passed && d.verdict.next == DecisionGate && d.verdict.approvalRequired)
      then None
    else if !(d.proposal.Doc? && !BlankProposal(d.proposal.id) && d.proposal.version >= 1) then None
    else
      var a := TheApproval(d.pending, d.proposal.id);
      if a.Some? && !BlankAction(a.value.id) then Some(Payload(a.value.id, d.proposal.id, d.proposal.version)) else None
  }

  function StripOr(t: Option<string>): string {
    if t.Some? then Strip(t.value) else ""
  }

  /** The response schema, with the texts as it stores them. */
  function ReadAnswer(a: Answer): Option<Answer> {
    if a.Unreadable? then None
    else if (a.change.Some? && |a.change.value| > 4000) || (a.reason.Some? && |a.reason.value| > 1000)
            || (a.client.Some? && |a.client.value| > 200) then None
    else
      var change := StripOr(a.change);
      if a.decision.RequestChanges? != (change != "") then None
      else
        var reason := if StripOr(a.reason) != "" then Some(StripOr(a.reason)) else None;
        Some(a.(change := if change != "" then Some(change) else a.change, reason := reason))
  }

  function Destination(d: Decision): Node {
    match d
    case Approve => CommitDraft
    case RequestChanges => RevisionAnalyze
    case CancelPlan => Cancel
  }

  predicate Acceptable(p: Payload, a: Answer) {
    ReadAnswer(a).Some? && ReadAnswer(a).value.Answer? && a.proposal == p.proposal && a.action == p.action
  }

  function EventOf(p: Payload, a: Answer): EventId
    requires a.Answer?
  {
    EventDigest(a.proposal, p.version, a.action, a.decision, a.change, a.reason, a.client)
  }

  /** Back to the gate, with the attempt counted. */
  function Reject(s: State, p: Payload): State {
    s.(at := DecisionGate,
       derived := s.derived.(outcome := Rejected(p.proposal, p.version, p.action), gateError := true,
                             attempts := s.derived.attempts + 1))
  }

  /** The decision in result, history, pending action and change request. */
  function Accept(s: State, p: Payload, a: Answer): State
    requires a.Answer?
  {
    var e, next := EventOf(p, a), Destination(a.decision);
    s.(at := next,
       change := if a.decision.RequestChanges? then Some(Change(StripOr(a.change), p.proposal, p.version)) else None,
       history := s.history + [HistoryItem(e, p.proposal, p.version, p.action, a.decision)],
       derived := s.derived.(outcome := Accepted(a.decision, next, p.proposal, p.version, p.action, e),
                             gateError := false, attempts := s.derived.attempts + 1,
                             pending := Mark(s.derived.pending, p.action, Decided(a.decision, e))))
  }

  function GateStep(s: State, i: Input): State {
    match BuildPayload(s.derived)
    case None => s.(at := FinalResponse, derived := s.derived.(outcome := GateFailed, gateError := true))
    case Some(p) => if Acceptable(p, i.answer) then Accept(s, p, ReadAnswer(i.answer).value) else Reject(s, p)
  }

  // ------------------------------------------------------------- commit and cancel

  /** The checks commit and cancel share: the decision is about the proposal the verifier passed. */
  predicate DecisionStands(d: Derived, decision: Decision) {
    && d.proposal.Doc? && d.verdict.Verdict? && d.outcome.Accepted?
    && d.verdict.passed && d.verdict.status.Passed? && d.verdict.next == DecisionGate
    && d.outcome.decision == decision && d.outcome.next == Destination(decision)
    && d.outcome.proposal == d.proposal.id && d.outcome.version == d.proposal.version
    && d.verdict.about == Some(d.proposal.id)
    && d.proposal.boundary == DRAFT_ONLY
    && TheAction(d.pending, d.outcome.action).Some?
    && TheAction(d.pending, d.outcome.action).value.kind == ApproveProposal
    && TheAction(d.pending, d.outcome.action).value.event == Some(d.outcome.event)
  }

  predicate CommitAllowed(d: Derived) {
    DecisionStands(d, Approve)
    && TheAction(d.pending, d.outcome.action).value.status in {Approved, Committed}
  }

  predicate CancelAllowed(d: Derived) {
    DecisionStands(d, CancelPlan)
    && TheAction(d.pending, d.outcome.action).value.status == Cancelled
  }

  /** How the service ends: with what an earlier commit saved, or with a transaction that
      goes through or is rolled back. */
  function CommitOutcome(d: Derived, saved: seq<Row>, stored: bool): CommitState {
    if !CommitAllowed(d) then CommitFailed
    else
      match SavedRow(saved, d.outcome.event, d.proposal.id)
      case Some(row) => if row.ours then CommittedFor(row.event, true) else CommitFailed
      case None => if stored then CommittedFor(d.outcome.event, false) else CommitFailed
  }

  function CommitStep(s: State, i: Input): State {
    var d := s.derived;
    var c := CommitOutcome(d, s.saved, i.stored);
    if c.CommittedFor? then
      s.(at := FinalResponse,
         saved := if c.replay then s.saved else s.saved + [Row(d.outcome.event, d.proposal.id, true)],
         derived := d.(committed := c, pending := Mark(d.pending, d.outcome.action, Stored())))
    else s.(at := FinalResponse, derived := d.(committed := CommitFailed))
  }

  function CancelStep(s: State): State {
    var d := s.derived;
    if CancelAllowed(d) then
      var replay := d.cancelled.CancelledBy? && d.cancelled.event == d.outcome.event;
      s.(at := FinalResponse, change := None,
         derived := d.(cancelled := CancelledBy(d.outcome.event, replay),
                       pending := Mark(d.pending, d.outcome.action, Finalized())))
    else s.(at := FinalResponse, derived := d.(cancelled := CancelFailed))
  }

  /** The action at k and no other is a pending approval of the proposal. */
  predicate SoleApproval(actions: seq<Action>, id: ProposalId, k: int) {
    && 0 <= k < |actions| && AwaitsApproval(id)(actions[k])
    && forall j | 0 <= j < |actions| && j != k :: !AwaitsApproval(id)(actions[j])
  }

  /** The verifier passed, asked for a person, and the proposal can be named. */
  predicate GateReady(d: Derived) {
    && d.verdict.Verdict? && d.verdict.passed && d.verdict.next == DecisionGate && d.verdict.approvalRequired
    && d.proposal.Doc? && !BlankProposal(d.proposal.id) && d.proposal.version >= 1
  }

  /** A person is asked exactly about a passed proposal with one pending approval, and in its own terms. */
  method BuildInterruptPayload(d: Derived) returns (payload: Option<Payload>)
    ensures payload == BuildPayload(d)
    ensures payload.Some? <==>
              GateReady(d) && exists k :: SoleApproval(d.pending, d.proposal.id, k) && !BlankAction(d.pending[k].id)
    ensures payload.Some? ==>
              && payload.value.proposal == d.proposal.id && payload.value.version == d.proposal.version
              && forall k :: SoleApproval(d.pending, d.proposal.id, k) ==> payload.value.action == d.pending[k].id
  {
    if !(d.verdict.Verdict? && d.verdict.passed && d.verdict.next == DecisionGate && d.verdict.approvalRequired) {
      return None;
    }
    if !(d.proposal.Doc? && !BlankProposal(d.proposal.id) && d.proposal.version >= 1) {
      return None;
    }
    var found := FindPendingApproval(d.pending, d.proposal.id);
    SoleIsFound(d.pending, d.proposal.id);
    if found.None? || BlankAction(found.value.id) {
      return None;
    }
    payload := Some(Payload(found.value.id, d.proposal.id, d.proposal.version));
  }

  lemma SoleIsFound(actions: seq<Action>, id: ProposalId)
    ensures TheApproval(actions, id).Some? <==> exists k :: SoleApproval(actions, id, k)
    ensures forall k :: SoleApproval(actions, id, k) ==> TheApproval(actions, id) == Some(actions[k])
  {
    forall k | SoleApproval(actions, id, k)
      ensures TheApproval(actions, id) == Some(actions[k])
    {
      FoundIff(actions, id, actions[k]);
    }
    if TheApproval(actions, id).Some? {
      FoundIff(actions, id, TheApproval(actions, id).value);
      var k :| 0 <= k < |actions| && actions[k] == TheApproval(actions, id).value && AwaitsApproval(id)(actions[k])
               && forall j | 0 <= j < |actions| && j != k :: !AwaitsApproval(id)(actions[j]);
      assert SoleApproval(actions, id, k);
    }
  }

  /** Only the actions of this id are edited, position by position. */
  predicate Edited(before: seq<Action>, after: seq<Action>, id: ActionId, edit: Action -> Action) {
    && |after| == |before|
    && forall k | 0 <= k < |before| :: after[k] == if before[k].id == id then edit(before[k]) else before[k]
  }

  /** What the gate never touches. */
  predicate GateFrame(s: State, t: State) {
    && SameRequest(s, t) && t.saved == s.saved
    && t.derived.proposal == s.derived.proposal && t.derived.verdict == s.derived.verdict
    && t.derived.committed == s.derived.committed && t.derived.cancelled == s.derived.cancelled
  }

  predicate SameRequest(s: State, t: State) {
    t.request == s.request && t.analysis == s.analysis && t.applied == s.applied
  }

  /** The answer was not usable: asked again, nothing decided. */
  predicate AskedAgain(s: State, t: State, p: Payload) {
    && t.at == DecisionGate && t.history == s.history && t.change == s.change
    && t.derived.pending == s.derived.pending && t.derived.attempts == s.derived.attempts + 1
    && t.derived.outcome == Rejected(p.proposal, p.version, p.action)
  }

  /** The answer was taken: one entry, one result and one action tell the same decision about what was asked. */
  predicate Taken(s: State, t: State, p: Payload, a: Answer) {
    var o := t.derived.outcome;
    && a.Answer? && o.Accepted? && o.decision == a.decision
    && o.proposal == p.proposal && o.version == p.version && o.action == p.action
    && o.event.proposal == p.proposal && o.event.version == p.version
    && o.event.action == p.action && o.event.decision == a.decision
    && t.at == o.next == Destination(a.decision)
    && t.history == s.history + [HistoryItem(o.event, p.proposal, p.version, p.action, a.decision)]
    && (t.change.Some? <==> a.decision.RequestChanges?)
    && (t.change.Some? ==> t.change.value.base == p.proposal && t.change.value.baseVersion == p.version)
    && Edited(s.derived.pending, t.derived.pending, p.action, Decided(a.decision, o.event))
    && TheApproval(t.derived.pending, p.proposal).None?
  }

  method AcceptDecision(s: State, p: Payload, a: Answer) returns (t: State)
    requires a.Answer?
    ensures t == Accept(s, p, a)
  {
    var d, e := s.derived, EventOf(p, a);
    var pending := MarkActions(d.pending, p.action, Decided(a.decision, e));
    var change := None;
    if a.decision.RequestChanges? {
      change := Some(Change(StripOr(a.change), p.proposal, p.version));
    }
    t := s.(at := Destination(a.decision), change := change,
            history := s.history + [HistoryItem(e, p.proposal, p.version, p.action, a.decision)],
            derived := d.(outcome := Accepted(a.decision, Destination(a.decision), p.proposal, p.version, p.action, e),
                          gateError := false, attempts := d.attempts + 1, pending := pending));
  }

  /** The node fails, asks again or takes the decision, as the payload and the answer say. */
  method DecisionGateNode(s: State, i: Input) returns (t: State)
    ensures t == GateStep(s, i)
    ensures GateFrame(s, t)
    ensures t.at == FinalResponse <==> BuildPayload(s.derived).None?
    ensures t.at == FinalResponse ==> t.history == s.history && t.derived.pending == s.derived.pending
    ensures var p := BuildPayload(s.derived);
            p.Some? ==>
              if Acceptable(p.value, i.answer) then Taken(s, t, p.value, i.answer)
              else AskedAgain(s, t, p.value)
  {
    var payload := BuildInterruptPayload(s.derived);
    if payload.None? {
      return s.(at := FinalResponse, derived := s.derived.(outcome := GateFailed, gateError := true));
    }
    if !Acceptable(payload.value, i.answer) {
      return Reject(s, payload.value);
    }
    AcceptTakes(s, payload.value, i.answer);
    t := AcceptDecision(s, payload.value, ReadAnswer(i.answer).value);
  }

  lemma AcceptTakes(s: State, p: Payload, a: Answer)
    requires BuildPayload(s.derived) == Some(p) && Acceptable(p, a)
    ensures ReadAnswer(a).value.Answer? && Taken(s, Accept(s, p, ReadAnswer(a).value), p, a)
  {
    var b := ReadAnswer(a).value;
    DecidedIsNotPending(s.derived.pending, p.proposal, TheApproval(s.derived.pending, p.proposal).value,
      b.decision, EventOf(p, b));
  }

  /** The user has saved this decision or this proposal before, under the event e. */
  predicate OwnRow(saved: seq<Row>, decided: EventId, proposal: ProposalId, e: EventId) {
    exists r :: r in saved && r.ours && r.event == e && (e == decided || r.proposal == proposal)
  }

  /**
    The service commits exactly when the decision passes its checks and either the
    user's own earlier commit is found or the transaction goes through; it writes one
    record or, for a replay or a failure, none.
    */
  method CommitService(d: Derived, saved: seq<Row>, stored: bool) returns (c: CommitState, after: seq<Row>)
    ensures c == CommitOutcome(d, saved, stored)
    ensures c.CommittedFor? <==>
              CommitAllowed(d) &&
              var row := SavedRow(saved, d.outcome.event, d.proposal.id);
              if row.Some? then row.value.ours else stored
    ensures !c.CommittedFor? ==> c == CommitFailed && after == saved
    ensures c.CommittedFor? && c.replay ==> after == saved && OwnRow(saved, d.outcome.event, d.proposal.id, c.event)
    ensures c.CommittedFor? && !c.replay ==>
              c.event == d.outcome.event && after == saved + [Row(c.event, d.proposal.id, true)]
  {
    c, after := CommitFailed, saved;
    if !CommitAllowed(d) {
      return;
    }
    var row := SavedRow(saved, d.outcome.event, d.proposal.id);
    SavedRowFits(saved, d.outcome.event, d.proposal.id);
    if row.Some? {
      if row.value.ours {
        c := CommittedFor(row.value.event, true);
      }
      return;
    }
    if stored {
      c, after := CommittedFor(d.outcome.event, false), saved + [Row(d.outcome.event, d.proposal.id, true)];
    }
  }

  /** Only what the service reports is marked: the decided action, and it alone, becomes committed. */
  method CommitDraftNode(s: State, i: Input) returns (t: State)
    ensures t == CommitStep(s, i)
    ensures t.derived.committed == CommitOutcome(s.derived, s.saved, i.stored)
    ensures t == s.(at := FinalResponse, saved := t.saved,
                    derived := s.derived.(committed := t.derived.committed, pending := t.derived.pending))
    ensures if t.derived.committed.CommittedFor?
            then Edited(s.derived.pending, t.derived.pending, s.derived.outcome.action, Stored())
            else t.derived.pending == s.derived.pending && t.saved == s.saved
    ensures t.derived.committed.CommittedFor? ==>
              s.saved <= t.saved && |t.saved| == |s.saved| + (if t.derived.committed.replay then 0 else 1)
  {
    var d := s.derived;
    var committed, saved := CommitService(d, s.saved, i.stored);
    if !committed.CommittedFor? {
      return s.(at := FinalResponse, derived := d.(committed := CommitFailed));
    }
    var pending := MarkActions(d.pending, d.outcome.action, Stored());
    t := s.(at := FinalResponse, saved := saved, derived := d.(committed := committed, pending := pending));
  }

  /** The node cancels exactly when the re-checks hold, a replay exactly when this decision was cancelled before. */
  method CancelNode(s: State) returns (t: State)
    ensures t == CancelStep(s)
    ensures t == s.(at := FinalResponse, change := t.change,
                    derived := s.derived.(cancelled := t.derived.cancelled, pending := t.derived.pending))
    ensures t.derived.cancelled.CancelledBy? <==> CancelAllowed(s.derived)
    ensures var c, d := t.derived.cancelled, s.derived;
            if c.CancelledBy? then
              && c.event == d.outcome.event && t.change.None?
              && (c.replay <==> d.cancelled.CancelledBy? && d.cancelled.event == c.event)
              && Edited(d.pending, t.derived.pending, d.outcome.action, Finalized())
            else t.change == s.change && t.derived.pending == d.pending && c == CancelFailed
  {
    var d := s.derived;
    if !CancelAllowed(d) {
      return s.(at := FinalResponse, derived := d.(cancelled := CancelFailed));
    }
    var replay := d.cancelled.CancelledBy? && d.cancelled.event == d.outcome.event;
    var pending := MarkActions(d.pending, d.outcome.action, Finalized());
    t := s.(at := FinalResponse, change := None,
            derived := d.(cancelled := CancelledBy(d.outcome.event, replay), pending := pending));
  }

  // ------------------------------------------------------------------- the revision

  predicate MayAnalyze(s: State) {
    && s.change.Some? && s.derived.proposal.Doc?
    && s.derived.outcome.Accepted? && s.derived.outcome.decision.RequestChanges?
    && s.derived.outcome.next == RevisionAnalyze
    && Strip(s.change.value.text) != ""
    && !BlankProposal(s.derived.proposal.id) && s.derived.proposal.version >= 1
    && s.change.value.base == s.derived.proposal.id && s.change.value.baseVersion == s.derived.proposal.version
  }

  function AnalyzeStep(s: State, i: Input): State {
    if !MayAnalyze(s) || i.reading.AnalyzerRaised? then
      s.(at := FinalResponse, analysis := AnalysisFailed, applied := ApplyFailed)
    else
      var c := s.change.value;
      if i.reading.Ambiguous? then
        s.(at := FinalResponse, analysis := NeedsClarification(c.base, c.baseVersion), applied := Analyzed)
      else
        s.(at := ApplyRevision, analysis := ReadyPlan(c.base, c.baseVersion, s.request, i.reading.patch),
           applied := Analyzed)
  }

  /** `_validate_plan_base` and the comparison of the request hashes. */
  predicate BaseMatches(s: State) {
    && s.analysis.ReadyPlan?
    && s.derived.proposal.Doc? && s.change.Some?
    && s.derived.proposal.id == s.analysis.base == s.change.value.base
    && s.derived.proposal.version == s.analysis.baseVersion == s.change.value.baseVersion
    && s.request == s.analysis.baseRequest
  }

  predicate Applies(s: State) {
    BaseMatches(s) && R.ApplyPatch(s.request, s.analysis.patch, s.change.value.text).Ok?
  }

  function ApplyStep(s: State): State {
    if Applies(s) then
      State(MissingInfoCheck, R.ApplyPatch(s.request, s.analysis.patch, s.change.value.text).value,
            None, s.analysis, Applied(s.analysis.base, s.analysis.baseVersion), s.history, 0, 0, 0, s.saved, FRESH)
    else s.(at := FinalResponse, applied := ApplyFailed)
  }

  // --------------------------------------------------------------------- the graph

  function Step(cfg: Config, s: State, i: Input): State {
    match s.at
    case InputExtract => Go(s, MissingInfoCheck)
    case MissingInfoCheck => Go(s, if !RequestCheck.Complete(s.request) || i.unclear then Clarify else SafetyCheck)
    case Clarify => Go(s, FinalResponse)
    case SafetyCheck => Go(s, if i.blocked then SafeReject else MemoryRead)
    case SafeReject => Go(s, FinalResponse)
    case MemoryRead => Go(s, PlanningContext)
    case PlanningContext => PlanningContextStep(s, i)
    case ToolPlan => Go(s, ToolExecute)
    case ToolExecute => s.(at := ToolCheck, derived := s.derived.(facts := s.derived.facts.(risks := i.risks)))
    case ToolCheck => ToolCheckStep(cfg, s, i)
    case CandidateRank =>
      s.(at := if i.ranked then BudgetOptimize else FinalResponse, derived := s.derived.(optimum := i.optimum))
    case BudgetOptimize =>
      var f := s.derived.optimum.feasible;
      s.(at := if f then RetrievalPlan else FinalResponse, derived := s.derived.(feasible := f))
    case RetrievalPlan => RetrievalPlanStep(cfg, s)
    case HybridRetrieve => Go(s, Rerank)
    case Rerank => Go(s, EvidenceGrade)
    case EvidenceGrade => EvidenceGradeStep(s, i)
    case Proposal => ProposalStep(s, i)
    case Verifier => VerifierStep(cfg, s, i)
    case DecisionGate => GateStep(s, i)
    case CommitDraft => CommitStep(s, i)
    case RevisionAnalyze => AnalyzeStep(s, i)
    case ApplyRevision => ApplyStep(s)
    case Cancel => CancelStep(s)
    case FinalResponse => Go(s, End)
    case End => s
  }

  /** The edges of the graph, static, conditional and by command. */
  function Successors(n: Node): set<Node> {
    match n
    case InputExtract => {MissingInfoCheck}
    case MissingInfoCheck => {Clarify, SafetyCheck}
    case Clarify => {FinalResponse}
    case SafetyCheck => {SafeReject, MemoryRead}
    case SafeReject => {FinalResponse}
    case MemoryRead => {PlanningContext}
    case PlanningContext => {ToolPlan}
    case ToolPlan => {ToolExecute}
    case ToolExecute => {ToolCheck}
    case ToolCheck => {ToolPlan, ToolExecute, CandidateRank, FinalResponse}
    case CandidateRank => {BudgetOptimize, FinalResponse}
    case BudgetOptimize => {RetrievalPlan, FinalResponse}
    case RetrievalPlan => {HybridRetrieve}
    case HybridRetrieve => {Rerank}
    case Rerank => {EvidenceGrade}
    case EvidenceGrade => {RetrievalPlan, Proposal, FinalResponse}
    case Proposal => {Verifier, FinalResponse}
    case Verifier => {Proposal, RetrievalPlan, BudgetOptimize, DecisionGate, FinalResponse}
    case DecisionGate => {CommitDraft, RevisionAnalyze, Cancel, DecisionGate, FinalResponse}
    case CommitDraft => {FinalResponse}
    case RevisionAnalyze => {ApplyRevision, FinalResponse}
    case ApplyRevision => {MissingInfoCheck, FinalResponse}
    case Cancel => {FinalResponse}
    case FinalResponse => {End}
    case End => {End}
  }

  /** What a node other than gate, analysis and application leaves alone. */
  predicate SameRevision(s: State, t: State) {
    t.request == s.request && t.history == s.history && t.analysis == s.analysis && t.applied == s.applied
  }

  /**
    Whatever the nodes compute, they leave along the edges; only the gate writes the
    history, only an application the request, only analysis and application the plan.
    */
  lemma StepFollowsEdges(cfg: Config, s: State, i: Input)
    ensures var t := Step(cfg, s, i);
            && t.at in Successors(s.at)
            && (s.at.DecisionGate? || t.history == s.history)
            && (s.at.ApplyRevision? || t.request == s.request)
            && (s.at in {DecisionGate, RevisionAnalyze, ApplyRevision} || SameRevision(s, t))
  {
    if s.at.ApplyRevision? {
      ApplyMoves(cfg, s, i);
    } else if s.at.DecisionGate? {
      GateMoves(cfg, s, i);
    } else if s.at.Verifier? {
      VerifierMoves(cfg, s, i);
    } else if s.at in {ToolCheck, RetrievalPlan, EvidenceGrade, Proposal} {
      BranchersMove(cfg, s, i);
    } else if s.at in {CommitDraft, Cancel, RevisionAnalyze} {
      SettlersMove(cfg, s, i);
    } else if s.at in {InputExtract, MissingInfoCheck, Clarify, SafetyCheck, SafeReject, MemoryRead, PlanningContext} {
      IntakeMoves(cfg, s, i);
    } else {
      OthersMove(cfg, s, i);
    }
  }

  lemma ApplyMoves(cfg: Config, s: State, i: Input)
    requires s.at.ApplyRevision?
    ensures var t := Step(cfg, s, i); t.at in {MissingInfoCheck, FinalResponse} && t.history == s.history
  {
  }

  lemma GateMoves(cfg: Config, s: State, i: Input)
    requires s.at.DecisionGate?
    ensures var t := Step(cfg, s, i);
            t.at in {CommitDraft, RevisionAnalyze, Cancel, DecisionGate, FinalResponse} && t.request == s.request
  {
  }

  lemma VerifierMoves(cfg: Config, s: State, i: Input)
    requires s.at.Verifier?
    ensures var t := Step(cfg, s, i);
            && t.at in {Proposal, RetrievalPlan, BudgetOptimize, DecisionGate, FinalResponse} && SameRevision(s, t)
  {
  }

  lemma BranchersMove(cfg: Config, s: State, i: Input)
    requires s.at in {ToolCheck, RetrievalPlan, EvidenceGrade, Proposal}
    ensures var t := Step(cfg, s, i); t.at in Successors(s.at) && SameRevision(s, t)
  {
  }

  lemma SettlersMove(cfg: Config, s: State, i: Input)
    requires s.at in {CommitDraft, Cancel, RevisionAnalyze}
    ensures var t := Step(cfg, s, i);
            && t.at in Successors(s.at) && t.history == s.history && t.request == s.request
            && (s.at.RevisionAnalyze? || SameRevision(s, t))
  {
  }

  lemma IntakeMoves(cfg: Config, s: State, i: Input)
    requires s.at in {InputExtract, MissingInfoCheck, Clarify, SafetyCheck, SafeReject, MemoryRead, PlanningContext}
    ensures var t := Step(cfg, s, i); t.at in Successors(s.at) && SameRevision(s, t)
  {
  }

  lemma OthersMove(cfg: Config, s: State, i: Input)
    requires s.at in {ToolPlan, ToolExecute, CandidateRank, BudgetOptimize, HybridRetrieve, Rerank, FinalResponse, End}
    ensures var t := Step(cfg, s, i); t.at in Successors(s.at) && SameRevision(s, t)
  {
  }
}
