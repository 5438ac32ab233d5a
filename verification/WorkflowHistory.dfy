/**
  The bookkeeping of every run: what the decision history says about versions and
  revisions, what the request is made of, and that a run ends in one commit, one
  cancellation, or neither. The main results about commit, cancel and revision follow.
  */
module WorkflowHistory {
  import opened Prelude
  import opened Approvals
  import opened Collections
  import opened DraftStore
  import opened Workflow
  import opened WorkflowSafety
  import R = Revision

  /** The k-th accepted decision is about version k + 1; all that led to a revision asked for changes. */
  predicate Entry(patches: seq<(R.Patch, string)>, k: nat, h: HistoryItem) {
    && h.version == k + 1 && h.proposal.ProposalDigest? && h.proposal.version == h.version
    && h.action == ApproveOf(h.proposal)
    && h.event.proposal == h.proposal && h.event.version == h.version
    && h.event.action == h.action && h.event.decision == h.decision
    && (k < |patches| ==> h.decision.RequestChanges? && h.event.change == Some(patches[k].1))
  }

  predicate Entries(patches: seq<(R.Patch, string)>, history: seq<HistoryItem>) {
    forall k | 0 <= k < |history| :: Entry(patches, k, history[k])
  }

  /** One verifier pass for each accepted decision, and one more while a decision is awaited. */
  predicate Tally(w: Session) {
    var s, n := w.state, |w.audit.patches|;
    && w.audit.passes == |s.history| + (if s.at.DecisionGate? then 1 else 0)
    && n <= |s.history| <= n + 1
    && (Drafting(s.at) ==> |s.history| == n)
    && (Settling(s.at) ==> |s.history| == n + 1 && Latest(s))
  }

  /** The last entry is the decision being carried out. */
  predicate Latest(s: State) {
    var d, h := s.derived, s.history;
    && h != [] && d.outcome.Accepted?
    && h[|h| - 1] == HistoryItem(d.outcome.event, d.outcome.proposal, d.outcome.version,
                                 d.outcome.action, d.outcome.decision)
    && (d.outcome.decision.RequestChanges? ==> s.change.Some? && d.outcome.event.change == Some(s.change.value.text))
  }

  /** The decision is on record: saved now under its own event, or found saved before. */
  predicate SavedFor(saved: seq<Row>, c: CommitState, h: HistoryItem) {
    c.CommittedFor? && OwnRow(saved, h.event, h.proposal, c.event) && (!c.replay ==> c.event == h.event)
  }

  /** At most one commit or cancellation, at the very end, of what was decided last. */
  predicate Ending(w: Session) {
    var s, d, h := w.state, w.state.derived, w.state.history;
    && (Drafting(s.at) || Settling(s.at) ==>
          w.audit.commits + w.audit.cancels == 0 && d.committed.NotCommitted? && d.cancelled.NotCancelled?)
    && w.audit.commits + w.audit.cancels <= 1
    && (w.audit.commits == 1 ==>
          s.at in {FinalResponse, End} && h != [] && h[|h| - 1].decision.Approve?
          && SavedFor(s.saved, d.committed, h[|h| - 1]) && DocId(d.proposal) == Some(h[|h| - 1].proposal))
    && (w.audit.cancels == 1 ==>
          s.at in {FinalResponse, End} && h != [] && h[|h| - 1].decision.CancelPlan?
          && d.cancelled == CancelledBy(h[|h| - 1].event, false) && DocId(d.proposal) == Some(h[|h| - 1].proposal))
  }

  /** The extracted request with the patches applied one after the other. */
  function Replay(request: R.TripRequest, patches: seq<(R.Patch, string)>): Result<R.TripRequest, string> {
    if patches == [] then Ok(request)
    else
      var n := |patches| - 1;
      match Replay(request, patches[..n])
      case Err(e) => Err(e)
      case Ok(r) => R.ApplyPatch(r, patches[n].0, patches[n].1)
  }

  predicate Provenance(request: R.TripRequest, patches: seq<(R.Patch, string)>, current: R.TripRequest) {
    Replay(request, patches) == Ok(current)
  }

  predicate Books(request: R.TripRequest, w: Session) {
    && Entries(w.audit.patches, w.state.history)
    && Provenance(request, w.audit.patches, w.state.request)
    && Tally(w) && Ending(w)
  }

  // ----------------------------------------------------------------- preservation

  /** A step other than those that settle a decision. */
  predicate Ordinary(s: State, t: State) {
    && s.at !in {DecisionGate, CommitDraft, Cancel, ApplyRevision, RevisionAnalyze}
    && t.at in Successors(s.at) && SameRevision(s, t)
    && t.derived.committed == s.derived.committed && t.derived.cancelled == s.derived.cancelled
    && t.saved == s.saved && (Drafting(s.at) || t.derived.proposal == s.derived.proposal)
  }

  lemma IntakeEnds(cfg: Config, s: State, i: Input)
    requires s.at in {InputExtract, MissingInfoCheck, SafetyCheck, MemoryRead, PlanningContext, ToolPlan, ToolExecute,
                      CandidateRank, HybridRetrieve, Rerank}
    ensures var t := Step(cfg, s, i);
            t.derived.committed == s.derived.committed && t.derived.cancelled == s.derived.cancelled
  {
  }

  lemma DraftingEnds(cfg: Config, s: State, i: Input)
    requires s.at in {ToolCheck, BudgetOptimize, RetrievalPlan, EvidenceGrade, Proposal, Verifier}
    ensures var t := Step(cfg, s, i);
            t.derived.committed == s.derived.committed && t.derived.cancelled == s.derived.cancelled
  {
  }

  lemma OrdinaryEnds(cfg: Config, s: State, i: Input)
    requires s.at !in {DecisionGate, CommitDraft, Cancel, ApplyRevision, RevisionAnalyze}
    ensures var t := Step(cfg, s, i);
            && t.derived.committed == s.derived.committed && t.derived.cancelled == s.derived.cancelled
            && (Drafting(s.at) || t.derived.proposal == s.derived.proposal)
  {
    if s.at in {ToolCheck, BudgetOptimize, RetrievalPlan, EvidenceGrade, Proposal, Verifier} {
      DraftingEnds(cfg, s, i);
    } else if Drafting(s.at) {
      IntakeEnds(cfg, s, i);
    }
  }

  lemma OthersSaveNothing(cfg: Config, s: State, i: Input)
    requires !s.at.CommitDraft?
    ensures Step(cfg, s, i).saved == s.saved
  {
  }

  lemma OrdinaryFrame(cfg: Config, s: State, i: Input)
    requires s.at !in {DecisionGate, CommitDraft, Cancel, ApplyRevision, RevisionAnalyze}
    ensures Ordinary(s, Step(cfg, s, i))
  {
    StepFollowsEdges(cfg, s, i);
    OrdinaryEnds(cfg, s, i);
    OthersSaveNothing(cfg, s, i);
  }

  lemma OrdinaryTally(w: Session, t: State)
    requires Tally(w) && Ordinary(w.state, t)
    ensures var next := Session(t, Observe(w.audit, w.state, t)); Tally(next) && next.audit.patches == w.audit.patches
  {
  }

  lemma OrdinaryEnding(w: Session, t: State)
    requires Ending(w) && Ordinary(w.state, t)
    ensures Ending(Session(t, Observe(w.audit, w.state, t)))
  {
  }

  /** At the gate: either nothing is decided, or the decision is the next entry. */
  lemma GateTally(w: Session, t: State)
    requires Tally(w) && Ending(w) && w.state.at.DecisionGate? && Recorded(w.state, t)
    ensures var next := Session(t, Observe(w.audit, w.state, t));
            Tally(next) && Ending(next) && next.audit.patches == w.audit.patches
  {
  }

  lemma GateEntries(w: Session, t: State)
    requires Entries(w.audit.patches, w.state.history) && Endorsed(w) && |w.state.history| == |w.audit.patches|
    requires Recorded(w.state, t)
    ensures Entries(w.audit.patches, t.history)
  {
    forall k | 0 <= k < |t.history|
      ensures Entry(w.audit.patches, k, t.history[k])
    {
      if k < |w.state.history| {
        assert t.history[k] == w.state.history[k];
      }
    }
  }

  lemma GateBooks(request: R.TripRequest, w: Session, t: State)
    requires AtGate(w) && Books(request, w) && w.state.at.DecisionGate? && Recorded(w.state, t)
    ensures Books(request, Session(t, Observe(w.audit, w.state, t)))
  {
    GateTally(w, t);
    GateEntries(w, t);
  }

  lemma OnlyAction(a: Action)
    ensures TheAction([a], a.id) == Some(a)
  {
    assert HasId(a.id)(a) && [a][1..] == [];
    assert Filter([a], HasId(a.id)) == [a];
  }

  /** An approved decision always passes the commit's own checks: only the database can refuse it. */
  lemma CommitStands(w: Session, i: Input)
    requires Settled(w) && w.state.at.CommitDraft?
    ensures CommitAllowed(w.state.derived)
    ensures var t, d := CommitStep(w.state, i), w.state.derived;
            && t.at.FinalResponse? && SameRevision(w.state, t)
            && t.derived.proposal == d.proposal && t.derived.cancelled == d.cancelled
            && t.derived.committed == CommitOutcome(d, w.state.saved, i.stored)
  {
    OnlyAction(w.state.derived.pending[0]);
  }

  /** What a commit reports is on record afterwards. */
  lemma CommitSaves(s: State, i: Input)
    requires CommitAllowed(s.derived)
    ensures var t, d := CommitStep(s, i), s.derived;
            && t.saved == s.saved + (if t.derived.committed.CommittedFor? && !t.derived.committed.replay
                                     then [Row(d.outcome.event, d.proposal.id, true)] else [])
            && (t.derived.committed.CommittedFor? ==>
                  && OwnRow(t.saved, d.outcome.event, d.proposal.id, t.derived.committed.event)
                  && (!t.derived.committed.replay ==> t.derived.committed.event == d.outcome.event))
            && (!t.derived.committed.CommittedFor? ==> t.derived.committed.CommitFailed?)
  {
    var d := s.derived;
    SavedRowFits(s.saved, d.outcome.event, d.proposal.id);
    var row := Row(d.outcome.event, d.proposal.id, true);
    assert row in s.saved + [row];
  }

  /** A cancellation never fails its re-checks. */
  lemma CancelStands(w: Session)
    requires Settled(w) && w.state.at.Cancel?
    ensures CancelAllowed(w.state.derived)
    ensures var t, d := CancelStep(w.state), w.state.derived;
            && t.at.FinalResponse? && SameRevision(w.state, t)
            && t.derived.proposal == d.proposal && t.derived.committed == d.committed
            && (d.cancelled.NotCancelled? ==> t.derived.cancelled == CancelledBy(d.outcome.event, false))
  {
    OnlyAction(w.state.derived.pending[0]);
  }

  lemma CommitEnds(w: Session, t: State)
    requires Tally(w) && Ending(w) && Settled(w) && w.state.at.CommitDraft?
    requires t.at.FinalResponse? && SameRevision(w.state, t) && t.derived.proposal == w.state.derived.proposal
    requires t.derived.cancelled == w.state.derived.cancelled
    requires t.derived.committed.CommittedFor? || t.derived.committed.CommitFailed?
    requires t.derived.committed.CommittedFor? ==>
               SavedFor(t.saved, t.derived.committed, w.state.history[|w.state.history| - 1])
    ensures var next := Session(t, Observe(w.audit, w.state, t));
            Tally(next) && Ending(next) && next.audit.patches == w.audit.patches
  {
  }

  lemma CancelEnds(w: Session, t: State)
    requires Tally(w) && Ending(w) && Settled(w) && w.state.at.Cancel?
    requires t.at.FinalResponse? && SameRevision(w.state, t) && t.derived.proposal == w.state.derived.proposal
    requires t.derived.committed == w.state.derived.committed
    requires t.derived.cancelled == CancelledBy(w.state.derived.outcome.event, false)
    ensures var next := Session(t, Observe(w.audit, w.state, t));
            Tally(next) && Ending(next) && next.audit.patches == w.audit.patches
  {
  }

  lemma AnalyzeFrame(s: State, i: Input)
    ensures var t := AnalyzeStep(s, i);
            && t.at in {ApplyRevision, FinalResponse} && t.history == s.history && t.request == s.request
            && t.change == s.change && t.derived == s.derived
  {
  }

  lemma AnalyzeGoes(w: Session, t: State)
    requires Tally(w) && Ending(w) && w.state.at.RevisionAnalyze?
    requires t.at in {ApplyRevision, FinalResponse} && t.history == w.state.history && t.change == w.state.change
    requires t.derived == w.state.derived
    ensures var next := Session(t, Observe(w.audit, w.state, t));
            Tally(next) && Ending(next) && next.audit.patches == w.audit.patches
  {
  }

  // ------------------------------------------------------------- applied revisions

  /** The patch and the request of the outcome are all an application writes outside the derived state. */
  lemma ApplyFrame(s: State)
    requires s.at.ApplyRevision?
    ensures var t := ApplyStep(s);
            && t.history == s.history && t.change == (if Applies(s) then None else s.change)
            && (Applies(s) ==> t.at.MissingInfoCheck? && t.derived == FRESH
                               && Ok(t.request) == R.ApplyPatch(s.request, s.analysis.patch, s.change.value.text))
            && (!Applies(s) ==> t.at.FinalResponse? && t.request == s.request && t.derived == s.derived)
  {
  }

  lemma FailedApplyBooks(w: Session, t: State)
    requires Tally(w) && Ending(w) && w.state.at.ApplyRevision?
    requires t.at.FinalResponse? && t.history == w.state.history && t.derived == w.state.derived
    ensures var next := Session(t, Observe(w.audit, w.state, t));
            Tally(next) && Ending(next) && next.audit.patches == w.audit.patches
  {
  }

  lemma AppliedTally(w: Session, t: State)
    requires Tally(w) && Ending(w) && Settled(w) && w.state.at.ApplyRevision?
    requires t.at.MissingInfoCheck? && t.history == w.state.history && t.derived == FRESH
    ensures var next := Session(t, Observe(w.audit, w.state, t));
            && Tally(next) && Ending(next)
            && next.audit.patches == w.audit.patches + [(w.state.analysis.patch, w.state.change.value.text)]
  {
  }

  lemma AppliedEntries(w: Session)
    requires Tally(w) && Settled(w) && w.state.at.ApplyRevision?
    requires Entries(w.audit.patches, w.state.history)
    ensures Entries(w.audit.patches + [(w.state.analysis.patch, w.state.change.value.text)], w.state.history)
  {
    var ps := w.audit.patches + [(w.state.analysis.patch, w.state.change.value.text)];
    forall k | 0 <= k < |w.state.history|
      ensures Entry(ps, k, w.state.history[k])
    {
      assert Entry(w.audit.patches, k, w.state.history[k]);
      if k < |w.audit.patches| {
        assert ps[k] == w.audit.patches[k];
      }
    }
  }

  lemma ReplayOne(request: R.TripRequest, patches: seq<(R.Patch, string)>, now: R.TripRequest,
                  x: (R.Patch, string), after: R.TripRequest)
    requires Provenance(request, patches, now) && R.ApplyPatch(now, x.0, x.1) == Ok(after)
    ensures Provenance(request, patches + [x], after)
  {
    assert (patches + [x])[..|patches|] == patches;
  }

  lemma ApplyBooks(request: R.TripRequest, w: Session, t: State)
    requires Books(request, w) && Settled(w) && w.state.at.ApplyRevision? && t == ApplyStep(w.state)
    ensures Books(request, Session(t, Observe(w.audit, w.state, t)))
  {
    ApplyFrame(w.state);
    if Applies(w.state) {
      AppliedTally(w, t);
      AppliedEntries(w);
      ReplayOne(request, w.audit.patches, w.state.request,
        (w.state.analysis.patch, w.state.change.value.text), t.request);
    } else {
      FailedApplyBooks(w, t);
    }
  }

  lemma SettlingBooks(cfg: Config, request: R.TripRequest, w: Session, i: Input)
    requires Books(request, w) && Settled(w) && Settling(w.state.at)
    ensures Books(request, Advance(cfg, w, i))
  {
    var t := Step(cfg, w.state, i);
    if w.state.at.CommitDraft? {
      CommitStands(w, i);
      CommitSaves(w.state, i);
      CommitEnds(w, t);
    } else if w.state.at.Cancel? {
      CancelStands(w);
      CancelEnds(w, t);
    } else if w.state.at.RevisionAnalyze? {
      AnalyzeFrame(w.state, i);
      AnalyzeGoes(w, t);
    } else {
      ApplyBooks(request, w, t);
    }
  }

  lemma OrdinaryBooks(request: R.TripRequest, w: Session, t: State)
    requires Books(request, w) && Ordinary(w.state, t)
    ensures Books(request, Session(t, Observe(w.audit, w.state, t)))
  {
    OrdinaryTally(w, t);
    OrdinaryEnding(w, t);
  }

  lemma DecisionBooks(cfg: Config, request: R.TripRequest, w: Session, i: Input)
    requires AtGate(w) && Books(request, w) && w.state.at.DecisionGate?
    ensures Books(request, Advance(cfg, w, i))
  {
    StepRecords(cfg, w, i);
    GateBooks(request, w, Step(cfg, w.state, i));
  }

  lemma BooksKept(cfg: Config, request: R.TripRequest, w: Session, i: Input)
    requires Inv(cfg, w) && Books(request, w)
    ensures Books(request, Advance(cfg, w, i))
  {
    if Settling(w.state.at) {
      SettlingBooks(cfg, request, w, i);
    } else if w.state.at.DecisionGate? {
      DecisionBooks(cfg, request, w, i);
    } else {
      OrdinaryFrame(cfg, w.state, i);
      OrdinaryBooks(request, w, Step(cfg, w.state, i));
    }
  }

  lemma NextBooks(cfg: Config, request: R.TripRequest, run: seq<Session>, inputs: seq<Input>, n: nat)
    requires IsRun(cfg, request, run, inputs) && n < |inputs| && Books(request, run[n])
    ensures Books(request, run[n + 1])
  {
    Always(cfg, request, run, inputs, n);
    BooksKept(cfg, request, run[n], inputs[n]);
    assert run[n + 1] == Advance(cfg, run[n], inputs[n]);
  }

  /** So does the bookkeeping. */
  lemma {:induction false} AlwaysBooks(cfg: Config, request: R.TripRequest, run: seq<Session>, inputs: seq<Input>,
                                      n: nat)
    requires IsRun(cfg, request, run, inputs) && n < |run|
    ensures Books(request, run[n])
  {
    if n > 0 {
      AlwaysBooks(cfg, request, run, inputs, n - 1);
      NextBooks(cfg, request, run, inputs, n - 1);
    } else {
      StartBooks(request, run[0].state.saved);
    }
  }

  lemma StartBooks(request: R.TripRequest, saved: seq<Row>)
    ensures Books(request, Start(request, saved))
  {
  }

  // ----------------------------------------------------------------- main results

  /**
    Whenever commit is entered, every check of the commit service holds: the accepted
    approval names the current proposal and version, its action carries it, and the
    verifier passed exactly that proposal. What is on record and the database decide.
    */
  lemma CommitIsEntitled(cfg: Config, request: R.TripRequest, run: seq<Session>, inputs: seq<Input>, n: nat)
    requires IsRun(cfg, request, run, inputs) && n < |inputs| && run[n].state.at.CommitDraft?
    ensures var d := run[n].state.derived;
            && CommitAllowed(d)
            && var row := SavedRow(run[n].state.saved, d.outcome.event, d.proposal.id);
               run[n + 1].state.derived.committed ==
                 if row.Some? then if row.value.ours then CommittedFor(row.value.event, true) else CommitFailed
                 else if inputs[n].stored then CommittedFor(d.outcome.event, false) else CommitFailed
  {
    Always(cfg, request, run, inputs, n);
    CommitGoes(cfg, run[n], inputs[n]);
  }

  lemma CommitGoes(cfg: Config, w: Session, i: Input)
    requires Settled(w) && w.state.at.CommitDraft?
    ensures var d := w.state.derived;
            && CommitAllowed(d)
            && Step(cfg, w.state, i).derived.committed == CommitOutcome(d, w.state.saved, i.stored)
  {
    CommitStands(w, i);
    CommitIsStep(cfg, w.state, i);
  }

  lemma CommitIsStep(cfg: Config, s: State, i: Input)
    requires s.at.CommitDraft?
    ensures Step(cfg, s, i) == CommitStep(s, i)
  {
  }

  lemma CancelGoes(cfg: Config, w: Session, i: Input)
    requires Settled(w) && w.state.at.Cancel? && w.state.derived.cancelled.NotCancelled?
    ensures var d := w.state.derived;
            CancelAllowed(d) && Step(cfg, w.state, i).derived.cancelled == CancelledBy(d.outcome.event, false)
  {
    CancelStands(w);
  }

  /** Whenever cancel is entered, its re-checks hold and the cancellation goes through as a first one. */
  lemma CancelNeverFails(cfg: Config, request: R.TripRequest, run: seq<Session>, inputs: seq<Input>, n: nat)
    requires IsRun(cfg, request, run, inputs) && n < |inputs| && run[n].state.at.Cancel?
    ensures var d := run[n].state.derived;
            CancelAllowed(d) && run[n + 1].state.derived.cancelled == CancelledBy(d.outcome.event, false)
  {
    Always(cfg, request, run, inputs, n);
    AlwaysBooks(cfg, request, run, inputs, n);
    CancelGoes(cfg, run[n], inputs[n]);
  }

  /** The version at the gate is one more than the number of applied revisions, whatever was repaired in between. */
  lemma VersionAtGate(cfg: Config, request: R.TripRequest, run: seq<Session>, inputs: seq<Input>, n: nat)
    requires IsRun(cfg, request, run, inputs) && n < |run| && run[n].state.at.DecisionGate?
    ensures var w := run[n];
            && BuildPayload(w.state.derived).Some?
            && BuildPayload(w.state.derived).value.version == 1 + |w.audit.patches|
            && DocId(w.state.derived.proposal) == Some(BuildPayload(w.state.derived).value.proposal)
            && w.state.derived.verdict.about == Some(BuildPayload(w.state.derived).value.proposal)
  {
    Always(cfg, request, run, inputs, n);
    GateOpens(run[n]);
  }

  /**
    No action is decided twice, and none without its own verifier pass: passes and
    decisions alternate, and the decided proposals are the versions 1, 2, ... in order.
    */
  lemma DecisionsAreDistinct(cfg: Config, request: R.TripRequest, run: seq<Session>, inputs: seq<Input>,
                             n: nat, j: nat, k: nat)
    requires IsRun(cfg, request, run, inputs) && n < |run| && j < k < |run[n].state.history|
    ensures var w := run[n];
            && w.audit.passes == |w.state.history| + (if w.state.at.DecisionGate? then 1 else 0)
            && w.state.history[k].version == k + 1
            && w.state.history[j].decision.RequestChanges?
            && w.state.history[j].action != w.state.history[k].action
            && w.state.history[j].event != w.state.history[k].event
  {
    AlwaysBooks(cfg, request, run, inputs, n);
    var w := run[n];
    assert Entry(w.audit.patches, j, w.state.history[j]) && Entry(w.audit.patches, k, w.state.history[k]);
  }

  /**
    The request is the extracted one with each accepted change applied exactly once, in
    order; a relative increment is never applied twice.
    */
  lemma RequestIsReplayed(cfg: Config, request: R.TripRequest, run: seq<Session>, inputs: seq<Input>, n: nat, k: nat)
    requires IsRun(cfg, request, run, inputs) && n < |run| && k < |run[n].audit.patches|
    ensures var w := run[n];
            && Replay(request, w.audit.patches) == Ok(w.state.request)
            && k < |w.state.history| && w.state.history[k].event.change == Some(w.audit.patches[k].1)
  {
    AlwaysBooks(cfg, request, run, inputs, n);
    assert Entry(run[n].audit.patches, k, run[n].state.history[k]);
  }

  /** In a run the base checks hold, so an application succeeds exactly when the patch itself applies. */
  lemma ApplicationSucceedsIff(cfg: Config, request: R.TripRequest, run: seq<Session>, inputs: seq<Input>, n: nat)
    requires IsRun(cfg, request, run, inputs) && n < |inputs| && run[n].state.at.ApplyRevision?
    ensures var s := run[n].state;
            && BaseMatches(s)
            && (run[n + 1].state.applied.Applied? <==>
                  R.ApplyPatch(s.request, s.analysis.patch, s.change.value.text).Ok?)
  {
    Always(cfg, request, run, inputs, n);
    ApplicationOutcome(cfg, run[n].state, inputs[n]);
  }

  lemma ApplicationOutcome(cfg: Config, s: State, i: Input)
    requires s.at.ApplyRevision?
    ensures Step(cfg, s, i).applied.Applied? <==> Applies(s)
  {
  }

  /** All or nothing, at most once: after a success everything derived is gone and the plan no longer applies. */
  lemma AppliesAtMostOnce(s: State)
    requires s.at.ApplyRevision?
    ensures var t := ApplyStep(s);
            if Applies(s) then
              && t.derived == FRESH && t.change.None? && t.budgetRetry == t.ragRetry == t.proposalRetry == 0
              && !Applies(t.(at := ApplyRevision))
              && ApplyStep(t.(at := ApplyRevision)) == t.(at := FinalResponse, applied := ApplyFailed)
            else t == s.(at := FinalResponse, applied := ApplyFailed)
  {
    ApplyFrame(s);
  }

  /** A run has at most one commit or cancellation, of the proposal decided last, and nothing follows it. */
  lemma AtMostOneEnding(cfg: Config, request: R.TripRequest, run: seq<Session>, inputs: seq<Input>, n: nat)
    requires IsRun(cfg, request, run, inputs) && n < |run|
    ensures var w := run[n];
            && w.audit.commits + w.audit.cancels <= 1
            && (w.audit.commits == 1 ==>
                  && w.state.history != []
                  && var last := w.state.history[|w.state.history| - 1];
                  && last.decision.Approve? && DocId(w.state.derived.proposal) == Some(last.proposal)
                  && SavedFor(w.state.saved, w.state.derived.committed, last))
            && (w.audit.commits + w.audit.cancels == 1 ==> w.state.at in {FinalResponse, End})
  {
    AlwaysBooks(cfg, request, run, inputs, n);
  }

  // --------------------------------------------------------------------- replays

  lemma FinalizedTwice(actions: seq<Action>, id: ActionId)
    ensures Mark(Mark(actions, id, Finalized()), id, Finalized()) == Mark(actions, id, Finalized())
  {
  }

  lemma StoredTwice(actions: seq<Action>, id: ActionId)
    ensures Mark(Mark(actions, id, Stored()), id, Stored()) == Mark(actions, id, Stored())
  {
  }

  /** Cancelling again is recognised as a replay and changes nothing else. */
  lemma CancelReplays(s: State)
    requires s.at.Cancel? && CancelAllowed(s.derived)
    ensures var t := CancelStep(s);
            CancelStep(t.(at := Cancel)) ==
            t.(derived := t.derived.(cancelled := CancelledBy(s.derived.outcome.event, true)))
  {
    MarkedAction(s.derived.pending, s.derived.outcome.action, Finalized());
    FinalizedTwice(s.derived.pending, s.derived.outcome.action);
  }

  /** What is on record for a commit that went through. */
  lemma CommittedIsFound(s: State, i: Input)
    requires CommitAllowed(s.derived) && CommitStep(s, i).derived.committed.CommittedFor?
    ensures var t, d := CommitStep(s, i), s.derived;
            var row := SavedRow(t.saved, d.outcome.event, d.proposal.id);
            row.Some? && row.value.ours && row.value.event == t.derived.committed.event
  {
    var d := s.derived;
    if SavedRow(s.saved, d.outcome.event, d.proposal.id).None? {
      WrittenIsFound(s.saved, d.outcome.event, d.proposal.id);
    }
  }

  lemma CommittedStillAllowed(s: State, i: Input)
    requires CommitAllowed(s.derived) && CommitStep(s, i).derived.committed.CommittedFor?
    ensures CommitAllowed(CommitStep(s, i).derived)
  {
    MarkedAction(s.derived.pending, s.derived.outcome.action, Stored());
  }

  /**
    Committing again, as a replay of the checkpoint would, is recognised and needs no
    transaction: it reports a replay, writes no record and changes nothing else.
    */
  lemma CommitReplays(s: State, i: Input, again: Input)
    requires s.at.CommitDraft? && CommitStep(s, i).derived.committed.CommittedFor?
    ensures var t := CommitStep(s, i);
            CommitStep(t.(at := CommitDraft), again) ==
            t.(derived := t.derived.(committed := CommittedFor(t.derived.committed.event, true)))
  {
    CommittedIsFound(s, i);
    CommittedStillAllowed(s, i);
    StoredTwice(s.derived.pending, s.derived.outcome.action);
  }

  // ------------------------------------------------------------- what is written

  /** The record this run has written. */
  function Written(s: State): seq<Row> {
    var c := s.derived.committed;
    if c.CommittedFor? && !c.replay && s.derived.proposal.Doc? then [Row(c.event, s.derived.proposal.id, true)] else []
  }

  /** From s to t exactly the difference of what was written is added. */
  predicate Adds(s: State, t: State) {
    if s.at in {FinalResponse, End, Clarify, SafeReject} then t.saved == s.saved && Written(t) == Written(s)
    else Written(s) == [] && t.saved == s.saved + Written(t)
  }

  lemma CommitAdds(w: Session, i: Input)
    requires Settled(w) && w.state.at.CommitDraft? && w.state.derived.committed.NotCommitted?
    ensures Adds(w.state, CommitStep(w.state, i))
  {
    CommitStands(w, i);
    CommitSaves(w.state, i);
  }

  /** Nodes that carry on a decision without committing it leave the record and what decides it alone. */
  lemma OthersAdd(s: State, t: State)
    requires s.derived.committed.NotCommitted? && t.saved == s.saved && t.derived.committed.NotCommitted?
    requires s.at !in {FinalResponse, End, Clarify, SafeReject}
    ensures Adds(s, t)
  {
  }

  lemma CarriersKeep(w: Session, cfg: Config, i: Input)
    requires Settled(w) && w.state.at in {Cancel, RevisionAnalyze, ApplyRevision}
             && w.state.derived.committed.NotCommitted?
    ensures Step(cfg, w.state, i).derived.committed.NotCommitted?
  {
    if w.state.at.Cancel? {
      CancelStands(w);
    }
  }

  lemma SettlingAdds(cfg: Config, w: Session, i: Input)
    requires Settled(w) && Settling(w.state.at) && w.state.derived.committed.NotCommitted?
    ensures Adds(w.state, Step(cfg, w.state, i))
  {
    if w.state.at.CommitDraft? {
      CommitAdds(w, i);
      CommitIsStep(cfg, w.state, i);
    } else {
      CarriersKeep(w, cfg, i);
      OthersSaveNothing(cfg, w.state, i);
      OthersAdd(w.state, Step(cfg, w.state, i));
    }
  }

  lemma StepAdds(cfg: Config, request: R.TripRequest, w: Session, i: Input)
    requires Inv(cfg, w) && Books(request, w)
    ensures Adds(w.state, Step(cfg, w.state, i))
  {
    if Settling(w.state.at) {
      SettlingAdds(cfg, w, i);
    } else if w.state.at.DecisionGate? {
      StepRecords(cfg, w, i);
    } else {
      OrdinaryFrame(cfg, w.state, i);
    }
  }

  lemma StepSavesOnce(cfg: Config, s: State, i: Input)
    requires SavedOnce(s.saved)
    ensures SavedOnce(Step(cfg, s, i).saved)
  {
    if s.at.CommitDraft? {
      var d := s.derived;
      if CommitOutcome(d, s.saved, i.stored).CommittedFor? && SavedRow(s.saved, d.outcome.event, d.proposal.id).None? {
        WrittenOnce(s.saved, d.outcome.event, d.proposal.id);
      }
    } else {
      OthersSaveNothing(cfg, s, i);
    }
  }

  lemma WritesStep(cfg: Config, request: R.TripRequest, base: seq<Row>, w: Session, i: Input)
    requires Inv(cfg, w) && Books(request, w) && w.state.saved == base + Written(w.state)
    requires SavedOnce(base) ==> SavedOnce(w.state.saved)
    ensures var t := Advance(cfg, w, i).state;
            t.saved == base + Written(t) && (SavedOnce(base) ==> SavedOnce(t.saved))
  {
    StepAdds(cfg, request, w, i);
    if SavedOnce(base) {
      StepSavesOnce(cfg, w.state, i);
    }
  }

  /**
    A run writes its own committed proposal's record, once, or nothing at all; and no
    decision and no proposal ever gets a second record.
    */
  lemma {:induction false} WritesAtMostOnce(cfg: Config, request: R.TripRequest, run: seq<Session>, inputs: seq<Input>,
                                           n: nat)
    requires IsRun(cfg, request, run, inputs) && n < |run|
    ensures run[n].state.saved == run[0].state.saved + Written(run[n].state)
    ensures SavedOnce(run[0].state.saved) ==> SavedOnce(run[n].state.saved)
  {
    if n == 0 {
    } else {
      WritesAtMostOnce(cfg, request, run, inputs, n - 1);
      Always(cfg, request, run, inputs, n - 1);
      AlwaysBooks(cfg, request, run, inputs, n - 1);
      WritesStep(cfg, request, run[0].state.saved, run[n - 1], inputs[n - 1]);
    }
  }

  // ------------------------------------------------------------- nothing is skipped

  /** The main chain of the graph. */
  const CHAIN := [MissingInfoCheck, SafetyCheck, MemoryRead, PlanningContext, ToolPlan, ToolExecute, ToolCheck,
                  CandidateRank, BudgetOptimize, RetrievalPlan, HybridRetrieve, Rerank, EvidenceGrade,
                  Proposal, Verifier, DecisionGate]

  /** How much of the chain lies before the node on every path to it. */
  function Depth(n: Node): (k: nat)
    ensures k <= |CHAIN|
    ensures k < |CHAIN| ==> n == CHAIN[k] || k == 0
  {
    match n
    case SafetyCheck => 1
    case MemoryRead => 2
    case PlanningContext => 3
    case ToolPlan => 4
    case ToolExecute => 5
    case ToolCheck => 6
    case CandidateRank => 7
    case BudgetOptimize => 8
    case RetrievalPlan => 9
    case HybridRetrieve => 10
    case Rerank => 11
    case EvidenceGrade => 12
    case Proposal => 13
    case Verifier => 14
    case DecisionGate => 15
    case CommitDraft => 16
    case Cancel => 16
    case RevisionAnalyze => 16
    case ApplyRevision => 16
    case _ => 0
  }

  /** No edge skips a node of the chain. */
  lemma EdgesDescendOneByOne(m: Node, n: Node)
    requires n in Successors(m)
    ensures Depth(n) <= Depth(m) || (Depth(m) < |CHAIN| && m == CHAIN[Depth(m)] && Depth(n) == Depth(m) + 1)
  {
  }

  lemma SinceGrows(w: Session, t: State, k: nat)
    requires k < Depth(t.at) && (w.state.at == CHAIN[k] || CHAIN[k] in w.audit.since)
    ensures CHAIN[k] in Observe(w.audit, w.state, t).since
  {
  }

  /** All nodes of the chain before the present one have run. */
  ghost predicate Visited(w: Session) {
    forall k: nat | k < Depth(w.state.at) :: CHAIN[k] in w.audit.since
  }

  lemma VisitedStep(cfg: Config, w: Session, i: Input)
    requires Visited(w)
    ensures Visited(Advance(cfg, w, i))
  {
    var t := Step(cfg, w.state, i);
    StepFollowsEdges(cfg, w.state, i);
    EdgesDescendOneByOne(w.state.at, t.at);
    forall k: nat | k < Depth(t.at)
      ensures CHAIN[k] in Observe(w.audit, w.state, t).since
    {
      SinceGrows(w, t, k);
    }
  }

  lemma {:induction false} AlwaysVisited(cfg: Config, request: R.TripRequest, run: seq<Session>, inputs: seq<Input>,
                                         n: nat)
    requires IsRun(cfg, request, run, inputs) && n < |run|
    ensures Visited(run[n])
  {
    if n == 0 {
    } else {
      AlwaysVisited(cfg, request, run, inputs, n - 1);
      VisitedStep(cfg, run[n - 1], inputs[n - 1]);
    }
  }

  /**
    Wherever a run stands, everything that lies before that node has been executed since
    the last applied revision: a revised trip reaches commit only through a new safety
    check, new tool calls, a new proposal, a new verifier pass and a new decision.
    */
  lemma NothingIsSkipped(cfg: Config, request: R.TripRequest, run: seq<Session>, inputs: seq<Input>, n: nat, k: nat)
    requires IsRun(cfg, request, run, inputs) && n < |run| && k < Depth(run[n].state.at)
    ensures CHAIN[k] in run[n].audit.since
  {
    AlwaysVisited(cfg, request, run, inputs, n);
  }
}
