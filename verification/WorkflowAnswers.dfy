/**
  What a person's answer at the gate leads to: which answers are taken, what is written
  down about them, and that the graph can be left by a commit and by a cancellation.
  */
module WorkflowAnswers {
  import opened Prelude
  import opened Approvals
  import opened DraftStore
  import opened Text
  import opened Workflow
  import opened WorkflowSafety
  import opened WorkflowTightness
  import E = EvidenceRepair
  import H = WorkflowHistory
  import R = Revision
  import RequestCheck

  // ------------------------------------------------------------ answers that are taken

  predicate AtMost(text: Option<string>, n: nat) {
    text.Some? ==> |text.value| <= n
  }

  /** Something other than white space has been written. */
  predicate Written(text: Option<string>) {
    text.Some? && exists i :: 0 <= i < |text.value| && !IsSpace(text.value[i])
  }

  /** An answer about the k-th action and the proposal it stands for, with a change exactly when one is asked for. */
  predicate Fits(d: Derived, k: nat, a: Answer)
    requires d.proposal.Doc? && k < |d.pending|
  {
    && a.Answer? && a.proposal == d.proposal.id && a.action == d.pending[k].id
    && AtMost(a.change, 4000) && AtMost(a.reason, 1000) && AtMost(a.client, 200)
    && (a.decision.RequestChanges? <==> Written(a.change))
  }

  lemma WrittenIff(text: Option<string>)
    ensures Written(text) <==> StripOr(text) != ""
  {
    if text.Some? {
      StripBlankIff(text.value);
    }
  }

  /** A person can be asked about the proposal, by its only pending approval. */
  predicate Asks(d: Derived, k: nat) {
    GateReady(d) && SoleApproval(d.pending, d.proposal.id, k) && !BlankAction(d.pending[k].id)
  }

  lemma AsksByPayload(d: Derived, k: nat)
    requires Asks(d, k)
    ensures BuildPayload(d) == Some(Payload(d.pending[k].id, d.proposal.id, d.proposal.version))
  {
    SoleIsFound(d.pending, d.proposal.id);
  }

  lemma TakenIff(d: Derived, k: nat, a: Answer)
    requires Asks(d, k)
    ensures BuildPayload(d).Some? && (Acceptable(BuildPayload(d).value, a) <==> Fits(d, k, a))
  {
    AsksByPayload(d, k);
    if a.Answer? {
      WrittenIff(a.change);
    }
  }

  /**
    The answer is taken exactly when it fits, and the run then goes on to the commit, the
    analysis of the change or the cancellation, as decided; else the person is asked again.
    */
  lemma AnswerIsTakenIff(cfg: Config, s: State, i: Input, k: nat)
    requires s.at.DecisionGate? && Asks(s.derived, k)
    ensures var t := Step(cfg, s, i);
            if Fits(s.derived, k, i.answer) then
              t.at == match i.answer.decision
                      case Approve => CommitDraft
                      case RequestChanges => RevisionAnalyze
                      case CancelPlan => Cancel
            else t.at == DecisionGate && t.history == s.history
  {
    AsksByPayload(s.derived, k);
    TakenIff(s.derived, k, i.answer);
  }

  /** x is what the schema stores of the text: the change without outer white space if there is one. */
  predicate StoredChange(text: Option<string>, x: Option<string>) {
    if Written(text) then x == Some(Strip(text.value)) else x == text
  }

  predicate StoredReason(text: Option<string>, x: Option<string>) {
    if Written(text) then x == Some(Strip(text.value)) else x.None?
  }

  /** What is written down: the event digests the answer as stored, and a change is handed on as written. */
  lemma AnswerIsWrittenDown(cfg: Config, s: State, i: Input, k: nat)
    requires s.at.DecisionGate? && Asks(s.derived, k) && Fits(s.derived, k, i.answer)
    ensures var t, a := Step(cfg, s, i), i.answer;
            && t.derived.outcome.Accepted?
            && (var e := t.derived.outcome.event;
                && e.proposal == a.proposal && e.version == s.derived.proposal.version && e.action == a.action
                && e.decision == a.decision && StoredChange(a.change, e.change) && StoredReason(a.reason, e.reason)
                && e.client == a.client)
            && (t.change.Some? <==> a.decision.RequestChanges?)
            && (t.change.Some? ==> t.change.value.text == Strip(a.change.value))
            && !t.derived.gateError && t.derived.attempts == s.derived.attempts + 1
  {
    AsksByPayload(s.derived, k);
    TakenIff(s.derived, k, i.answer);
    WrittenIff(i.answer.change);
    WrittenIff(i.answer.reason);
    if i.answer.change.Some? {
      StripTwice(i.answer.change.value);
    }
  }

  /** A decided action has the status of its decision, and carries the event. */
  lemma ActionIsDecided(cfg: Config, s: State, i: Input, k: nat)
    requires s.at.DecisionGate? && Asks(s.derived, k) && Fits(s.derived, k, i.answer)
    ensures var t := Step(cfg, s, i);
            && t.derived.outcome.Accepted? && |t.derived.pending| == |s.derived.pending|
            && t.derived.pending[k] == s.derived.pending[k].(
                 status := match i.answer.decision
                           case Approve => Approved
                           case RequestChanges => ChangesRequested
                           case CancelPlan => Cancelled,
                 event := Some(t.derived.outcome.event))
  {
    AsksByPayload(s.derived, k);
    TakenIff(s.derived, k, i.answer);
  }

  // ------------------------------------------------------------- ways out of the graph

  /** The plainest answer that decides about what the gate put to the person. */
  function PlainAnswer(d: Decision, p: Payload): Answer {
    Answer(d, p.proposal, p.action, None, None, None)
  }

  function Deciding(d: Decision, p: Payload): Input {
    Input(false, false, true, false, false, false, true, Optimum(true, true),
          E.Review(E.Needs(false, false), E.Needs(false, false)), None, Findings({}),
          PlainAnswer(d, p), AnalyzerRaised, true)
  }

  lemma GateAsks(w: Session)
    requires AtGate(w)
    ensures Asks(w.state.derived, 0)
    ensures BuildPayload(w.state.derived).Some?
    ensures Fits(w.state.derived, 0, PlainAnswer(Approve, BuildPayload(w.state.derived).value))
    ensures Fits(w.state.derived, 0, PlainAnswer(CancelPlan, BuildPayload(w.state.derived).value))
  {
    GateOpens(w);
    assert SoleApproval(w.state.derived.pending, w.state.derived.proposal.id, 0);
  }

  /** What the gate and the settling nodes leave of a run that stands at the gate. */
  lemma GateState(cfg: Config, request: R.TripRequest, run: seq<Session>, inputs: seq<Input>)
    requires IsRun(cfg, request, run, inputs) && Last(run).state.at.DecisionGate?
    ensures AtGate(Last(run)) && Last(run).state.saved == run[0].state.saved
  {
    LastAgrees(cfg, request, run, inputs);
    H.AlwaysBooks(cfg, request, run, inputs, |run| - 1);
    H.WritesAtMostOnce(cfg, request, run, inputs, |run| - 1);
  }

  lemma DecideStep(cfg: Config, w: Session, d: Decision)
    requires AtGate(w) && w.state.at.DecisionGate? && !d.RequestChanges?
    ensures BuildPayload(w.state.derived).Some?
    ensures var t := Step(cfg, w.state, Deciding(d, BuildPayload(w.state.derived).value));
            t.at == (if d.Approve? then CommitDraft else Cancel) && t.saved == w.state.saved
  {
    GateAsks(w);
    var i := Deciding(d, BuildPayload(w.state.derived).value);
    AnswerIsTakenIff(cfg, w.state, i, 0);
    StepRecords(cfg, w, i);
  }

  /** A run that has just decided, over the records it started with. */
  ghost predicate Decides(cfg: Config, request: R.TripRequest, run: seq<Session>, inputs: seq<Input>, d: Decision) {
    && IsRun(cfg, request, run, inputs)
    && Last(run).state.at == (if d.Approve? then CommitDraft else Cancel)
    && Last(run).state.saved == run[0].state.saved
  }

  lemma Decide(cfg: Config, request: R.TripRequest, run: seq<Session>, inputs: seq<Input>, d: Decision)
    returns (longer: seq<Session>, all: seq<Input>)
    requires IsRun(cfg, request, run, inputs) && Last(run).state.at.DecisionGate? && !d.RequestChanges?
    ensures Decides(cfg, request, longer, all, d) && run <= longer && |longer| == |run| + 1
  {
    GateState(cfg, request, run, inputs);
    DecideStep(cfg, Last(run), d);
    var i := Deciding(d, BuildPayload(Last(run).state.derived).value);
    longer := Extend(cfg, request, run, inputs, i);
    all := inputs + [i];
  }

  /** One more step, in which the transaction goes through. */
  lemma Settle(cfg: Config, request: R.TripRequest, run: seq<Session>, inputs: seq<Input>)
    returns (longer: seq<Session>, all: seq<Input>)
    requires IsRun(cfg, request, run, inputs)
    ensures IsRun(cfg, request, longer, all) && run <= longer && |longer| == |run| + 1
    ensures all[|run| - 1].stored && Last(longer).audit == Observe(Last(run).audit, Last(run).state, Last(longer).state)
  {
    var i := Deciding(Approve, Payload(OtherAction(""), OtherProposal(""), 1));
    longer := Extend(cfg, request, run, inputs, i);
    all := inputs + [i];
  }

  /** Wherever a person is asked, an approval can commit, if nobody else's records stand in the way. */
  lemma EveryGateCanCommit(cfg: Config, request: R.TripRequest, run: seq<Session>, inputs: seq<Input>)
    returns (longer: seq<Session>, all: seq<Input>)
    requires IsRun(cfg, request, run, inputs) && Last(run).state.at.DecisionGate?
    requires forall r | r in run[0].state.saved :: r.ours
    ensures IsRun(cfg, request, longer, all) && run <= longer && |longer| == |run| + 2
    ensures Last(longer).state.derived.committed.CommittedFor? && Last(longer).audit.commits == 1
    ensures run[0].state.saved == [] ==> !Last(longer).state.derived.committed.replay
  {
    var decided, fed := Decide(cfg, request, run, inputs, Approve);
    longer, all := Settle(cfg, request, decided, fed);
    Committed(cfg, request, longer, all, |run|);
    H.AtMostOneEnding(cfg, request, longer, all, |run| + 1);
  }

  lemma Committed(cfg: Config, request: R.TripRequest, run: seq<Session>, inputs: seq<Input>, n: nat)
    requires IsRun(cfg, request, run, inputs) && n < |inputs| && run[n].state.at.CommitDraft? && inputs[n].stored
    requires run[n].state.saved == run[0].state.saved && forall r | r in run[0].state.saved :: r.ours
    ensures run[n + 1].state.derived.committed.CommittedFor?
    ensures run[0].state.saved == [] ==> !run[n + 1].state.derived.committed.replay
  {
    H.CommitIsEntitled(cfg, request, run, inputs, n);
    var d := run[n].state.derived;
    SavedRowFits(run[0].state.saved, d.outcome.event, d.proposal.id);
  }

  /** And a cancellation always goes through. */
  lemma EveryGateCanCancel(cfg: Config, request: R.TripRequest, run: seq<Session>, inputs: seq<Input>)
    returns (longer: seq<Session>, all: seq<Input>)
    requires IsRun(cfg, request, run, inputs) && Last(run).state.at.DecisionGate?
    ensures IsRun(cfg, request, longer, all) && run <= longer && |longer| == |run| + 2
    ensures Last(longer).state.derived.cancelled.CancelledBy?
  {
    var decided, fed := Decide(cfg, request, run, inputs, CancelPlan);
    longer, all := Settle(cfg, request, decided, fed);
    H.CancelNeverFails(cfg, request, longer, all, |run|);
  }

  /** What a first commit over an empty record leaves on record. */
  lemma CommitIsOnRecord(cfg: Config, request: R.TripRequest, run: seq<Session>, inputs: seq<Input>)
    requires IsRun(cfg, request, run, inputs) && run[0].state.saved == [] && Last(run).audit.commits == 1
    requires var c := Last(run).state.derived.committed; c.CommittedFor? && !c.replay
    ensures OnRecord(Last(run).state)
  {
    H.AtMostOneEnding(cfg, request, run, inputs, |run| - 1);
    H.WritesAtMostOnce(cfg, request, run, inputs, |run| - 1);
  }

  /** The committed draft is the only record, and the last decision approved it. */
  predicate OnRecord(s: State) {
    && s.derived.committed.CommittedFor? && s.derived.proposal.Doc?
    && s.saved == [Row(s.derived.committed.event, s.derived.proposal.id, true)]
    && s.history != [] && s.history[|s.history| - 1].decision.Approve?
  }

  /** For every complete request some run ends with an approved draft on record, and no other record. */
  lemma SomeRunCommits(cfg: Config, request: R.TripRequest) returns (run: seq<Session>, inputs: seq<Input>)
    requires RequestCheck.Complete(request)
    ensures IsRun(cfg, request, run, inputs) && OnRecord(Last(run).state)
  {
    var good := Optimum(true, true);
    var first, fed := FirstInvocationIsTight(cfg, request, good, {good});
    run, inputs := EveryGateCanCommit(cfg, request, first, fed);
    CommitIsOnRecord(cfg, request, run, inputs);
  }

  /** And some run ends with its cancellation. */
  lemma SomeRunCancels(cfg: Config, request: R.TripRequest) returns (run: seq<Session>, inputs: seq<Input>)
    requires RequestCheck.Complete(request)
    ensures IsRun(cfg, request, run, inputs)
    ensures Last(run).state.derived.cancelled.CancelledBy?
  {
    var good := Optimum(true, true);
    run, inputs := FirstInvocationIsTight(cfg, request, good, {good});
    run, inputs := EveryGateCanCancel(cfg, request, run, inputs);
  }

  // ------------------------------------------------------------ when a person is asked

  /** The action waits for an approval of the proposal. */
  predicate Waits(a: Action, id: ProposalId) {
    a.kind.ApproveProposal? && a.requiresApproval && a.status.Pending? && a.about == Some(id)
  }

  /** An id that can be shown: one made by the program, or a text that is not blank. */
  predicate Shown(text: string) {
    exists i :: 0 <= i < |text| && !IsSpace(text[i])
  }

  /**
    A person is asked exactly about a proposal that passed and needs approval, whose id is
    not blank, and for which one action waits and no other.
    */
  lemma AskedIff(d: Derived)
    ensures BuildPayload(d).Some? <==>
              && d.verdict.Verdict? && d.verdict.passed && d.verdict.next == DecisionGate && d.verdict.approvalRequired
              && d.proposal.Doc? && d.proposal.version >= 1
              && (d.proposal.id.OtherProposal? ==> Shown(d.proposal.id.text))
              && exists k :: 0 <= k < |d.pending| && Waits(d.pending[k], d.proposal.id)
                             && (d.pending[k].id.OtherAction? ==> Shown(d.pending[k].id.text))
                             && forall j | 0 <= j < |d.pending| && j != k :: !Waits(d.pending[j], d.proposal.id)
  {
    if d.proposal.Doc? {
      SoleIsFound(d.pending, d.proposal.id);
      if d.proposal.id.OtherProposal? {
        StripBlankIff(d.proposal.id.text);
      }
      forall k | 0 <= k < |d.pending| && d.pending[k].id.OtherAction?
        ensures Shown(d.pending[k].id.text) <==> !BlankAction(d.pending[k].id)
      {
        StripBlankIff(d.pending[k].id.text);
      }
      forall k | 0 <= k < |d.pending|
        ensures Waits(d.pending[k], d.proposal.id) <==> AwaitsApproval(d.proposal.id)(d.pending[k])
      {
      }
      if TheApproval(d.pending, d.proposal.id).Some? {
        var k :| SoleApproval(d.pending, d.proposal.id, k);
      }
      if k :| 0 <= k < |d.pending| && Waits(d.pending[k], d.proposal.id)
              && (d.pending[k].id.OtherAction? ==> Shown(d.pending[k].id.text))
              && forall j | 0 <= j < |d.pending| && j != k :: !Waits(d.pending[j], d.proposal.id) {
        assert SoleApproval(d.pending, d.proposal.id, k);
      }
    }
  }

  // ---------------------------------------------------------------- what is promised

  /** Whatever is decided, committed or cancelled is a draft: nothing is booked, paid or announced. */
  lemma OnlyDraftsAreDecided(cfg: Config, request: R.TripRequest, run: seq<Session>, inputs: seq<Input>, n: nat)
    requires IsRun(cfg, request, run, inputs) && n < |run|
    requires run[n].state.at in {DecisionGate, CommitDraft, Cancel, RevisionAnalyze, ApplyRevision}
    ensures var p := run[n].state.derived.proposal;
            p.Doc? && p.boundary.draftOnly && !p.boundary.booked && !p.boundary.paid && !p.boundary.notified
  {
    Always(cfg, request, run, inputs, n);
  }
}
