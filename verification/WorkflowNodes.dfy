/** What single nodes of the graph decide, in terms of the state they find. */
module WorkflowNodes {
  import opened Prelude
  import opened Collections
  import opened Approvals
  import opened DraftStore
  import opened Text
  import opened Workflow
  import R = Revision

  /**
    A required call the registry refuses is planned again while plan retries are left, and
    then ends the run; an issue alone is no reason to end it; a failed call is executed
    again while execute retries are left.
    */
  lemma ToolCheckGoes(cfg: Config, s: State, i: Input)
    requires s.at.ToolCheck?
    ensures var t, d := Step(cfg, s, i), s.derived;
            var plan := d.planRetry < cfg.tools.planRetries && (!d.covered || i.needsReplan);
            var execute := !plan && d.covered && i.requiredFailed && d.executeRetry < cfg.tools.executeRetries;
            && (t.at.ToolPlan? <==> plan)
            && (t.at.ToolExecute? <==> execute)
            && (t.at.CandidateRank? <==> !plan && d.covered && !i.requiredFailed)
            && t.derived.planRetry == d.planRetry + (if plan then 1 else 0)
            && t.derived.executeRetry == d.executeRetry + (if execute then 1 else 0)
  {
  }

  /** A version is one more than the one a revision starts from, and one without a revision. */
  lemma VersionFollows(s: State)
    ensures s.applied.Applied? && s.applied.baseVersion >= 1 ==> ResolvedVersion(s) - 1 == s.applied.baseVersion
    ensures !(s.applied.Applied? && s.applied.baseVersion >= 1)
            && s.analysis.ReadyPlan? && s.analysis.baseVersion >= 1 ==>
              ResolvedVersion(s) - 1 == s.analysis.baseVersion
    ensures !s.applied.Applied? && !s.analysis.ReadyPlan? ==> ResolvedVersion(s) == 1
    ensures ResolvedVersion(s) >= 1
  {
  }

  /** A proposal is written exactly for a selection on passed evidence and a draft; its id digests its content. */
  lemma ProposalWrites(cfg: Config, s: State, i: Input)
    requires s.at.Proposal?
    ensures var t := Step(cfg, s, i);
            var writes := s.derived.feasible && s.derived.grade.Grade? && s.derived.grade.passed && i.draft.Some?;
            && t.at == (if writes then Verifier else FinalResponse)
            && (t.derived.generated <==> writes)
            && (t.derived.proposal.Doc? <==> writes)
            && (writes ==>
                  var p := t.derived.proposal;
                  && p.facts == i.draft.value.facts && p.body == i.draft.value.body
                  && p.boundary == i.draft.value.boundary && p.version == ResolvedVersion(s)
                  && p.id == ProposalDigest(p.facts, p.version, p.body)
                  && t.derived.verdict.NoVerdict? && t.derived.pending == [])
  {
  }

  /** What the verifier holds against a proposal, and where each issue would be repaired. */
  lemma TargetsAre(s: State, f: Findings)
    requires f.Findings?
    ensures var p, found := s.derived.proposal, BlockingTargets(s, f);
            && (p.NoProposal? ==> found == {AtProposal})
            && (p.Doc? ==>
                  && (AtFinal in found <==> AtFinal in f.others)
                  && (AtBudget in found <==> !s.derived.optimum.sound)
                  && (AtRetrieval in found <==> s.derived.grade.NoGrade? || !s.derived.grade.passed)
                  && (AtProposal in found <==>
                        || AtProposal in f.others
                        || p.boundary != Boundary(true, false, false, false)
                        || p.id != ProposalDigest(p.facts, p.version, p.body)))
  {
  }

  /** The verdict passes exactly what goes to a person, has failed what ends, and else asks for a repair. */
  lemma VerdictIs(cfg: Config, s: State, i: Input)
    requires s.at.Verifier?
    ensures var t := Step(cfg, s, i);
            var v := t.derived.verdict;
            && v.Verdict? && v.next == t.at
            && (v.passed <==> t.at.DecisionGate?) && (v.approvalRequired <==> t.at.DecisionGate?)
            && (v.status.Passed? <==> t.at.DecisionGate?) && (v.status.VerifierFailed? <==> t.at.FinalResponse?)
            && (i.findings.VerifierCrashed? ==> t.at.FinalResponse? && v.about.None?)
            && (i.findings.Findings? ==> v.about == DocId(s.derived.proposal))
            && t.derived.pending == (if t.at.DecisionGate? && s.derived.proposal.Doc?
                                     then [ApprovalOf(s.derived.proposal.id)] else [])
  {
  }

  lemma ApprovalIs(id: ProposalId)
    ensures ApprovalOf(id) == Action(ApproveOf(id), ApproveProposal, true, Pending, Some(id), None, false)
  {
  }

  /** An answer that is not taken is an error to be shown, and counted; a gate that cannot ask fails. */
  lemma RejectionIsShown(cfg: Config, s: State, i: Input)
    requires s.at.DecisionGate?
    ensures var t := Step(cfg, s, i);
            && (t.at in {DecisionGate, FinalResponse} ==> t.derived.gateError)
            && t.derived.attempts == s.derived.attempts + (if t.at.FinalResponse? then 0 else 1)
  {
  }

  // ------------------------------------------------------------- commit and cancel

  /** The only action of the id. */
  predicate Only(actions: seq<Action>, id: ActionId, k: int) {
    0 <= k < |actions| && actions[k].id == id && forall j | 0 <= j < |actions| && j != k :: actions[j].id != id
  }

  lemma OnlyIsTheAction(actions: seq<Action>, id: ActionId)
    ensures TheAction(actions, id).Some? <==> exists k :: Only(actions, id, k)
    ensures forall k :: Only(actions, id, k) ==> TheAction(actions, id) == Some(actions[k])
  {
    if TheAction(actions, id).Some? {
      var k := OnlyMatch(actions, HasId(id));
      assert Only(actions, id, k);
    }
    forall k | Only(actions, id, k)
      ensures TheAction(actions, id) == Some(actions[k])
    {
      OnlyIsFiltered(actions, id, k);
    }
  }

  lemma OnlyIsFiltered(actions: seq<Action>, id: ActionId, k: int)
    requires Only(actions, id, k)
    ensures Filter(actions, HasId(id)) == [actions[k]]
  {
    var before, after := actions[..k], actions[k + 1..];
    assert actions == before + ([actions[k]] + after);
    FilterConcat(before, [actions[k]] + after, HasId(id));
    FilterNone(before, HasId(id));
    FilterNone(after, HasId(id));
    assert ([actions[k]] + after)[1..] == after;
  }

  /** The verifier passed this very proposal, and the person decided this about it and its version. */
  predicate Decided(d: Derived, decision: Decision, next: Node) {
    && d.proposal.Doc? && d.proposal.boundary == Boundary(true, false, false, false)
    && d.verdict.Verdict? && d.verdict.passed && d.verdict.status.Passed? && d.verdict.next.DecisionGate?
    && d.verdict.about == Some(d.proposal.id)
    && d.outcome.Accepted? && d.outcome.decision == decision && d.outcome.next == next
    && d.outcome.proposal == d.proposal.id && d.outcome.version == d.proposal.version
  }

  /** The decided action is the only one of its id, an approval, carries the event and has one of the statuses. */
  ghost predicate Marked(d: Derived, statuses: set<Status>)
    requires d.outcome.Accepted?
  {
    exists k :: Only(d.pending, d.outcome.action, k) && d.pending[k].kind.ApproveProposal?
                && d.pending[k].event == Some(d.outcome.event) && d.pending[k].status in statuses
  }

  lemma CommitAllowedIff(d: Derived)
    ensures CommitAllowed(d) <==> Decided(d, Approve, CommitDraft) && Marked(d, {Approved, Committed})
  {
    if d.outcome.Accepted? {
      OnlyIsTheAction(d.pending, d.outcome.action);
    }
  }

  lemma CancelAllowedIff(d: Derived)
    ensures CancelAllowed(d) <==> Decided(d, CancelPlan, Cancel) && Marked(d, {Cancelled})
  {
    if d.outcome.Accepted? {
      OnlyIsTheAction(d.pending, d.outcome.action);
    }
  }

  /** The first record of the decision, or of the proposal where the decision has none. */
  predicate Recorded(saved: seq<Row>, e: EventId, p: ProposalId, k: int) {
    && 0 <= k < |saved|
    && if exists r :: r in saved && r.event == e
       then saved[k].event == e && forall j | 0 <= j < k :: saved[j].event != e
       else saved[k].proposal == p && forall j | 0 <= j < k :: saved[j].proposal != p
  }

  lemma {:induction false} FirstRowAt(rows: seq<Row>, fits: Row -> bool, k: int)
    requires 0 <= k < |rows| && fits(rows[k]) && forall j | 0 <= j < k :: !fits(rows[j])
    ensures FirstRow(rows, fits) == Some(rows[k])
  {
    if k == 0 {
    } else {
      FirstRowAt(rows[1..], fits, k - 1);
    }
  }

  lemma RecordedIsSaved(saved: seq<Row>, e: EventId, p: ProposalId, k: int)
    requires Recorded(saved, e, p, k)
    ensures SavedRow(saved, e, p) == Some(saved[k])
  {
    if exists r :: r in saved && r.event == e {
      FirstRowAt(saved, (r: Row) => r.event == e, k);
    } else {
      FirstRowAt(saved, (r: Row) => r.proposal == p, k);
    }
  }

  lemma OutcomeIff(d: Derived, saved: seq<Row>, stored: bool)
    requires CommitAllowed(d)
    ensures CommitOutcome(d, saved, stored).CommittedFor? <==>
              if exists r :: r in saved && (r.event == d.outcome.event || r.proposal == d.proposal.id)
              then exists k :: Recorded(saved, d.outcome.event, d.proposal.id, k) && saved[k].ours
              else stored
  {
    SavedRowFits(saved, d.outcome.event, d.proposal.id);
    forall k | Recorded(saved, d.outcome.event, d.proposal.id, k)
      ensures SavedRow(saved, d.outcome.event, d.proposal.id) == Some(saved[k])
    {
      RecordedIsSaved(saved, d.outcome.event, d.proposal.id, k);
    }
    if SavedRow(saved, d.outcome.event, d.proposal.id).Some? {
      var k := SavedIsRecorded(saved, d.outcome.event, d.proposal.id);
    }
  }

  /**
    A commit goes through exactly when all checks hold and the record found is the user's
    own, or there is none and the transaction goes through.
    */
  lemma CommitsIff(cfg: Config, s: State, i: Input)
    requires s.at.CommitDraft?
    ensures var c, d := Step(cfg, s, i).derived.committed, s.derived;
            c.CommittedFor? <==>
              && Decided(d, Approve, CommitDraft) && Marked(d, {Approved, Committed})
              && (if exists r :: r in s.saved && (r.event == d.outcome.event || r.proposal == d.proposal.id)
                  then exists k :: Recorded(s.saved, d.outcome.event, d.proposal.id, k) && s.saved[k].ours
                  else i.stored)
  {
    CommitAllowedIff(s.derived);
    if CommitAllowed(s.derived) {
      OutcomeIff(s.derived, s.saved, i.stored);
    }
  }

  lemma {:induction false} FirstRowPlace(rows: seq<Row>, fits: Row -> bool) returns (k: nat)
    requires FirstRow(rows, fits).Some?
    ensures k < |rows| && fits(rows[k]) && forall j | 0 <= j < k :: !fits(rows[j])
  {
    if fits(rows[0]) {
      k := 0;
    } else {
      k := FirstRowPlace(rows[1..], fits);
      k := k + 1;
    }
  }

  lemma SavedIsRecorded(saved: seq<Row>, e: EventId, p: ProposalId) returns (k: nat)
    requires SavedRow(saved, e, p).Some?
    ensures Recorded(saved, e, p, k)
  {
    if FirstRow(saved, (r: Row) => r.event == e).Some? {
      k := FirstRowPlace(saved, (r: Row) => r.event == e);
      assert saved[k] in saved;
    } else {
      k := FirstRowPlace(saved, (r: Row) => r.proposal == p);
    }
  }

  /** A cancellation goes through exactly when all checks hold. */
  lemma CancelsIff(cfg: Config, s: State, i: Input)
    requires s.at.Cancel?
    ensures Step(cfg, s, i).derived.cancelled.CancelledBy?
            <==> Decided(s.derived, CancelPlan, Cancel) && Marked(s.derived, {Cancelled})
  {
    CancelAllowedIff(s.derived);
  }

  // ------------------------------------------------------------------- the revision

  /** The change asked for is about this proposal and its version, and has been decided. */
  predicate ChangeStands(s: State) {
    && s.change.Some? && s.derived.proposal.Doc? && s.derived.proposal.version >= 1
    && (s.derived.proposal.id.OtherProposal? ==>
          exists i :: 0 <= i < |s.derived.proposal.id.text| && !IsSpace(s.derived.proposal.id.text[i]))
    && (exists i :: 0 <= i < |s.change.value.text| && !IsSpace(s.change.value.text[i]))
    && s.change.value.base == s.derived.proposal.id && s.change.value.baseVersion == s.derived.proposal.version
    && s.derived.outcome.Accepted? && s.derived.outcome.decision.RequestChanges?
    && s.derived.outcome.next.RevisionAnalyze?
  }

  /** The analysis leads to an application exactly of an understood patch to a change that stands. */
  lemma AnalyzesIff(cfg: Config, s: State, i: Input)
    requires s.at.RevisionAnalyze?
    ensures var t := Step(cfg, s, i);
            && (t.at.ApplyRevision? <==> ChangeStands(s) && i.reading.Understood?)
            && (t.analysis.AnalysisFailed? <==> !ChangeStands(s) || i.reading.AnalyzerRaised?)
            && (t.at.ApplyRevision? ==>
                  t.analysis == ReadyPlan(s.derived.proposal.id, s.derived.proposal.version, s.request,
                                          i.reading.patch))
            && (t.analysis.NeedsClarification? ==>
                  t.analysis == NeedsClarification(s.derived.proposal.id, s.derived.proposal.version))
  {
    if s.change.Some? {
      StripBlankIff(s.change.value.text);
    }
    if s.derived.proposal.Doc? && s.derived.proposal.id.OtherProposal? {
      StripBlankIff(s.derived.proposal.id.text);
    }
  }

  /** A patch is applied exactly to the request and the proposal it was made for, and if it can be. */
  lemma AppliesIff(cfg: Config, s: State, i: Input)
    requires s.at.ApplyRevision?
    ensures Step(cfg, s, i).at.MissingInfoCheck? <==>
              && s.analysis.ReadyPlan? && s.derived.proposal.Doc? && s.change.Some?
              && s.analysis.base == s.derived.proposal.id && s.change.value.base == s.derived.proposal.id
              && s.analysis.baseVersion == s.derived.proposal.version
              && s.change.value.baseVersion == s.derived.proposal.version
              && s.analysis.baseRequest == s.request
              && R.ApplyPatch(s.request, s.analysis.patch, s.change.value.text).Ok?
  {
  }

  /** A committed action has that status, a cancelled one is finalized as well; its other fields stay. */
  lemma EndingMarksTheAction(cfg: Config, s: State, i: Input, k: int)
    requires s.derived.outcome.Accepted? && 0 <= k < |s.derived.pending|
    requires s.derived.pending[k].id == s.derived.outcome.action
    ensures var t, a := Step(cfg, s, i).derived, s.derived.pending[k];
            && (s.at.CommitDraft? && t.committed.CommittedFor? ==>
                  |t.pending| == |s.derived.pending| && t.pending[k] == a.(status := Committed))
            && (s.at.Cancel? && t.cancelled.CancelledBy? ==>
                  |t.pending| == |s.derived.pending| && t.pending[k] == a.(status := Cancelled, finalized := true))
  {
  }
}
