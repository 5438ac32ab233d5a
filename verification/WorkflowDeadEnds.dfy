/**
  Where a run of the graph cannot succeed any more: a request that is incomplete, and
  an optimizer's selection that the verifier's budget checks reject. The optimizer
  recomputes the same selection from the same candidates, so a budget repair never
  clears its finding.
  */
module WorkflowDeadEnds {
  import opened Workflow
  import opened WorkflowSafety
  import opened WorkflowBounds
  import R = Revision
  import RequestCheck

  // ------------------------------------------------------------ incomplete requests

  /** Whatever else the world answers, an incomplete request is sent to clarification and the run ends. */
  lemma IncompleteEnds(cfg: Config, request: R.TripRequest, run: seq<Session>, inputs: seq<Input>, n: nat)
    requires IsRun(cfg, request, run, inputs) && n + 3 < |run|
    requires run[n].state.at.MissingInfoCheck? && !RequestCheck.Complete(run[n].state.request)
    ensures run[n + 1].state.at.Clarify? && run[n + 2].state.at.FinalResponse? && run[n + 3].state.at.End?
  {
    assert run[n + 1] == Advance(cfg, run[n], inputs[n]);
    assert run[n + 2] == Advance(cfg, run[n + 1], inputs[n + 1]);
    assert run[n + 3] == Advance(cfg, run[n + 2], inputs[n + 2]);
  }

  /** Where a session with an incomplete request stands after n steps. */
  function Detour(n: nat): Node {
    match n
    case 0 => InputExtract
    case 1 => MissingInfoCheck
    case 2 => Clarify
    case 3 => FinalResponse
    case _ => End
  }

  lemma DetourStep(cfg: Config, s: State, i: Input, n: nat)
    requires s.at == Detour(n) && !RequestCheck.Complete(s.request)
    ensures Step(cfg, s, i).at == Detour(n + 1) && Step(cfg, s, i).request == s.request
  {
  }

  lemma {:induction false} DetourTaken(cfg: Config, request: R.TripRequest, run: seq<Session>, inputs: seq<Input>,
                                       n: nat)
    requires IsRun(cfg, request, run, inputs) && n < |run| && !RequestCheck.Complete(request)
    ensures run[n].state.at == Detour(n) && run[n].state.request == request
  {
    if n == 0 {
    } else {
      DetourTaken(cfg, request, run, inputs, n - 1);
      assert run[n] == Advance(cfg, run[n - 1], inputs[n - 1]);
      DetourStep(cfg, run[n - 1].state, inputs[n - 1], n - 1);
    }
  }

  /** So a session that starts with an incomplete request executes four nodes and no more. */
  lemma {:induction false} IncompleteTakesFour(cfg: Config, request: R.TripRequest, run: seq<Session>,
                                               inputs: seq<Input>, n: nat)
    requires IsRun(cfg, request, run, inputs) && n < |run| && !RequestCheck.Complete(request)
    ensures run[n].state.at == Detour(n) && Executed(run, n) == (if n < 4 then n else 4)
  {
    DetourTaken(cfg, request, run, inputs, n);
    if n == 0 {
    } else {
      DetourTaken(cfg, request, run, inputs, n - 1);
      IncompleteTakesFour(cfg, request, run, inputs, n - 1);
    }
  }

  /** Wherever planning has got to, the request has passed the check for missing fields. */
  predicate PastTheCheck(n: Node) {
    Drafting(n) && !n.InputExtract? && !n.MissingInfoCheck?
  }

  predicate CheckedIfPast(s: State) {
    PastTheCheck(s.at) ==> RequestCheck.Complete(s.request)
  }

  lemma CheckLetsThrough(cfg: Config, s: State, i: Input)
    requires s.at.MissingInfoCheck?
    ensures CheckedIfPast(Step(cfg, s, i))
  {
  }

  lemma ComesFromTheCheck(m: Node, n: Node)
    requires n in Successors(m) && PastTheCheck(n)
    ensures PastTheCheck(m) || m.MissingInfoCheck?
  {
  }

  lemma CheckedStep(cfg: Config, s: State, i: Input)
    requires CheckedIfPast(s)
    ensures CheckedIfPast(Step(cfg, s, i))
  {
    if s.at.MissingInfoCheck? {
      CheckLetsThrough(cfg, s, i);
    } else {
      var t := Step(cfg, s, i);
      StepFollowsEdges(cfg, s, i);
      if PastTheCheck(t.at) {
        ComesFromTheCheck(s.at, t.at);
      }
    }
  }

  /** Nothing is planned, proposed or put to a person for an incomplete request. */
  lemma {:induction false} OnlyCompleteIsPlanned(cfg: Config, request: R.TripRequest, run: seq<Session>,
                                                 inputs: seq<Input>, n: nat)
    requires IsRun(cfg, request, run, inputs) && n < |run|
    ensures PastTheCheck(run[n].state.at) ==> RequestCheck.Complete(run[n].state.request)
  {
    if n == 0 {
    } else {
      OnlyCompleteIsPlanned(cfg, request, run, inputs, n - 1);
      CheckedStep(cfg, run[n - 1].state, inputs[n - 1]);
    }
  }

  // ----------------------------------------------------- selections that fail the checks

  /** Past the ranking, with a selection the verifier will not accept. */
  predicate Doomed(s: State) {
    !s.derived.optimum.sound &&
    s.at in {BudgetOptimize, RetrievalPlan, HybridRetrieve, Rerank, EvidenceGrade, Proposal, Verifier}
  }

  lemma DoomedRepair(cfg: Config, s: State, i: Input)
    requires Doomed(s) && s.at.Verifier? && s.derived.proposal.Doc?
    ensures var t := Step(cfg, s, i); Doomed(t) || t.at.FinalResponse?
  {
    RepairByOptimum(cfg, s, i);
    VerifierCounters(cfg, s, i);
  }

  lemma DoomedOnward(cfg: Config, s: State, i: Input)
    requires Doomed(s) && !s.at.Verifier?
    ensures var t := Step(cfg, s, i); Doomed(t) || t.at.FinalResponse?
  {
  }

  lemma OverStaysOver(cfg: Config, s: State, i: Input)
    requires s.at.FinalResponse? || s.at.End?
    ensures Step(cfg, s, i).at.End?
  {
  }

  /** Doomed, or already over. */
  predicate Lost(s: State) {
    Doomed(s) || s.at.FinalResponse? || s.at.End?
  }

  lemma LostStaysLost(cfg: Config, s: State, i: Input)
    requires HasProposal(s) && Lost(s)
    ensures Lost(Step(cfg, s, i))
  {
    if s.at.FinalResponse? || s.at.End? {
      OverStaysOver(cfg, s, i);
    } else if s.at.Verifier? {
      DoomedRepair(cfg, s, i);
    } else {
      DoomedOnward(cfg, s, i);
    }
  }

  /** The verifier is given a proposal. */
  predicate HasProposal(s: State) {
    s.at.Verifier? ==> s.derived.proposal.Doc?
  }

  lemma AlwaysHasProposal(cfg: Config, request: R.TripRequest, run: seq<Session>, inputs: seq<Input>, n: nat)
    requires IsRun(cfg, request, run, inputs) && n < |run|
    ensures HasProposal(run[n].state)
  {
    Always(cfg, request, run, inputs, n);
  }

  lemma LostFollows(cfg: Config, request: R.TripRequest, run: seq<Session>, inputs: seq<Input>, k: nat)
    requires IsRun(cfg, request, run, inputs) && k < |inputs| && Lost(run[k].state)
    ensures Lost(run[k + 1].state)
  {
    AlwaysHasProposal(cfg, request, run, inputs, k);
    LostStaysLost(cfg, run[k].state, inputs[k]);
    assert run[k + 1] == Advance(cfg, run[k], inputs[k]);
  }

  lemma {:induction false} LostForGood(cfg: Config, request: R.TripRequest, run: seq<Session>, inputs: seq<Input>,
                                       n: nat, m: nat)
    requires IsRun(cfg, request, run, inputs) && n <= m < |run| && Lost(run[n].state)
    ensures Lost(run[m].state)
    decreases m
  {
    if m == n {
    } else {
      LostForGood(cfg, request, run, inputs, n, m - 1);
      LostFollows(cfg, request, run, inputs, m - 1);
    }
  }

  /**
    A selection the verifier rejects is never repaired: whatever the world answers, the
    run stays between optimizer and verifier until it ends, and no person is asked.
    */
  lemma RepairNeverClears(cfg: Config, request: R.TripRequest, run: seq<Session>, inputs: seq<Input>, n: nat, m: nat)
    requires IsRun(cfg, request, run, inputs) && n <= m < |run| && Doomed(run[n].state)
    ensures Doomed(run[m].state) || run[m].state.at in {FinalResponse, End}
  {
    LostForGood(cfg, request, run, inputs, n, m);
  }

  lemma GateKeepsOptimum(cfg: Config, s: State, i: Input)
    requires s.at.DecisionGate?
    ensures var t := Step(cfg, s, i); t.at.DecisionGate? ==> t.derived.optimum == s.derived.optimum
  {
  }

  lemma GateIsReachedFrom(m: Node)
    requires DecisionGate in Successors(m)
    ensures m.Verifier? || m.DecisionGate?
  {
  }

  predicate SoundIfAsked(s: State) {
    s.at.DecisionGate? ==> s.derived.optimum.sound
  }

  lemma SoundStep(cfg: Config, s: State, i: Input)
    requires HasProposal(s) && SoundIfAsked(s)
    ensures SoundIfAsked(Step(cfg, s, i))
  {
    var t := Step(cfg, s, i);
    StepFollowsEdges(cfg, s, i);
    if t.at.DecisionGate? {
      GateIsReachedFrom(s.at);
      if s.at.DecisionGate? {
        GateKeepsOptimum(cfg, s, i);
      } else {
        RepairByOptimum(cfg, s, i);
        VerifierCounters(cfg, s, i);
      }
    }
  }

  /** What is put to a person has passed the budget checks. */
  lemma {:induction false} SoundAtGate(cfg: Config, request: R.TripRequest, run: seq<Session>, inputs: seq<Input>,
                                       n: nat)
    requires IsRun(cfg, request, run, inputs) && n < |run|
    ensures run[n].state.at.DecisionGate? ==> run[n].state.derived.optimum.sound
  {
    if n == 0 {
    } else {
      SoundAtGate(cfg, request, run, inputs, n - 1);
      AlwaysHasProposal(cfg, request, run, inputs, n - 1);
      SoundStep(cfg, run[n - 1].state, inputs[n - 1]);
    }
  }
}
