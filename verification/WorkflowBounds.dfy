/**
  How long one invocation of the graph can run: every loop is paid for by a retry
  counter, so the number of node executions between two human inputs is bounded by
  the settings.
  */
module WorkflowBounds {
  import opened Prelude
  import opened Workflow
  import opened WorkflowSafety
  import E = EvidenceRepair
  import R = Revision

  // ----------------------------------------------------------------- the potential

  /** Node executions up to the gate's interrupt, or the end, if nothing is retried. */
  function ToGo(n: Node): nat {
    match n
    case InputExtract => 17
    case MissingInfoCheck => 16
    case Clarify => 2
    case SafetyCheck => 15
    case SafeReject => 2
    case MemoryRead => 14
    case PlanningContext => 13
    case ToolPlan => 12
    case ToolExecute => 11
    case ToolCheck => 10
    case CandidateRank => 9
    case BudgetOptimize => 8
    case RetrievalPlan => 7
    case HybridRetrieve => 6
    case Rerank => 5
    case EvidenceGrade => 4
    case Proposal => 3
    case Verifier => 2
    case DecisionGate => 1
    case CommitDraft => 2
    case RevisionAnalyze => 18
    case ApplyRevision => 17
    case Cancel => 2
    case FinalResponse => 1
    case End => 0
  }

  function Larger(m: nat, n: nat): nat {
    if m >= n then m else n
  }

  /**
    What the retries of each kind add, each to its limit. Budget and proposal repairs
    exclude each other: the optimizer's selection decides which of them there can be.
    */
  function Retries(cfg: Config): nat {
    3 * cfg.tools.planRetries + 2 * cfg.tools.executeRetries + 4 * cfg.ragRounds
    + Larger(7 * cfg.budgetRepairs, 2 * cfg.proposalRepairs)
  }

  /** Evidence repairs used or asked for. */
  function RagSpent(s: State): nat {
    s.ragRetry + if s.at.RetrievalPlan? && s.derived.gaps.Some? then 1 else 0
  }

  /** No counter is past its limit. */
  predicate Within(cfg: Config, s: State) {
    Drafting(s.at) ==>
      && s.derived.planRetry <= cfg.tools.planRetries && s.derived.executeRetry <= cfg.tools.executeRetries
      && RagSpent(s) <= cfg.ragRounds
      && s.budgetRetry <= cfg.budgetRepairs && s.proposalRetry <= cfg.proposalRepairs
  }

  /** The worth of the verifier's repairs still possible. */
  function RepairsLeft(cfg: Config, s: State): int {
    if ToGo(s.at) >= 9 then Larger(7 * cfg.budgetRepairs, 2 * cfg.proposalRepairs)
    else if s.derived.optimum.sound then 2 * (cfg.proposalRepairs - s.proposalRetry)
    else 7 * (cfg.budgetRepairs - s.budgetRetry)
  }

  /** The worth of the other retries still possible. */
  function LoopsLeft(cfg: Config, s: State): int {
    3 * (cfg.tools.planRetries - s.derived.planRetry) + 2 * (cfg.tools.executeRetries - s.derived.executeRetry)
    + 4 * (cfg.ragRounds - RagSpent(s))
  }

  /** An upper bound on the executions still to come before the next human input. */
  function Left(cfg: Config, s: State): int {
    if s.at in {RevisionAnalyze, ApplyRevision} then ToGo(s.at) + Retries(cfg)
    else if Drafting(s.at) && !s.at.DecisionGate? then ToGo(s.at) + LoopsLeft(cfg, s) + RepairsLeft(cfg, s)
    else ToGo(s.at)
  }

  lemma SpentWithin(cfg: Config, s: State)
    requires Within(cfg, s) && Drafting(s.at)
    ensures LoopsLeft(cfg, s) >= 0 && RepairsLeft(cfg, s) >= 0
  {
  }

  // ---------------------------------------------------------------- every step pays

  lemma ToolCheckPays(cfg: Config, s: State, i: Input)
    requires Grounded(cfg, s) && Within(cfg, s) && s.at.ToolCheck?
    ensures var t := ToolCheckStep(cfg, s, i); Within(cfg, t) && Left(cfg, t) < Left(cfg, s)
  {
    SpentWithin(cfg, s);
  }

  lemma RetrievalPays(cfg: Config, s: State)
    requires Grounded(cfg, s) && Within(cfg, s) && s.at.RetrievalPlan?
    ensures var t := RetrievalPlanStep(cfg, s); Within(cfg, t) && Left(cfg, t) < Left(cfg, s)
  {
    E.RepairConsumes(LoopOf(s), s.derived.facts, cfg.ragRounds);
  }

  lemma GradePays(cfg: Config, s: State, i: Input)
    requires Grounded(cfg, s) && Within(cfg, s) && s.at.EvidenceGrade?
    ensures var t := EvidenceGradeStep(s, i); Within(cfg, t) && Left(cfg, t) < Left(cfg, s)
  {
    SpentWithin(cfg, s);
    E.GradeKeeps(LoopOf(s), s.derived.facts, cfg.ragRounds, i.review);
  }

  lemma VerifierCounters(cfg: Config, s: State, i: Input)
    requires s.at.Verifier?
    ensures var t := Step(cfg, s, i);
            && t.at in Successors(Verifier)
            && t.derived.planRetry == s.derived.planRetry && t.derived.executeRetry == s.derived.executeRetry
            && t.ragRetry == s.ragRetry && t.derived.optimum == s.derived.optimum
            && t.budgetRetry == s.budgetRetry + (if t.at.BudgetOptimize? then 1 else 0)
            && t.proposalRetry == s.proposalRetry + (if t.at.Proposal? then 1 else 0)
            && (t.at.BudgetOptimize? ==> s.budgetRetry < cfg.budgetRepairs)
            && (t.at.Proposal? ==> s.proposalRetry < cfg.proposalRepairs)
  {
  }

  /** The optimizer's selection is in order or not, and this decides which repair the verifier asks for. */
  lemma RepairByOptimum(cfg: Config, s: State, i: Input)
    requires s.at.Verifier? && s.derived.proposal.Doc?
    ensures var t := Step(cfg, s, i);
            if s.derived.optimum.sound then !t.at.BudgetOptimize? else t.at in {BudgetOptimize, FinalResponse}
  {
    if i.findings.Findings? {
      assert AtBudget in BlockingTargets(s, i.findings) <==> !s.derived.optimum.sound;
    }
  }

  lemma RepairPays(cfg: Config, s: State, t: State)
    requires Within(cfg, s) && s.at.Verifier? && t.at in Successors(Verifier) && !t.at.RetrievalPlan?
    requires if s.derived.optimum.sound then !t.at.BudgetOptimize? else t.at in {BudgetOptimize, FinalResponse}
    requires t.derived.optimum == s.derived.optimum
    requires t.derived.planRetry == s.derived.planRetry && t.derived.executeRetry == s.derived.executeRetry
    requires t.ragRetry == s.ragRetry
    requires t.budgetRetry == s.budgetRetry + (if t.at.BudgetOptimize? then 1 else 0)
    requires t.proposalRetry == s.proposalRetry + (if t.at.Proposal? then 1 else 0)
    requires t.at.BudgetOptimize? ==> s.budgetRetry < cfg.budgetRepairs
    requires t.at.Proposal? ==> s.proposalRetry < cfg.proposalRepairs
    ensures Within(cfg, t) && Left(cfg, t) < Left(cfg, s)
  {
    SpentWithin(cfg, s);
  }

  lemma VerifierPays(cfg: Config, s: State, i: Input)
    requires Grounded(cfg, s) && Within(cfg, s) && s.at.Verifier? && s.derived.proposal.Doc?
    ensures var t := Step(cfg, s, i); Within(cfg, t) && Left(cfg, t) < Left(cfg, s)
  {
    RetrievalEdgeIsDead(cfg, s, i);
    VerifierCounters(cfg, s, i);
    RepairByOptimum(cfg, s, i);
    RepairPays(cfg, s, Step(cfg, s, i));
  }

  /** A step that leaves the counters alone and moves down the chain, or off it. */
  lemma PlainPays(cfg: Config, s: State, t: State)
    requires Within(cfg, s) && Drafting(s.at)
             && s.at !in {ToolCheck, RetrievalPlan, EvidenceGrade, Verifier, DecisionGate}
    requires t.at in Successors(s.at)
    requires KeepsCounters(cfg, s, t)
    ensures Left(cfg, t) < Left(cfg, s)
  {
    SpentWithin(cfg, s);
  }

  /** What the counters and the selection amount to at the node is no more than before. */
  predicate KeepsCounters(cfg: Config, s: State, t: State) {
    Within(cfg, t) && LoopsLeft(cfg, t) == LoopsLeft(cfg, s) && RepairsLeft(cfg, t) <= RepairsLeft(cfg, s)
  }

  lemma IntakeCounters(cfg: Config, s: State, i: Input)
    requires Grounded(cfg, s) && Within(cfg, s)
    requires s.at in {InputExtract, MissingInfoCheck, SafetyCheck, MemoryRead, PlanningContext, ToolPlan, ToolExecute}
    ensures KeepsCounters(cfg, s, Step(cfg, s, i))
  {
  }

  lemma RankCounters(cfg: Config, s: State, i: Input)
    requires Grounded(cfg, s) && Within(cfg, s) && s.at in {CandidateRank, BudgetOptimize}
    ensures KeepsCounters(cfg, s, Step(cfg, s, i))
  {
  }

  lemma PlainCounters(cfg: Config, s: State, i: Input)
    requires Grounded(cfg, s) && Within(cfg, s)
    requires Drafting(s.at) && s.at !in {ToolCheck, RetrievalPlan, EvidenceGrade, Verifier, DecisionGate}
    ensures KeepsCounters(cfg, s, Step(cfg, s, i))
  {
    if s.at in {InputExtract, MissingInfoCheck, SafetyCheck, MemoryRead, PlanningContext, ToolPlan, ToolExecute} {
      IntakeCounters(cfg, s, i);
    } else if s.at in {CandidateRank, BudgetOptimize} {
      RankCounters(cfg, s, i);
    }
  }

  lemma DraftingPays(cfg: Config, s: State, i: Input)
    requires Grounded(cfg, s) && Within(cfg, s) && Drafting(s.at) && !s.at.DecisionGate?
    requires s.at.Verifier? ==> s.derived.proposal.Doc?
    ensures var t := Step(cfg, s, i); Within(cfg, t) && Left(cfg, t) < Left(cfg, s)
  {
    if s.at.ToolCheck? {
      ToolCheckPays(cfg, s, i);
    } else if s.at.RetrievalPlan? {
      RetrievalPays(cfg, s);
    } else if s.at.EvidenceGrade? {
      GradePays(cfg, s, i);
    } else if s.at.Verifier? {
      VerifierPays(cfg, s, i);
    } else {
      StepFollowsEdges(cfg, s, i);
      PlainCounters(cfg, s, i);
      PlainPays(cfg, s, Step(cfg, s, i));
    }
  }

  lemma ApplyPays(cfg: Config, s: State, i: Input)
    requires s.at.ApplyRevision?
    ensures var t := Step(cfg, s, i); Within(cfg, t) && Left(cfg, t) < Left(cfg, s)
  {
  }

  /** Steps off the drafting chain: the counters matter again only after an application. */
  lemma OffChainPays(cfg: Config, s: State, t: State)
    requires !Drafting(s.at) && !s.at.ApplyRevision? && t.at in Successors(s.at)
    ensures Within(cfg, t) && (s.at.End? || Left(cfg, t) < Left(cfg, s))
  {
  }

  lemma StepPays(cfg: Config, s: State, i: Input)
    requires Grounded(cfg, s) && Within(cfg, s) && !s.at.DecisionGate?
    requires s.at.Verifier? ==> s.derived.proposal.Doc?
    ensures var t := Step(cfg, s, i); Within(cfg, t) && (s.at.End? || Left(cfg, t) < Left(cfg, s))
  {
    if s.at.ApplyRevision? {
      ApplyPays(cfg, s, i);
    } else if Drafting(s.at) {
      DraftingPays(cfg, s, i);
    } else {
      StepFollowsEdges(cfg, s, i);
      OffChainPays(cfg, s, Step(cfg, s, i));
    }
  }

  // ------------------------------------------------------------------- the bound

  /** Resuming the gate starts a new invocation; nothing runs after the end. */
  function Ticked(at: Node, before: nat): nat {
    if at.DecisionGate? then 1 else if at.End? then before else before + 1
  }

  /** Node executions since the session started or the gate was last resumed, that execution of the gate included. */
  function Clock(run: seq<Session>, n: nat): nat
    requires n < |run|
  {
    if n == 0 then 0 else Ticked(run[n - 1].state.at, Clock(run, n - 1))
  }

  lemma GateRestarts(cfg: Config, w: Session, i: Input)
    requires Inv(cfg, w) && w.state.at.DecisionGate? && Within(cfg, w.state)
    ensures var t := Step(cfg, w.state, i); Within(cfg, t) && Left(cfg, t) <= 18 + Retries(cfg)
  {
    GateCounters(cfg, w.state, i);
    StepFollowsEdges(cfg, w.state, i);
    LeftAfterGate(cfg, Step(cfg, w.state, i));
  }

  lemma GateCounters(cfg: Config, s: State, i: Input)
    requires s.at.DecisionGate? && Within(cfg, s)
    ensures Within(cfg, Step(cfg, s, i))
  {
  }

  lemma LeftAfterGate(cfg: Config, t: State)
    requires t.at in Successors(DecisionGate)
    ensures Left(cfg, t) <= 18 + Retries(cfg)
  {
  }

  lemma TickPays(cfg: Config, w: Session, i: Input, before: nat)
    requires Inv(cfg, w) && Within(cfg, w.state) && before + Left(cfg, w.state) <= 19 + Retries(cfg)
    ensures var t := Step(cfg, w.state, i);
            Within(cfg, t) && Ticked(w.state.at, before) + Left(cfg, t) <= 19 + Retries(cfg)
  {
    if w.state.at.DecisionGate? {
      GateRestarts(cfg, w, i);
    } else {
      StepPays(cfg, w.state, i);
    }
  }

  lemma {:induction false} ClockBounded(cfg: Config, request: R.TripRequest, run: seq<Session>, inputs: seq<Input>,
                                       n: nat)
    requires IsRun(cfg, request, run, inputs) && n < |run|
    ensures Within(cfg, run[n].state) && Clock(run, n) + Left(cfg, run[n].state) <= 19 + Retries(cfg)
  {
    if n == 0 {
    } else {
      ClockBounded(cfg, request, run, inputs, n - 1);
      Always(cfg, request, run, inputs, n - 1);
      TickPays(cfg, run[n - 1], inputs[n - 1], Clock(run, n - 1));
    }
  }

  /** Node executions of the invocation under way, the one the gate interrupts included. */
  function Executed(run: seq<Session>, n: nat): nat
    requires n < |run|
  {
    Clock(run, n) + if run[n].state.at.DecisionGate? then 1 else 0
  }

  /** Between two human inputs a run executes at most 19 nodes plus what the retries add. */
  lemma InvocationsAreBounded(cfg: Config, request: R.TripRequest, run: seq<Session>, inputs: seq<Input>, n: nat)
    requires IsRun(cfg, request, run, inputs) && n < |run|
    ensures Executed(run, n) <= 19 + Retries(cfg)
  {
    ClockBounded(cfg, request, run, inputs, n);
    if Drafting(run[n].state.at) {
      SpentWithin(cfg, run[n].state);
    }
  }

  /** No run ever takes the verifier's edge back to retrieval. */
  lemma RetrievalIsNeverRepairedByVerifier(cfg: Config, request: R.TripRequest, run: seq<Session>,
                                           inputs: seq<Input>, n: nat)
    requires IsRun(cfg, request, run, inputs) && n < |inputs| && run[n].state.at.Verifier?
    ensures run[n + 1].state.at in {Proposal, BudgetOptimize, DecisionGate, FinalResponse}
  {
    Always(cfg, request, run, inputs, n);
    VerifierGoesOn(cfg, run[n].state, inputs[n]);
  }

  lemma VerifierGoesOn(cfg: Config, s: State, i: Input)
    requires Grounded(cfg, s) && s.at.Verifier?
    ensures Step(cfg, s, i).at in {Proposal, BudgetOptimize, DecisionGate, FinalResponse}
  {
    RetrievalEdgeIsDead(cfg, s, i);
    StepFollowsEdges(cfg, s, i);
  }
}
