/**
  The bound on one invocation of the graph is reached: for every complete request the
  world that asks for every retry takes exactly as many node executions, before and
  after a revision. The run repairs proposals when the optimizer's selection is in
  order, and the budget in vain when it is not.
  */
module WorkflowTightness {
  import opened Prelude
  import opened Approvals
  import opened Text
  import opened Workflow
  import opened WorkflowSafety
  import opened WorkflowBounds
  import E = EvidenceRepair
  import H = WorkflowHistory
  import R = Revision
  import RequestCheck

  // ------------------------------------------------------------------ the slow world

  /** What the verifier's repairs add under a selection. */
  function RepairsOf(cfg: Config, o: Optimum): nat {
    if o.sound then 2 * cfg.proposalRepairs else 7 * cfg.budgetRepairs
  }

  /** What the other retries add. */
  function LoopsOf(cfg: Config): nat {
    3 * cfg.tools.planRetries + 2 * cfg.tools.executeRetries + 4 * cfg.ragRounds
  }

  lemma RetriesAreEither(cfg: Config)
    ensures Retries(cfg) == LoopsOf(cfg)
            + Larger(RepairsOf(cfg, Optimum(true, false)), RepairsOf(cfg, Optimum(true, true)))
  {
  }

  /**
    The world at its slowest: the model asks for unknown tools and the required ones fail
    while a retry is left, evidence is short once per round, and the generated text makes a
    forbidden claim while a repair is left; then all goes well.
    */
  function Slowest(cfg: Config, s: State, o: Optimum): Input {
    var replan := s.derived.planRetry < cfg.tools.planRetries;
    var none := E.Needs(false, false);
    Input(false, false, true, false, replan, !replan && s.derived.executeRetry < cfg.tools.executeRetries, true, o,
          E.Review(if s.ragRetry < cfg.ragRounds then E.Needs(true, false) else none, none),
          Some(Draft("", "", DRAFT_ONLY)),
          Findings(if o.sound && s.proposalRetry < cfg.proposalRepairs then {AtProposal} else {}),
          Unreadable, AnalyzerRaised, true)
  }

  /** What the slow run has established by the time it stands at the node. */
  predicate Primed(cfg: Config, s: State, o: Optimum) {
    var d, p := s.derived, s.derived.proposal;
    && RequestCheck.Complete(s.request)
    && (ToGo(s.at) <= 12 ==> d.facts.plannable && d.covered)
    && (ToGo(s.at) <= 9 ==> d.planRetry == cfg.tools.planRetries && d.executeRetry == cfg.tools.executeRetries)
    && (ToGo(s.at) <= 8 ==> d.optimum == o)
    && (s.at.Proposal? || s.at.Verifier? ==> s.ragRetry == cfg.ragRounds)
    && (s.at.Verifier? ==> p.Doc? && p.boundary == DRAFT_ONLY && p.id == ProposalDigest(p.facts, p.version, p.body))
  }

  predicate Slow(cfg: Config, s: State, o: Optimum) {
    && o.feasible && Drafting(s.at) && !s.at.DecisionGate?
    && Grounded(cfg, s) && Within(cfg, s) && Primed(cfg, s, o)
  }

  /** The executions the slow run still takes. */
  function SlowLeft(cfg: Config, s: State, o: Optimum): int {
    ToGo(s.at) + LoopsLeft(cfg, s)
    + if o.sound then 2 * (cfg.proposalRepairs - s.proposalRetry) else 7 * (cfg.budgetRepairs - s.budgetRetry)
  }

  /** A step that pays exactly one. */
  predicate Paced(cfg: Config, s: State, t: State, o: Optimum) {
    Drafting(t.at) && !t.at.DecisionGate? && Primed(cfg, t, o) && SlowLeft(cfg, t, o) == SlowLeft(cfg, s, o) - 1
  }

  lemma SlowGrade(cfg: Config, s: State, o: Optimum)
    requires Slow(cfg, s, o) && s.at.EvidenceGrade?
    ensures Paced(cfg, s, Step(cfg, s, Slowest(cfg, s, o)), o)
  {
  }

  lemma SlowRetrieval(cfg: Config, s: State, o: Optimum)
    requires Slow(cfg, s, o) && s.at.RetrievalPlan?
    ensures Paced(cfg, s, Step(cfg, s, Slowest(cfg, s, o)), o)
  {
    E.RepairConsumes(LoopOf(s), s.derived.facts, cfg.ragRounds);
  }

  lemma SlowProposal(cfg: Config, s: State, o: Optimum)
    requires Slow(cfg, s, o) && s.at.Proposal?
    ensures Paced(cfg, s, Step(cfg, s, Slowest(cfg, s, o)), o)
  {
  }

  lemma SlowToolCheck(cfg: Config, s: State, o: Optimum)
    requires Slow(cfg, s, o) && s.at.ToolCheck?
    ensures Paced(cfg, s, Step(cfg, s, Slowest(cfg, s, o)), o)
  {
  }

  lemma SlowRank(cfg: Config, s: State, o: Optimum)
    requires Slow(cfg, s, o) && s.at in {CandidateRank, BudgetOptimize}
    ensures Paced(cfg, s, Step(cfg, s, Slowest(cfg, s, o)), o)
  {
  }

  lemma SlowEntry(cfg: Config, s: State, o: Optimum)
    requires Slow(cfg, s, o) && s.at in {InputExtract, MissingInfoCheck, SafetyCheck, MemoryRead}
    ensures Paced(cfg, s, Step(cfg, s, Slowest(cfg, s, o)), o)
  {
  }

  lemma SlowTools(cfg: Config, s: State, o: Optimum)
    requires Slow(cfg, s, o) && s.at in {PlanningContext, ToolPlan, ToolExecute}
    ensures Paced(cfg, s, Step(cfg, s, Slowest(cfg, s, o)), o)
  {
  }

  lemma SlowSearch(cfg: Config, s: State, o: Optimum)
    requires Slow(cfg, s, o) && s.at in {HybridRetrieve, Rerank}
    ensures Paced(cfg, s, Step(cfg, s, Slowest(cfg, s, o)), o)
  {
  }

  /** What the slow world's verifier asks for. */
  function SlowVerdict(cfg: Config, s: State, o: Optimum): Node {
    if o.sound then if s.proposalRetry < cfg.proposalRepairs then Proposal else DecisionGate
    else if s.budgetRetry < cfg.budgetRepairs then BudgetOptimize else FinalResponse
  }

  lemma SlowVerifier(cfg: Config, s: State, o: Optimum)
    requires Slow(cfg, s, o) && s.at.Verifier?
    ensures var t := Step(cfg, s, Slowest(cfg, s, o));
            t.at == SlowVerdict(cfg, s, o) && t.derived.facts == s.derived.facts
            && t.derived.covered == s.derived.covered
            && t.request == s.request
  {
    var f := Slowest(cfg, s, o).findings;
    assert BlockingTargets(s, f) == if o.sound then f.others else {AtBudget};
  }

  lemma SlowRepair(cfg: Config, s: State, t: State, o: Optimum)
    requires Slow(cfg, s, o) && s.at.Verifier? && SlowLeft(cfg, s, o) > 2
    requires t.at == SlowVerdict(cfg, s, o) && t.derived.facts == s.derived.facts
             && t.derived.covered == s.derived.covered
    requires t.request == s.request
    requires t.derived.planRetry == s.derived.planRetry && t.derived.executeRetry == s.derived.executeRetry
    requires t.ragRetry == s.ragRetry && t.derived.optimum == s.derived.optimum
    requires t.budgetRetry == s.budgetRetry + (if t.at.BudgetOptimize? then 1 else 0)
    requires t.proposalRetry == s.proposalRetry + (if t.at.Proposal? then 1 else 0)
    ensures Paced(cfg, s, t, o)
  {
  }

  lemma SlowVerification(cfg: Config, s: State, o: Optimum)
    requires Slow(cfg, s, o) && s.at.Verifier? && SlowLeft(cfg, s, o) > 2
    ensures Paced(cfg, s, Step(cfg, s, Slowest(cfg, s, o)), o)
  {
    SlowVerifier(cfg, s, o);
    VerifierCounters(cfg, s, Slowest(cfg, s, o));
    SlowRepair(cfg, s, Step(cfg, s, Slowest(cfg, s, o)), o);
  }

  lemma SlowlyPaced(cfg: Config, s: State, o: Optimum)
    requires Slow(cfg, s, o) && SlowLeft(cfg, s, o) > 2
    ensures Paced(cfg, s, Step(cfg, s, Slowest(cfg, s, o)), o)
  {
    if s.at.EvidenceGrade? {
      SlowGrade(cfg, s, o);
    } else if s.at.Verifier? {
      SlowVerification(cfg, s, o);
    } else if s.at.RetrievalPlan? {
      SlowRetrieval(cfg, s, o);
    } else if s.at.Proposal? {
      SlowProposal(cfg, s, o);
    } else if s.at.ToolCheck? {
      SlowToolCheck(cfg, s, o);
    } else if s.at in {CandidateRank, BudgetOptimize} {
      SlowRank(cfg, s, o);
    } else if s.at in {HybridRetrieve, Rerank} {
      SlowSearch(cfg, s, o);
    } else if s.at in {PlanningContext, ToolPlan, ToolExecute} {
      SlowTools(cfg, s, o);
    } else {
      SlowEntry(cfg, s, o);
    }
  }

  lemma SlowStep(cfg: Config, s: State, o: Optimum)
    requires Slow(cfg, s, o) && SlowLeft(cfg, s, o) > 2
    ensures var t := Step(cfg, s, Slowest(cfg, s, o));
            Slow(cfg, t, o) && SlowLeft(cfg, t, o) == SlowLeft(cfg, s, o) - 1 && t.request == s.request
  {
    var i := Slowest(cfg, s, o);
    GroundedKept(cfg, s, i);
    StepPays(cfg, s, i);
    SlowlyPaced(cfg, s, o);
    StepFollowsEdges(cfg, s, i);
  }

  /** With two executions left, the run stands at the verifier and nothing is left to repair. */
  lemma LastVerdict(cfg: Config, s: State, o: Optimum)
    requires Slow(cfg, s, o) && SlowLeft(cfg, s, o) == 2
    ensures var t := Step(cfg, s, Slowest(cfg, s, o));
            t.at == (if o.sound then DecisionGate else FinalResponse) && t.request == s.request
  {
    SlowVerifier(cfg, s, o);
  }

  // -------------------------------------------------------------------- whole runs

  function Last(run: seq<Session>): Session
    requires run != []
  {
    run[|run| - 1]
  }

  /** One more step. */
  lemma Extend(cfg: Config, request: R.TripRequest, run: seq<Session>, inputs: seq<Input>, i: Input)
    returns (longer: seq<Session>)
    requires IsRun(cfg, request, run, inputs)
    ensures IsRun(cfg, request, longer, inputs + [i]) && run <= longer
    ensures Last(longer) == Advance(cfg, Last(run), i)
    ensures Clock(longer, |longer| - 1) == Ticked(Last(run).state.at, Clock(run, |run| - 1))
  {
    longer := run + [Advance(cfg, Last(run), i)];
    SameClock(run, longer, |run| - 1);
    Extended(cfg, request, run, inputs, i);
  }

  lemma Extended(cfg: Config, request: R.TripRequest, run: seq<Session>, inputs: seq<Input>, i: Input)
    requires IsRun(cfg, request, run, inputs)
    ensures IsRun(cfg, request, run + [Advance(cfg, Last(run), i)], inputs + [i])
  {
    var longer := run + [Advance(cfg, Last(run), i)];
    forall k | 0 <= k < |inputs + [i]|
      ensures longer[k + 1] == Advance(cfg, longer[k], (inputs + [i])[k])
    {
      if k < |inputs| {
        assert longer[k + 1] == run[k + 1] && longer[k] == run[k] && (inputs + [i])[k] == inputs[k];
      } else {
        assert longer[k] == Last(run);
      }
    }
  }

  lemma {:induction false} SameClock(run: seq<Session>, longer: seq<Session>, n: nat)
    requires n < |run| && run <= longer
    ensures Clock(run, n) == Clock(longer, n)
  {
    if n == 0 {
    } else {
      SameClock(run, longer, n - 1);
    }
  }

  /** Every ranking of the run found one of these selections. */
  ghost predicate Found(inputs: seq<Input>, made: set<Optimum>) {
    forall k | 0 <= k < |inputs| :: inputs[k].optimum in made
  }

  /** A slow run with so many executions left and so many done. */
  ghost predicate Stage(cfg: Config, request: R.TripRequest, run: seq<Session>, inputs: seq<Input>, o: Optimum,
                        made: set<Optimum>, left: int, clock: int)
  {
    && IsRun(cfg, request, run, inputs) && Slow(cfg, Last(run).state, o) && o in made && Found(inputs, made)
    && SlowLeft(cfg, Last(run).state, o) == left && Clock(run, |run| - 1) == clock
  }

  lemma SlowTick(cfg: Config, request: R.TripRequest, run: seq<Session>, inputs: seq<Input>, o: Optimum,
                 made: set<Optimum>, left: int, clock: int)
    returns (longer: seq<Session>, all: seq<Input>)
    requires Stage(cfg, request, run, inputs, o, made, left, clock) && left > 2
    ensures Stage(cfg, request, longer, all, o, made, left - 1, clock + 1) && run <= longer
    ensures Last(longer).state.request == Last(run).state.request
  {
    var s := Last(run).state;
    SlowStep(cfg, s, o);
    longer := Extend(cfg, request, run, inputs, Slowest(cfg, s, o));
    all := inputs + [Slowest(cfg, s, o)];
  }

  lemma {:induction false} SlowRun(cfg: Config, request: R.TripRequest, start: seq<Session>, inputs: seq<Input>,
                                   o: Optimum, made: set<Optimum>, left: int, clock: int)
    returns (run: seq<Session>, all: seq<Input>)
    requires Stage(cfg, request, start, inputs, o, made, left, clock) && left >= 2
    ensures Stage(cfg, request, run, all, o, made, 2, clock + left - 2) && start <= run
    ensures Last(run).state.request == Last(start).state.request
    decreases left
  {
    if left == 2 {
      return start, inputs;
    }
    var next, fed := SlowTick(cfg, request, start, inputs, o, made, left, clock);
    run, all := SlowRun(cfg, request, next, fed, o, made, left - 1, clock + 1);
  }

  /** Where a run ends that took the given number of executions: at the gate, or after the last response. */
  ghost predicate Ended(cfg: Config, request: R.TripRequest, run: seq<Session>, inputs: seq<Input>, o: Optimum,
                        made: set<Optimum>, executed: int)
  {
    && IsRun(cfg, request, run, inputs) && Found(inputs, made)
    && Last(run).state.at == (if o.sound then DecisionGate else End)
    && Executed(run, |run| - 1) == executed
  }

  lemma NothingFollows(cfg: Config, s: State, i: Input)
    requires s.at.FinalResponse?
    ensures Step(cfg, s, i).at.End?
  {
  }

  lemma Finish(cfg: Config, request: R.TripRequest, start: seq<Session>, inputs: seq<Input>, o: Optimum,
               made: set<Optimum>, clock: int)
    returns (run: seq<Session>, all: seq<Input>)
    requires Stage(cfg, request, start, inputs, o, made, 2, clock)
    ensures Ended(cfg, request, run, all, o, made, clock + 2) && start <= run
    ensures o.sound ==> Last(run).state.request == Last(start).state.request
  {
    var s := Last(start).state;
    LastVerdict(cfg, s, o);
    var i := Slowest(cfg, s, o);
    run := Extend(cfg, request, start, inputs, i);
    all := inputs + [i];
    if !o.sound {
      NothingFollows(cfg, Last(run).state, i);
      run := Extend(cfg, request, run, all, i);
      all := all + [i];
    }
  }

  /** From a slow state the rest of the invocation takes exactly what is left. */
  lemma WholeInvocation(cfg: Config, request: R.TripRequest, start: seq<Session>, inputs: seq<Input>, o: Optimum,
                        made: set<Optimum>, left: int, clock: int)
    returns (run: seq<Session>, all: seq<Input>)
    requires Stage(cfg, request, start, inputs, o, made, left, clock) && left >= 2
    ensures Ended(cfg, request, run, all, o, made, clock + left) && start <= run
    ensures o.sound ==> Last(run).state.request == Last(start).state.request
  {
    run, all := SlowRun(cfg, request, start, inputs, o, made, left, clock);
    run, all := Finish(cfg, request, run, all, o, made, clock + left - 2);
  }

  /**
    The first invocation for any complete request can take 17 executions plus all retries:
    the proposal's up to the gate, or the budget's up to the end.
    */
  lemma FirstInvocationIsTight(cfg: Config, request: R.TripRequest, o: Optimum, made: set<Optimum>)
    returns (run: seq<Session>, inputs: seq<Input>)
    requires RequestCheck.Complete(request) && o.feasible && o in made
    ensures Ended(cfg, request, run, inputs, o, made, 17 + LoopsOf(cfg) + RepairsOf(cfg, o))
    ensures o.sound ==> Last(run).state.request == request
    ensures run[0].state.saved == []
  {
    var start := [Start(request, [])];
    StartIsSlow(cfg, request, o);
    run, inputs := WholeInvocation(cfg, request, start, [], o, made, 17 + LoopsOf(cfg) + RepairsOf(cfg, o), 0);
  }

  lemma StartIsSlow(cfg: Config, request: R.TripRequest, o: Optimum)
    requires RequestCheck.Complete(request) && o.feasible
    ensures var s := Start(request, []).state;
            Slow(cfg, s, o) && SlowLeft(cfg, s, o) == 17 + LoopsOf(cfg) + RepairsOf(cfg, o)
  {
  }

  lemma OnlyPredecessors(m: Node)
    ensures ApplyRevision in Successors(m) ==> m.RevisionAnalyze?
    ensures RevisionAnalyze in Successors(m) ==> m.DecisionGate?
  {
  }

  /** Where a revision is about to be applied, only the gate and the analysis have run since it was resumed. */
  lemma ApplicationIsThird(cfg: Config, request: R.TripRequest, run: seq<Session>, inputs: seq<Input>, n: nat)
    requires IsRun(cfg, request, run, inputs) && n < |run| && run[n].state.at.ApplyRevision?
    ensures Clock(run, n) == 2
  {
    StepFollowsEdges(cfg, run[n - 1].state, inputs[n - 1]);
    OnlyPredecessors(run[n - 1].state.at);
    StepFollowsEdges(cfg, run[n - 2].state, inputs[n - 2]);
    OnlyPredecessors(run[n - 2].state.at);
  }

  /** After an applied revision that leaves the request complete
      the bound of 19 executions plus all retries is reached. */
  lemma RevisionIsTight(cfg: Config, request: R.TripRequest, start: seq<Session>, inputs: seq<Input>, o: Optimum,
                        made: set<Optimum>)
    returns (run: seq<Session>, all: seq<Input>)
    requires IsRun(cfg, request, start, inputs) && |start| > 1 && o.feasible && o in made && Found(inputs, made)
    requires start[|start| - 2].state.at.ApplyRevision? && Last(start).state.at.MissingInfoCheck?
    requires RequestCheck.Complete(Last(start).state.request)
    ensures Ended(cfg, request, run, all, o, made, 19 + LoopsOf(cfg) + RepairsOf(cfg, o)) && start <= run
  {
    var n := |start| - 2;
    ApplicationIsThird(cfg, request, start, inputs, n);
    ApplyClears(cfg, start[n].state, inputs[n]);
    FreshIsSlow(cfg, Last(start).state, o);
    run, all := WholeInvocation(cfg, request, start, inputs, o, made, 16 + LoopsOf(cfg) + RepairsOf(cfg, o), 3);
  }

  lemma ApplyClears(cfg: Config, s: State, i: Input)
    requires s.at.ApplyRevision?
    ensures var t := Step(cfg, s, i);
            t.at.MissingInfoCheck? ==> t.derived == FRESH && t.budgetRetry == t.ragRetry == t.proposalRetry == 0
  {
  }

  lemma FreshIsSlow(cfg: Config, t: State, o: Optimum)
    requires t.at.MissingInfoCheck? && t.derived == FRESH && t.budgetRetry == t.ragRetry == t.proposalRetry == 0
    requires RequestCheck.Complete(t.request) && o.feasible
    ensures Slow(cfg, t, o) && SlowLeft(cfg, t, o) == 16 + LoopsOf(cfg) + RepairsOf(cfg, o)
  {
  }

  // ----------------------------------------------------------- a revision that applies

  /** A patch that leaves a complete request complete: one room for everybody. */
  const ONE_ROOM := R.Patch([R.SetRooms(1)], [], [], [], [], [], [], [], [], [], [], [])

  /** The last day of the trip is a date Python can represent. */
  predicate EndsInTime(r: R.TripRequest) {
    r.startDate.Some? && r.days.Some? && r.startDate.value + r.days.value - 1 <= R.MAX_DATE
  }

  lemma OneRoomFields(r: R.TripRequest)
    ensures R.ApplyOps(r, ONE_ROOM.ops) == Ok(r.(roomCount := Some(1))) && R.Touched(ONE_ROOM.ops) == {R.RoomCount}
  {
    R.OneOperation(r, R.SetRooms(1));
  }

  lemma OneRoomDates(r: R.TripRequest)
    requires RequestCheck.Complete(r) && EndsInTime(r)
    ensures var e := R.Normalize(r.(roomCount := Some(1)), {R.RoomCount});
            && e.Ok? && e.value == r.(roomCount := Some(1), endDate := e.value.endDate)
            && R.RequestSchemaOk(e.value) && RequestCheck.Consistent(e.value)
  {
  }

  lemma OneRoomApplies(r: R.TripRequest, change: string)
    requires RequestCheck.Complete(r) && EndsInTime(r)
    ensures R.ApplyPatch(r, ONE_ROOM, change).Ok? && RequestCheck.Complete(R.ApplyPatch(r, ONE_ROOM, change).value)
  {
    OneRoomFields(r);
    OneRoomDates(r);
    assert ONE_ROOM.SchemaOk();
  }

  lemma WordsAreText()
    ensures Strip("one room") == "one room"
  {
    assert LeftStrip("one room") == "one room" && RightStrip("one room") == "one room";
  }

  /** The answer that asks for a change of what the gate put to the person. */
  function ChangeRequest(p: Payload): Answer {
    Answer(RequestChanges, p.proposal, p.action, Some("one room"), None, None)
  }

  lemma ChangeIsTaken(s: State, p: Payload, i: Input)
    requires BuildPayload(s.derived) == Some(p) && i.answer == ChangeRequest(p)
    ensures GateStep(s, i).at.RevisionAnalyze?
  {
    WordsAreText();
    assert StripOr(Some("one room")) == "one room";
  }

  lemma GateAnswered(cfg: Config, w: Session, o: Optimum) returns (i: Input)
    requires AtGate(w) && w.state.at.DecisionGate?
    ensures Step(cfg, w.state, i).at.RevisionAnalyze? && Step(cfg, w.state, i).request == w.state.request
    ensures i.optimum == o
  {
    GateOpens(w);
    var p := BuildPayload(w.state.derived).value;
    i := Slowest(cfg, w.state, o).(answer := ChangeRequest(p));
    ChangeIsTaken(w.state, p, i);
    StepFollowsEdges(cfg, w.state, i);
  }

  /** Where a run stands, the invariant says what is settled. */
  lemma LastAgrees(cfg: Config, request: R.TripRequest, run: seq<Session>, inputs: seq<Input>)
    requires IsRun(cfg, request, run, inputs)
    ensures Agreement(Last(run))
  {
    Always(cfg, request, run, inputs, |run| - 1);
  }

  /** A run that stands at a node with the given request, its rankings having found nothing but o. */
  ghost predicate Standing(cfg: Config, request: R.TripRequest, run: seq<Session>, inputs: seq<Input>, o: Optimum,
                           at: Node, current: R.TripRequest)
  {
    && IsRun(cfg, request, run, inputs) && Found(inputs, {o})
    && Last(run).state.at == at && Last(run).state.request == current
  }

  /** From the gate to the analysis. */
  lemma AskForChanges(cfg: Config, request: R.TripRequest, run: seq<Session>, inputs: seq<Input>, o: Optimum,
                      current: R.TripRequest)
    returns (longer: seq<Session>, all: seq<Input>)
    requires Standing(cfg, request, run, inputs, o, DecisionGate, current)
    ensures Standing(cfg, request, longer, all, o, RevisionAnalyze, current)
  {
    LastAgrees(cfg, request, run, inputs);
    var i := GateAnswered(cfg, Last(run), o);
    longer := Extend(cfg, request, run, inputs, i);
    all := inputs + [i];
  }

  lemma AnalysisIsReady(w: Session, i: Input)
    requires Settled(w) && w.state.at.RevisionAnalyze? && i.reading == Understood(ONE_ROOM)
    ensures var t := AnalyzeStep(w.state, i);
            t.at.ApplyRevision? && t.analysis.ReadyPlan? && t.analysis.patch == ONE_ROOM && t.request == w.state.request
  {
  }

  lemma AnalysisAnswered(cfg: Config, w: Session, o: Optimum) returns (i: Input)
    requires Settled(w) && w.state.at.RevisionAnalyze?
    ensures var t := Step(cfg, w.state, i);
            t.at.ApplyRevision? && t.analysis.ReadyPlan? && t.analysis.patch == ONE_ROOM && t.request == w.state.request
    ensures i.optimum == o
  {
    i := Slowest(cfg, w.state, o).(reading := Understood(ONE_ROOM));
    AnalysisIsReady(w, i);
  }

  /** From the analysis to the application. */
  lemma AnalyzeChanges(cfg: Config, request: R.TripRequest, run: seq<Session>, inputs: seq<Input>, o: Optimum,
                       current: R.TripRequest)
    returns (longer: seq<Session>, all: seq<Input>)
    requires Standing(cfg, request, run, inputs, o, RevisionAnalyze, current)
    ensures Standing(cfg, request, longer, all, o, ApplyRevision, current)
    ensures Last(longer).state.analysis.ReadyPlan? && Last(longer).state.analysis.patch == ONE_ROOM
  {
    LastAgrees(cfg, request, run, inputs);
    var i := AnalysisAnswered(cfg, Last(run), o);
    longer := Extend(cfg, request, run, inputs, i);
    all := inputs + [i];
  }

  lemma OneRoomFits(w: Session)
    requires Settled(w) && w.state.at.ApplyRevision? && w.state.analysis.patch == ONE_ROOM
    requires RequestCheck.Complete(w.state.request) && EndsInTime(w.state.request)
    ensures Applies(w.state)
    ensures RequestCheck.Complete(
              R.ApplyPatch(w.state.request, w.state.analysis.patch, w.state.change.value.text).value)
  {
    OneRoomApplies(w.state.request, w.state.change.value.text);
  }

  lemma ApplyIsStep(cfg: Config, s: State, i: Input)
    requires s.at.ApplyRevision?
    ensures Step(cfg, s, i) == ApplyStep(s)
  {
  }

  /** From the application back to the chain. */
  lemma ApplyChanges(cfg: Config, request: R.TripRequest, run: seq<Session>, inputs: seq<Input>, o: Optimum,
                     current: R.TripRequest)
    returns (longer: seq<Session>, all: seq<Input>)
    requires Standing(cfg, request, run, inputs, o, ApplyRevision, current)
    requires Last(run).state.analysis.ReadyPlan? && Last(run).state.analysis.patch == ONE_ROOM
    requires RequestCheck.Complete(current) && EndsInTime(current)
    ensures IsRun(cfg, request, longer, all) && run <= longer && |longer| == |run| + 1 && Found(all, {o})
    ensures Last(longer).state.at.MissingInfoCheck? && RequestCheck.Complete(Last(longer).state.request)
  {
    LastAgrees(cfg, request, run, inputs);
    var i := Slowest(cfg, Last(run).state, o);
    OneRoomFits(Last(run));
    H.ApplyFrame(Last(run).state);
    ApplyIsStep(cfg, Last(run).state, i);
    longer := Extend(cfg, request, run, inputs, i);
    all := inputs + [i];
  }

  /**
    For every complete request and all settings some run takes 19 executions plus all
    retries in one invocation: first with a selection in order up to the gate, then,
    after a revision, with any selection o.
    */
  lemma BoundIsReached(cfg: Config, request: R.TripRequest, good: Optimum, o: Optimum)
    returns (run: seq<Session>, inputs: seq<Input>)
    requires RequestCheck.Complete(request) && EndsInTime(request)
    requires good == Optimum(true, true) && o.feasible
    ensures Ended(cfg, request, run, inputs, o, {good, o}, 19 + LoopsOf(cfg) + RepairsOf(cfg, o))
  {
    run, inputs := FirstInvocationIsTight(cfg, request, good, {good});
    run, inputs := AskForChanges(cfg, request, run, inputs, good, request);
    run, inputs := AnalyzeChanges(cfg, request, run, inputs, good, request);
    run, inputs := ApplyChanges(cfg, request, run, inputs, good, request);
    run, inputs := RevisionIsTight(cfg, request, run, inputs, o, {good, o});
  }
}
