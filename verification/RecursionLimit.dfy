/**
  The recursion limit of app/common/config.py: which limits suffice for every run of the
  graph, with worst runs built from candidate lists the optimizer really works on.
*/
module RecursionLimit {
  import opened Prelude
  import opened Text
  import opened Workflow
  import opened WorkflowSafety
  import opened WorkflowBounds
  import opened WorkflowTightness
  import B = BudgetOptimizer
  import T = BudgetTheorems
  import V = BudgetVerification
  import W = BudgetWitnesses
  import R = Revision
  import RequestCheck
  import Rounding
  import ToolLoop

  // -------------------------------------------------------- what the optimizer finds

  /** The run's view of the optimizer: does it select, and do the verifier's checks accept the selection. */
  ghost function OptimumOf(cfg: B.ValidConfig, plan: B.Plan, flights: seq<B.Candidate>, hotels: seq<B.Candidate>,
                           digest: string -> string, tolerance: real): Optimum
  {
    var out := B.Solve(B.ProblemOf(cfg, plan, flights, hotels, digest));
    Optimum(out.Selected?, out.Selected? && V.Sound(plan, flights, hotels, out.best, tolerance))
  }

  /** A trip without a budget and without preferences. */
  const UNLIMITED := B.Plan(true, None, None, None, None, None, None, None, None)

  /** One flight each way and one hotel, the outbound flight under the given id. */
  function Flights(id: string): seq<B.Candidate> {
    [W.Flight(id, "outbound", 50.0), W.INBOUND]
  }

  const HOTELS := [W.HOTEL]

  ghost function Offered(id: string, digest: string -> string, tolerance: real): Optimum {
    OptimumOf(W.SETTINGS, UNLIMITED, Flights(id), HOTELS, digest, tolerance)
  }

  lemma OfferedProblem(id: string, digest: string -> string)
    requires Strip(id) != ""
    ensures B.ProblemOf(W.SETTINGS, UNLIMITED, Flights(id), HOTELS, digest)
         == B.Problem(W.SETTINGS, UNLIMITED, digest, [W.Flight(id, "outbound", 50.0)], [W.INBOUND], HOTELS)
  {
    W.Words();
    W.ProblemOfThree(UNLIMITED, W.Flight(id, "outbound", 50.0), W.INBOUND, W.HOTEL, digest);
  }

  lemma WholePrices()
    ensures Rounding.IsWhole(50.0) && Rounding.IsWhole(30.0) && Rounding.IsWhole(20.0)
  {
    assert (50.0).Floor == 50 && (30.0).Floor == 30 && (20.0).Floor == 20;
  }

  lemma OfferedIsRanked(id: string)
    requires Strip(id) != ""
    ensures V.AllRanked(Flights(id), HOTELS)
  {
    WholePrices();
    W.Words();
  }

  lemma OfferedIsSelected(id: string, digest: string -> string)
    requires Strip(id) != ""
    ensures var out := B.Solve(B.ProblemOf(W.SETTINGS, UNLIMITED, Flights(id), HOTELS, digest));
            out.Selected? && out.best.triple == B.Triple(W.Flight(id, "outbound", 50.0), W.INBOUND, W.HOTEL)
  {
    OfferedProblem(id, digest);
    var p := B.ProblemOf(W.SETTINGS, UNLIMITED, Flights(id), HOTELS, digest);
    var t := B.Triple(W.Flight(id, "outbound", 50.0), W.INBOUND, W.HOTEL);
    assert T.InLists(p, t) && p.Feasible(t);
    T.SelectedIff(p);
    T.BestIsFeasible(p);
  }

  /** A flight whose id has white space around it is selected, and the selection fails the verifier's checks. */
  lemma OfferedOptimum(id: string, digest: string -> string, tolerance: real)
    requires Strip(id) != "" && tolerance >= 0.0
    ensures Offered(id, digest, tolerance) == Optimum(true, Strip(id) == id)
  {
    OfferedIsRanked(id);
    OfferedIsSelected(id, digest);
    V.SelectionSoundIff(W.SETTINGS, UNLIMITED, Flights(id), HOTELS, digest, tolerance);
    W.Words();
  }

  lemma PaddedId()
    ensures Strip("out") == "out" && Strip(" out") == "out"
  {
    W.Words();
    assert LeftStrip(" out") == LeftStrip("out") by {
      assert " out"[1..] == "out";
    }
  }

  // -------------------------------------------------------------------- the worst run

  /** A single traveller's three days in Chengdu. */
  const REQUEST := R.TripRequest(Some("杭州"), Some("成都"), Some(739000), None, Some(3), None, Some(1), None,
                                 [], [], [], [], [], [], "")

  lemma RequestIsComplete()
    ensures RequestCheck.Complete(REQUEST) && EndsInTime(REQUEST)
  {
    assert LeftStrip("杭州") == "杭州" && RightStrip("杭州") == "杭州";
    assert LeftStrip("成都") == "成都" && RightStrip("成都") == "成都";
  }

  /** One of the two selections takes as long as any. */
  lemma WorstOf(cfg: Config, clean: Optimum, padded: Optimum) returns (run: seq<Session>, inputs: seq<Input>)
    requires clean == Optimum(true, true) && padded == Optimum(true, false)
    ensures IsRun(cfg, REQUEST, run, inputs) && Executed(run, |run| - 1) == 19 + Retries(cfg)
    ensures Found(inputs, {clean, padded})
  {
    RequestIsComplete();
    RetriesAreEither(cfg);
    if RepairsOf(cfg, padded) >= RepairsOf(cfg, clean) {
      run, inputs := BoundIsReached(cfg, REQUEST, clean, padded);
    } else {
      run, inputs := BoundIsReached(cfg, REQUEST, clean, clean);
    }
  }

  lemma BothOffers(digest: string -> string, tolerance: real)
    requires tolerance >= 0.0
    ensures Offered("out", digest, tolerance) == Optimum(true, true)
    ensures Offered(" out", digest, tolerance) == Optimum(true, false)
  {
    PaddedId();
    OfferedOptimum("out", digest, tolerance);
    OfferedOptimum(" out", digest, tolerance);
  }

  /**
    For all settings there is a run whose every ranking offers one of the two lists above
    and in which one invocation takes 19 executions plus all retries.
    */
  lemma WorstRun(cfg: Config, digest: string -> string, tolerance: real) returns (run: seq<Session>, inputs: seq<Input>)
    requires tolerance >= 0.0
    ensures IsRun(cfg, REQUEST, run, inputs) && Executed(run, |run| - 1) == 19 + Retries(cfg)
    ensures Found(inputs, {Offered("out", digest, tolerance), Offered(" out", digest, tolerance)})
  {
    BothOffers(digest, tolerance);
    run, inputs := WorstOf(cfg, Optimum(true, true), Optimum(true, false));
  }

  // ---------------------------------------------------------------- which limits suffice

  /** No invocation of any run executes more nodes than the limit. */
  ghost predicate FitsIn(cfg: Config, limit: int) {
    forall request: R.TripRequest, run: seq<Session>, inputs: seq<Input>, n: nat
      | IsRun(cfg, request, run, inputs) && n < |run| :: Executed(run, n) <= limit
  }

  /** A recursion limit suffices for every run exactly from 19 plus the retries' worth on. */
  lemma LimitSufficesIff(cfg: Config, limit: int)
    ensures FitsIn(cfg, limit) <==> 19 + Retries(cfg) <= limit
  {
    if FitsIn(cfg, limit) {
      var run, inputs := WorstRun(cfg, s => s, 1.0);
      assert Executed(run, |run| - 1) <= limit;
    } else {
      var request: R.TripRequest, run: seq<Session>, inputs: seq<Input>, n: nat
        :| IsRun(cfg, request, run, inputs) && n < |run| && Executed(run, n) > limit;
      InvocationsAreBounded(cfg, request, run, inputs, n);
    }
  }

  /** The settings' ranges, and what they are by default. */
  predicate Allowed(cfg: Config) {
    cfg.tools.planRetries <= 2 && cfg.tools.executeRetries <= 2 && cfg.ragRounds <= 1
    && cfg.budgetRepairs <= 3 && cfg.proposalRepairs <= 3
  }

  const DEFAULTS := Config(ToolLoop.Limits(1, 1), 1, 1, 1)
  const LARGEST := Config(ToolLoop.Limits(2, 2), 1, 3, 3)

  /**
    The default retries need a limit of 35 and the largest allowed ones 54; the smallest
    allowed limit, 10, suffices for none.
    */
  lemma LimitOfTheSettings(limit: int)
    ensures FitsIn(DEFAULTS, limit) <==> 35 <= limit
    ensures (forall cfg | Allowed(cfg) :: FitsIn(cfg, limit)) <==> 54 <= limit
    ensures limit <= 18 ==> forall cfg :: !FitsIn(cfg, limit)
  {
    LimitSufficesIff(DEFAULTS, limit);
    LimitSufficesIff(LARGEST, limit);
    assert Allowed(LARGEST);
    forall cfg: Config
      ensures FitsIn(cfg, limit) <==> 19 + Retries(cfg) <= limit
    {
      LimitSufficesIff(cfg, limit);
    }
  }
}
