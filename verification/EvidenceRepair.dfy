/**
  The evidence repair loop: the plan of app/rag/retrieval_planner.py, the counter of
  app/nodes/retrieval_plan_node.py and the grade of app/rag/evidence_grader.py with
  the semantic review of app/rag/agentic_evidence_grader.py. Only the two categories
  that can be required, guides and safety notices, are kept.
  */
module EvidenceRepair {
  import opened Prelude

  /** Which of the two categories are required, missing, or searched for. */
  datatype Needs = Needs(guides: bool, safety: bool) {
    predicate Any() { guides || safety }

    function Within(other: Needs): Needs { Needs(guides && other.guides, safety && other.safety) }
  }

  datatype RagPlan = NoRagPlan | RagPlan(repair: bool, tasks: Needs, exhausted: bool, rounds: nat)

  datatype GradeStep = Continue | Repair | Stop

  datatype Grade = NoGrade | Grade(passed: bool, next: GradeStep)

  /** The part of the state the loop works on. */
  datatype Loop = Loop(plan: RagPlan, required: Option<Needs>, gaps: Option<Needs>, grade: Grade, retries: nat)

  /** What the planner reads besides: whether a destination is known, and whether the weather carries risks. */
  datatype Facts = Facts(plannable: bool, risks: bool)

  /** Planner and node; a planner that raises leaves the plan as it was. */
  function Plan(l: Loop, f: Facts, rounds: nat): Loop {
    if !f.plannable then l
    else if l.gaps.Some? && l.gaps.value.Any() then
      if l.retries >= rounds then l.(plan := RagPlan(true, Needs(false, false), true, rounds))
      else
        var tasks := Needs(l.gaps.value.guides, l.gaps.value.safety && f.risks);
        l.(plan := RagPlan(true, tasks, false, rounds), retries := if tasks.Any() then l.retries + 1 else l.retries)
    else l.(plan := RagPlan(false, Needs(true, f.risks), false, rounds))
  }

  /** What the evidence at hand lacks, and what the judge misses where the rules are content. */
  datatype Review = Crashed | Review(short: Needs, judged: Needs)

  function Requirements(l: Loop): Needs
    requires l.plan.RagPlan?
  {
    if l.plan.repair && l.required.Some?
    then Needs(l.required.value.guides || l.plan.tasks.guides, l.required.value.safety || l.plan.tasks.safety)
    else l.plan.tasks
  }

  function GradeEvidence(l: Loop, r: Review): Loop {
    if r.Crashed? || l.plan.NoRagPlan? then l.(grade := Grade(false, Stop), gaps := None)
    else
      var req := Requirements(l);
      var done := l.(required := Some(req));
      var byRule, byJudge := r.short.Within(req), r.judged.Within(req);
      var mayRepair := !l.plan.exhausted && l.retries < l.plan.rounds;
      if byRule.Any() then
        done.(grade := Grade(false, if mayRepair then Repair else Stop), gaps := Some(byRule))
      else if byJudge.Any() then
        done.(grade := Grade(false, if mayRepair && !l.plan.repair then Repair else Stop), gaps := Some(byJudge))
      else done.(grade := Grade(true, Continue), gaps := None)
  }

  /** What holds whenever the planner is about to run. */
  predicate Ready(l: Loop, f: Facts, rounds: nat) {
    && l.retries <= rounds
    && (l.plan.RagPlan? ==> l.plan.rounds == rounds && f.plannable)
    && (l.required.Some? ==> l.required.value.guides && (l.required.value.safety ==> f.risks))
    && (l.gaps.Some? ==> l.required.Some?)
    && (l.gaps.Some? ==> l.gaps.value.Any() && (l.gaps.value.safety ==> f.risks) && l.retries < rounds && f.plannable)
  }

  /** What holds between planning and grading. */
  predicate Planned(l: Loop, f: Facts, rounds: nat) {
    && l.retries <= rounds
    && (l.plan.RagPlan? <==> f.plannable)
    && (l.plan.RagPlan? ==> l.plan.rounds == rounds && (l.plan.tasks.safety ==> f.risks) && !l.plan.exhausted)
    && (l.plan.RagPlan? ==> if l.plan.repair then l.required.Some? else l.plan.tasks.guides)
    && (l.required.Some? ==> l.required.value.guides && (l.required.value.safety ==> f.risks))
  }

  /** A requested repair always yields tasks, so it always consumes a retry. */
  lemma RepairConsumes(l: Loop, f: Facts, rounds: nat)
    requires Ready(l, f, rounds)
    ensures var n := Plan(l, f, rounds);
            && Planned(n, f, rounds)
            && n.retries == l.retries + (if l.gaps.Some? then 1 else 0)
            && (l.gaps.Some? ==> n.plan.repair && n.plan.tasks.Any() && !n.plan.exhausted)
  {
  }

  /** The grade keeps the loop's promises; it repairs only with a retry left, and passing clears the gaps. */
  lemma GradeKeeps(l: Loop, f: Facts, rounds: nat, r: Review)
    requires Planned(l, f, rounds)
    ensures var n := GradeEvidence(l, r);
            && n.retries == l.retries
            && n.grade.Grade?
            && (n.grade.next.Repair? ==> Ready(n, f, rounds) && n.gaps.Some?)
            && (n.grade.next.Continue? <==> n.grade.passed)
            && (n.grade.passed ==> Ready(n, f, rounds) && n.gaps.None?)
  {
  }

  /** One round of the loop. */
  function Round(l: Loop, f: Facts, rounds: nat, r: Review): Loop {
    GradeEvidence(Plan(l, f, rounds), r)
  }

  function Rounds(l: Loop, f: Facts, rounds: nat, reviews: seq<Review>): Loop {
    if reviews == [] then l
    else Round(Rounds(l, f, rounds, reviews[..|reviews| - 1]), f, rounds, reviews[|reviews| - 1])
  }

  predicate AllAskRepair(l: Loop, f: Facts, rounds: nat, reviews: seq<Review>) {
    forall n | 1 <= n <= |reviews| :: Rounds(l, f, rounds, reviews[..n]).grade == Grade(false, Repair)
  }

  /** However the evidence is reviewed, at most the unused retries can end in another repair. */
  lemma {:induction false} RepairsBounded(l: Loop, f: Facts, rounds: nat, reviews: seq<Review>)
    requires Ready(l, f, rounds) && l.gaps.None?
    requires AllAskRepair(l, f, rounds, reviews)
    ensures |reviews| <= rounds - l.retries
    ensures reviews != [] ==> var n := Rounds(l, f, rounds, reviews);
                              Ready(n, f, rounds) && n.gaps.Some? && n.retries == l.retries + |reviews| - 1
  {
    if reviews == [] {
    } else {
      var k := |reviews| - 1;
      assert forall n | 1 <= n <= k :: reviews[..k][..n] == reviews[..n];
      RepairsBounded(l, f, rounds, reviews[..k]);
      var before := Rounds(l, f, rounds, reviews[..k]);
      RepairConsumes(before, f, rounds);
      GradeKeeps(Plan(before, f, rounds), f, rounds, reviews[k]);
      assert reviews[..k + 1] == reviews;
    }
  }

  // ------------------------------------------------------------ rounds in full

  /** The review leaves the category open: the rules find too little, or the judge does where they are content. */
  predicate Lacks(short: bool, judged: bool) {
    short || judged
  }

  /** What the rules report of what is required, or else what the judge does. */
  predicate Reports(gaps: Option<Needs>, r: Review, guides: bool, safety: bool)
    requires r.Review?
  {
    && gaps.Some?
    && (if (guides && r.short.guides) || (safety && r.short.safety)
        then gaps.value.guides == (guides && r.short.guides) && gaps.value.safety == (safety && r.short.safety)
        else gaps.value.guides == (guides && r.judged.guides) && gaps.value.safety == (safety && r.judged.safety))
  }

  /**
    A round without feedback searches for guides, and for safety notices under weather
    risks. It passes exactly when neither is lacking, and is repaired while retries are left.
    */
  lemma FirstRound(l: Loop, f: Facts, rounds: nat, r: Review)
    requires Ready(l, f, rounds) && l.gaps.None?
    ensures var n := Round(l, f, rounds, r);
            var open := r.Review? && (Lacks(r.short.guides, r.judged.guides)
                                      || (f.risks && Lacks(r.short.safety, r.judged.safety)));
            && (n.grade == Grade(true, Continue) <==> f.plannable && r.Review? && !open)
            && (n.grade == Grade(false, Repair) <==> f.plannable && r.Review? && open && l.retries < rounds)
            && (n.grade.next.Stop? ==> !n.grade.passed)
            && (f.plannable && r.Review? ==> n.required == Some(Needs(true, f.risks)))
            && (f.plannable && r.Review? && open ==> Reports(n.gaps, r, true, f.risks))
            && n.retries == l.retries
  {
  }

  /**
    A repair searches for the gaps alone but is graded on everything required before. A
    second repair is asked for only where the rules find too little.
    */
  lemma RepairRound(l: Loop, f: Facts, rounds: nat, r: Review)
    requires Ready(l, f, rounds) && l.gaps.Some?
    ensures var p := Plan(l, f, rounds).plan;
            p.RagPlan? && p.repair && p.tasks == l.gaps.value && !p.exhausted
    ensures var n := Round(l, f, rounds, r);
            var safety := l.required.value.safety || l.gaps.value.safety;
            var byRule := r.Review? && (r.short.guides || (safety && r.short.safety));
            var open := r.Review? && (Lacks(r.short.guides, r.judged.guides)
                                      || (safety && Lacks(r.short.safety, r.judged.safety)));
            && (n.grade == Grade(true, Continue) <==> r.Review? && !open)
            && (n.grade == Grade(false, Repair) <==> byRule && l.retries + 1 < rounds)
            && (r.Review? ==> n.required == Some(Needs(true, safety)))
            && (open ==> Reports(n.gaps, r, true, safety))
            && n.retries == l.retries + 1
  {
  }

  /** With the rounds used up a repair has no tasks, uses up nothing and cannot lead to another. */
  lemma ExhaustedPlan(l: Loop, f: Facts, rounds: nat, r: Review)
    requires f.plannable && l.gaps.Some? && (l.gaps.value.guides || l.gaps.value.safety) && l.retries >= rounds
    ensures var p := Plan(l, f, rounds);
            p.plan == RagPlan(true, Needs(false, false), true, rounds) && p.retries == l.retries
    ensures !Round(l, f, rounds, r).grade.next.Repair?
  {
  }

  /** Feedback that names nothing is no feedback, and a gap in safety is not searched for without risks. */
  lemma IdleFeedback(l: Loop, f: Facts, rounds: nat)
    requires f.plannable && l.gaps.Some?
    ensures l.gaps == Some(Needs(false, false)) ==>
              Plan(l, f, rounds).plan == RagPlan(false, Needs(true, f.risks), false, rounds)
    ensures l.gaps == Some(Needs(false, true)) && !f.risks && l.retries < rounds ==>
              Plan(l, f, rounds) == l.(plan := RagPlan(true, Needs(false, false), false, rounds))
  {
  }

  /** Without a plan, or when the review crashes, the loop stops without feedback. */
  lemma CrashStops(l: Loop, r: Review)
    requires r.Crashed? || l.plan.NoRagPlan?
    ensures GradeEvidence(l, r).grade == Grade(false, Stop) && GradeEvidence(l, r).gaps.None?
  {
  }
}
