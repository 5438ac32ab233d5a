/**
  The tool loop: the cached dispatcher of app/nodes/tool_execute_node.py and the
  tool check of app/nodes/tool_check_node.py with its two bounded retry counters.
  */
module ToolLoop {
  import opened Prelude
  import opened Collections
  import opened ToolPlanning

  /** What a tool returns; `status` is None where the answer carries none. */
  datatype Raw = Raw(status: Option<string>, body: string)

  /** The fetch meta of a tool: its status, and the arguments it was called with. */
  datatype Meta = NoMeta | Meta(status: Option<string>, signature: Option<Args>)

  /** What a tool's result fields hold. */
  datatype Data = NoData | Answered(raw: Raw) | Unavailable(tool: string, error: string) | SkippedByPolicy

  datatype Slot = Slot(data: Data, meta: Meta)

  /** The result and meta fields of the state, by the tool they belong to. */
  type Fields = map<string, Slot>

  /** The tools that have meta fields. */
  const META_TOOLS := [WEATHER, FLIGHTS, HOTELS, ACTIVITIES]

  /** A tool call ends in an answer or raises. */
  type Tools = (string, Args) -> Result<Raw, string>

  const MISMATCH := "server_id does not match the registry"

  function Get(fields: Fields, tool: string): Slot {
    if tool in fields then fields[tool] else Slot(NoData, NoMeta)
  }

  predicate Failed(meta: Meta) {
    meta.NoMeta? || meta.status.None? || meta.status.value == "failed"
  }

  function IsCached(fields: Fields, c: Call): bool {
    c.toolName in META_TOOLS
    && !Failed(Get(fields, c.toolName).meta)
    && Get(fields, c.toolName).meta.signature == Some(c.args)
  }

  /** `_adapt_success`: unknown tools leave no trace. */
  function AdaptSuccess(c: Call, raw: Raw): Fields {
    if c.toolName in META_TOOLS then map[c.toolName := Slot(Answered(raw), Meta(raw.status, Some(c.args)))] else map[]
  }

  /** `_adapt_failure`: the failure of an unknown tool lands in the activity fields. */
  function AdaptFailure(c: Call, error: string): Fields {
    var field := if c.toolName in META_TOOLS then c.toolName else ACTIVITIES;
    map[field := Slot(Unavailable(c.toolName, error), Meta(Some("failed"), Some(c.args)))]
  }

  /** What performing the call writes. */
  function Perform(c: Call, tools: Tools, cat: Catalog): Fields
    requires c.toolName in cat.servers
  {
    if cat.servers[c.toolName] != c.serverId then AdaptFailure(c, MISMATCH)
    else
      match tools(c.toolName, c.args)
      case Ok(raw) => AdaptSuccess(c, raw)
      case Err(e) => AdaptFailure(c, e)
  }

  /** Skipped without a server mismatch and with an unchanged signature. */
  predicate Skips(fields: Fields, c: Call, cat: Catalog)
    requires c.toolName in cat.servers
  {
    cat.servers[c.toolName] == c.serverId && IsCached(fields, c)
  }

  predicate Registered(calls: seq<Call>, cat: Catalog) {
    forall i | 0 <= i < |calls| :: calls[i].toolName in cat.servers
  }

  /** The update after dispatching the calls against the fields at entry. */
  function Dispatch(fields: Fields, calls: seq<Call>, tools: Tools, cat: Catalog, useCache: bool): Fields
    requires Registered(calls, cat)
  {
    if calls == [] then map[]
    else
      var n := |calls| - 1;
      var update := Dispatch(fields, calls[..n], tools, cat, useCache);
      if useCache && Skips(fields, calls[n], cat) then update
      else update + Perform(calls[n], tools, cat)
  }

  predicate ActivityRequested(calls: seq<Call>) {
    exists i :: 0 <= i < |calls| && calls[i].toolName == ACTIVITIES
  }

  const SKIPPED := map[ACTIVITIES := Slot(SkippedByPolicy, Meta(Some("skipped"), None))]

  /** The fields after the node; `useCache` is true in the code, false in the reference run. */
  function Execute(fields: Fields, calls: seq<Call>, tools: Tools, cat: Catalog, useCache: bool): Fields
    requires Registered(calls, cat)
  {
    var after := fields + Dispatch(fields, calls, tools, cat, useCache);
    if ActivityRequested(calls) then after else after + SKIPPED
  }

  method ToolExecuteNode(fields: Fields, calls: seq<Call>, tools: Tools, cat: Catalog)
    returns (after: Fields, executed: nat)
    requires Registered(calls, cat)
    ensures after == Execute(fields, calls, tools, cat, true)
    ensures executed == |Filter(calls, (c: Call) => !(c.toolName in cat.servers && Skips(fields, c, cat)))|
  {
    var update: Fields := map[];
    executed := 0;
    for i := 0 to |calls|
      invariant update == Dispatch(fields, calls[..i], tools, cat, true)
      invariant executed == |Filter(calls[..i], (c: Call) => !(c.toolName in cat.servers && Skips(fields, c, cat)))|
    {
      assert calls[..i + 1][..i] == calls[..i];
      CountStep(calls, i, (c: Call) => !(c.toolName in cat.servers && Skips(fields, c, cat)));
      var c := calls[i];
      if cat.servers[c.toolName] != c.serverId {
        executed := executed + 1;
        update := update + AdaptFailure(c, MISMATCH);
        continue;
      }
      if IsCached(fields, c) {
        continue;
      }
      executed := executed + 1;
      var answer := tools(c.toolName, c.args);
      if answer.Ok? {
        update := update + AdaptSuccess(c, answer.value);
      } else {
        update := update + AdaptFailure(c, answer.error);
      }
    }
    assert calls[..|calls|] == calls;
    after := fields + update;
    if !ActivityRequested(calls) {
      after := after + SKIPPED;
    }
  }

  lemma CountStep(calls: seq<Call>, i: nat, p: Call -> bool)
    requires i < |calls|
    ensures |Filter(calls[..i + 1], p)| == |Filter(calls[..i], p)| + if p(calls[i]) then 1 else 0
  {
    assert calls[..i + 1] == calls[..i] + [calls[i]];
    FilterConcat(calls[..i], [calls[i]], p);
    assert [calls[i]][1..] == [];
  }

  // --------------------------------------------------------- cache transparency

  /** A non-failed meta with a signature vouches for the data beside it. */
  ghost predicate Vouched(fields: Fields, tools: Tools) {
    forall t | t in META_TOOLS ::
      var slot := Get(fields, t);
      !Failed(slot.meta) && slot.meta.signature.Some? ==>
        tools(t, slot.meta.signature.value).Ok? &&
        slot == Slot(Answered(tools(t, slot.meta.signature.value).value),
                     Meta(tools(t, slot.meta.signature.value).value.status, slot.meta.signature))
  }

  /** No call of a tool without meta fields precedes a call for activities. */
  predicate ForeignToolsLast(calls: seq<Call>) {
    forall i, j | 0 <= i < j < |calls| :: calls[j].toolName == ACTIVITIES ==> calls[i].toolName in META_TOOLS
  }

  /** The fields a call writes. */
  function FieldOf(c: Call): string {
    if c.toolName in META_TOOLS then c.toolName else ACTIVITIES
  }

  lemma PerformWrites(c: Call, tools: Tools, cat: Catalog)
    requires c.toolName in cat.servers
    ensures Perform(c, tools, cat).Keys <= {FieldOf(c)}
    ensures c.toolName in META_TOOLS ==> c.toolName in Perform(c, tools, cat)
  {
  }

  /** What is skipped would have written what is already there. */
  lemma SkippedIsThere(fields: Fields, c: Call, tools: Tools, cat: Catalog)
    requires c.toolName in cat.servers && Vouched(fields, tools) && Skips(fields, c, cat)
    ensures Perform(c, tools, cat) == map[c.toolName := Get(fields, c.toolName)]
  {
  }

  /** A later call of another tool writes another field. */
  lemma {:induction false} EarlierCallsElsewhere(fields: Fields, calls: seq<Call>, c: Call,
                                             tools: Tools, cat: Catalog, cache: bool)
    requires Registered(calls, cat) && c.toolName in META_TOOLS
    requires forall i | 0 <= i < |calls| :: calls[i].toolName != c.toolName
    requires c.toolName == ACTIVITIES ==> forall i | 0 <= i < |calls| :: calls[i].toolName in META_TOOLS
    ensures c.toolName !in Dispatch(fields, calls, tools, cat, cache)
  {
    if calls == [] {
    } else {
      var n := |calls| - 1;
      EarlierCallsElsewhere(fields, calls[..n], c, tools, cat, cache);
      PerformWrites(calls[n], tools, cat);
    }
  }

  lemma UpdatesAssociate(a: Fields, b: Fields, c: Fields)
    ensures a + (b + c) == (a + b) + c
  {
  }

  lemma RewritingIsNoOp(a: Fields, b: Fields, t: string)
    requires t in a && t !in b
    ensures a + (b + map[t := a[t]]) == a + b
  {
  }

  lemma {:induction false} DispatchTransparent(fields: Fields, calls: seq<Call>, tools: Tools, cat: Catalog)
    requires Registered(calls, cat) && Vouched(fields, tools)
    requires OneCallPerTool(calls) && ForeignToolsLast(calls)
    ensures fields + Dispatch(fields, calls, tools, cat, true) == fields + Dispatch(fields, calls, tools, cat, false)
  {
    if calls == [] {
    } else {
      var n := |calls| - 1;
      var c := calls[n];
      assert OneCallPerTool(calls[..n]) && ForeignToolsLast(calls[..n]);
      DispatchTransparent(fields, calls[..n], tools, cat);
      var cached := Dispatch(fields, calls[..n], tools, cat, true);
      var free := Dispatch(fields, calls[..n], tools, cat, false);
      if Skips(fields, c, cat) {
        EarlierCallsElsewhere(fields, calls[..n], c, tools, cat, false);
        SkippedIsThere(fields, c, tools, cat);
        RewritingIsNoOp(fields, free, c.toolName);
      } else {
        UpdatesAssociate(fields, cached, Perform(c, tools, cat));
        UpdatesAssociate(fields, free, Perform(c, tools, cat));
      }
    }
  }

  lemma {:induction false} DispatchVouched(fields: Fields, calls: seq<Call>, tools: Tools, cat: Catalog, cache: bool)
    requires Registered(calls, cat) && Vouched(fields, tools)
    ensures Vouched(fields + Dispatch(fields, calls, tools, cat, cache), tools)
  {
    if calls == [] {
    } else {
      var n := |calls| - 1;
      DispatchVouched(fields, calls[..n], tools, cat, cache);
      var before := Dispatch(fields, calls[..n], tools, cat, cache);
      if !(cache && Skips(fields, calls[n], cat)) {
        VouchedStep(fields + before, calls[n], tools, cat);
        UpdatesAssociate(fields, before, Perform(calls[n], tools, cat));
      }
    }
  }

  lemma VouchedStep(fields: Fields, c: Call, tools: Tools, cat: Catalog)
    requires c.toolName in cat.servers && Vouched(fields, tools)
    ensures Vouched(fields + Perform(c, tools, cat), tools)
  {
    var after := fields + Perform(c, tools, cat);
    forall t | t in META_TOOLS
      ensures var slot := Get(after, t);
              !Failed(slot.meta) && slot.meta.signature.Some? ==>
                tools(t, slot.meta.signature.value).Ok? &&
                slot == Slot(Answered(tools(t, slot.meta.signature.value).value),
                             Meta(tools(t, slot.meta.signature.value).value.status, slot.meta.signature))
    {
      if t !in Perform(c, tools, cat) {
        assert Get(after, t) == Get(fields, t);
      }
    }
  }

  /** One pass with the cache leaves what a pass without it would, and keeps the invariant. */
  lemma ExecuteTransparent(fields: Fields, calls: seq<Call>, tools: Tools, cat: Catalog)
    requires Registered(calls, cat) && Vouched(fields, tools)
    requires OneCallPerTool(calls) && ForeignToolsLast(calls)
    ensures Execute(fields, calls, tools, cat, true) == Execute(fields, calls, tools, cat, false)
    ensures Vouched(Execute(fields, calls, tools, cat, true), tools)
  {
    DispatchTransparent(fields, calls, tools, cat);
    DispatchVouched(fields, calls, tools, cat, true);
    var after := fields + Dispatch(fields, calls, tools, cat, true);
    if !ActivityRequested(calls) {
      assert forall t | t in META_TOOLS && t != ACTIVITIES :: Get(after + SKIPPED, t) == Get(after, t);
    }
  }

  /** Executing one plan after the other. */
  function ExecuteAll(fields: Fields, plans: seq<seq<Call>>, tools: Tools, cat: Catalog, useCache: bool): Fields
    requires forall i | 0 <= i < |plans| :: Registered(plans[i], cat)
  {
    if plans == [] then fields
    else Execute(ExecuteAll(fields, plans[..|plans| - 1], tools, cat, useCache),
                 plans[|plans| - 1], tools, cat, useCache)
  }

  /** Over any sequence of retries and re-plans the cache cannot be seen in the result fields. */
  lemma {:induction false} CacheIsTransparent(fields: Fields, plans: seq<seq<Call>>, tools: Tools, cat: Catalog)
    requires Vouched(fields, tools)
    requires forall i | 0 <= i < |plans| ::
               Registered(plans[i], cat) && OneCallPerTool(plans[i]) && ForeignToolsLast(plans[i])
    ensures ExecuteAll(fields, plans, tools, cat, true) == ExecuteAll(fields, plans, tools, cat, false)
    ensures Vouched(ExecuteAll(fields, plans, tools, cat, true), tools)
  {
    if plans == [] {
    } else {
      var n := |plans| - 1;
      CacheIsTransparent(fields, plans[..n], tools, cat);
      ExecuteTransparent(ExecuteAll(fields, plans[..n], tools, cat, true), plans[n], tools, cat);
    }
  }

  /** Compiled plans qualify as long as the registry offers only tools that have meta fields. */
  lemma CompiledPlansQualify(f: Facts, cat: Catalog, answer: Answer)
    requires cat.Valid() && f.Complete()
    requires forall t | t in cat.servers :: t in META_TOOLS
    ensures var calls := PlanNode(f, cat, answer).value.calls;
            Registered(calls, cat) && OneCallPerTool(calls) && ForeignToolsLast(calls)
  {
    PlanIsTheMatchingCalls(f, cat, answer);
    var calls := PlanNode(f, cat, answer).value.calls;
    assert forall i | 0 <= i < |calls| :: cat.Matches(calls[i]);
  }

  lemma SameAfterWrite(fields: Fields, a: Fields, b: Fields, written: Fields, tool: string)
    requires Get(fields + a, tool) == Get(fields + b, tool)
    ensures Get(fields + (a + written), tool) == Get(fields + (b + written), tool)
  {
  }

  /** The fields of a tool other than the activity search never show the cache, whatever foreign tools are called. */
  lemma {:induction false} FieldTransparent(fields: Fields, calls: seq<Call>, tools: Tools, cat: Catalog, tool: string)
    requires Registered(calls, cat) && Vouched(fields, tools) && OneCallPerTool(calls)
    requires tool in META_TOOLS && tool != ACTIVITIES
    ensures Get(fields + Dispatch(fields, calls, tools, cat, true), tool)
         == Get(fields + Dispatch(fields, calls, tools, cat, false), tool)
  {
    if calls == [] {
    } else {
      var n := |calls| - 1;
      var c := calls[n];
      FieldTransparent(fields, calls[..n], tools, cat, tool);
      PerformWrites(c, tools, cat);
      if Skips(fields, c, cat) {
        SkippedIsThere(fields, c, tools, cat);
        if c.toolName == tool {
          EarlierCallsElsewhere(fields, calls[..n], c, tools, cat, true);
        }
      } else {
        var cached := Dispatch(fields, calls[..n], tools, cat, true);
        var free := Dispatch(fields, calls[..n], tools, cat, false);
        SameAfterWrite(fields, cached, free, Perform(c, tools, cat), tool);
      }
    }
  }

  /** So it stays for the fields after the node. */
  lemma AfterTransparent(fields: Fields, calls: seq<Call>, tools: Tools, cat: Catalog, tool: string)
    requires Registered(calls, cat) && Vouched(fields, tools) && OneCallPerTool(calls)
    requires tool in META_TOOLS && tool != ACTIVITIES
    ensures Get(Execute(fields, calls, tools, cat, true), tool) == Get(Execute(fields, calls, tools, cat, false), tool)
  {
    FieldTransparent(fields, calls, tools, cat, tool);
  }

  // ------------------------------------------------------------------- the check

  datatype Next = GoToPlan | GoToExecute | GoToRank | GoToFinal

  datatype Limits = Limits(planRetries: nat, executeRetries: nat)

  /** The decision of the check and the two counters after it. */
  datatype Verdict = Verdict(next: Next, planRetry: nat, executeRetry: nat)

  /** The branches of the check. */
  function Decide(missing: bool, needsReplan: bool, failedRequired: bool,
                  planRetry: nat, executeRetry: nat, lim: Limits): Verdict
  {
    if missing then
      if planRetry < lim.planRetries then Verdict(GoToPlan, planRetry + 1, executeRetry)
      else Verdict(GoToFinal, planRetry, executeRetry)
    else if needsReplan && planRetry < lim.planRetries then Verdict(GoToPlan, planRetry + 1, executeRetry)
    else if failedRequired then
      if executeRetry < lim.executeRetries then Verdict(GoToExecute, planRetry, executeRetry + 1)
      else Verdict(GoToFinal, planRetry, executeRetry)
    else Verdict(GoToRank, planRetry, executeRetry)
  }

  predicate Planned(calls: seq<Call>, tool: string) {
    exists i :: 0 <= i < |calls| && calls[i].toolName == tool
  }

  predicate AsksForReplan(issue: Issue) {
    issue.UnsupportedOptionalTool? || issue.InvalidOptionalToolArguments?
    || issue.OptionalToolCallLimitExceeded? || issue.InvalidExecutableToolCall?
  }

  function CheckNode(plan: Plan, fields: Fields, planRetry: nat, executeRetry: nat, lim: Limits): Verdict {
    Decide(exists t | t in REQUIRED :: !Planned(plan.calls, t),
           exists i | 0 <= i < |plan.issues| :: AsksForReplan(plan.issues[i]),
           exists t | t in REQUIRED :: Failed(Get(fields, t).meta),
           planRetry, executeRetry, lim)
  }

  /** Retries left; what every round trip uses up. */
  function Unused(planRetry: nat, executeRetry: nat, lim: Limits): int {
    (if planRetry < lim.planRetries then lim.planRetries - planRetry else 0)
    + (if executeRetry < lim.executeRetries then lim.executeRetries - executeRetry else 0)
  }

  lemma EveryRetryIsPaid(plan: Plan, fields: Fields, planRetry: nat, executeRetry: nat, lim: Limits)
    ensures var v := CheckNode(plan, fields, planRetry, executeRetry, lim);
            && (v.next.GoToPlan? || v.next.GoToExecute? ==>
                  0 <= Unused(v.planRetry, v.executeRetry, lim) < Unused(planRetry, executeRetry, lim))
            && (v.next.GoToRank? ==>
                  forall t | t in REQUIRED :: Planned(plan.calls, t) && !Failed(Get(fields, t).meta))
  {
  }

  /** An issue that a new plan could mend: a call that was dropped, but not one that was merely repeated. */
  predicate Mendable(issue: Issue) {
    !issue.DuplicateToolCall? && !issue.OptionalToolPlannerFailed?
  }

  predicate IsCalled(calls: seq<Call>, tool: string) {
    exists c :: c in calls && c.toolName == tool
  }

  /** Some required tool is not called by the plan. */
  predicate Uncalled(calls: seq<Call>) {
    exists t :: t in {"get_weather", "search_flights", "search_hotels"} && !IsCalled(calls, t)
  }

  /** Some required tool has failed or not been called. */
  predicate Unanswered(fields: Fields) {
    exists t :: t in {"get_weather", "search_flights", "search_hotels"} && Failed(Get(fields, t).meta)
  }

  /**
    An uncalled required tool or, while plan retries are left, an issue leads back to the
    plan; failed required calls are executed again; each counts one retry of its own kind.
    */
  lemma CheckGoes(plan: Plan, fields: Fields, planRetry: nat, executeRetry: nat, lim: Limits)
    ensures var v := CheckNode(plan, fields, planRetry, executeRetry, lim);
            var mend := exists issue :: issue in plan.issues && Mendable(issue);
            && (v.next.GoToPlan? <==> (Uncalled(plan.calls) || mend) && planRetry < lim.planRetries)
            && (v.next.GoToExecute? <==>
                  !v.next.GoToPlan? && !Uncalled(plan.calls) && Unanswered(fields) && executeRetry < lim.executeRetries)
            && (v.next.GoToRank? <==>
                  !v.next.GoToPlan? && !Uncalled(plan.calls) && !Unanswered(fields))
            && v.planRetry == planRetry + (if v.next.GoToPlan? then 1 else 0)
            && v.executeRetry == executeRetry + (if v.next.GoToExecute? then 1 else 0)
  {
    CallsAndIssues(plan);
    assert Unanswered(fields) <==> exists t | t in REQUIRED :: Failed(Get(fields, t).meta) by {
      RequiredNames();
    }
  }

  lemma RequiredNames()
    ensures forall t: string :: t in REQUIRED <==> t in {"get_weather", "search_flights", "search_hotels"}
  {
  }

  lemma CallsAndIssues(plan: Plan)
    ensures Uncalled(plan.calls) <==> exists t | t in REQUIRED :: !Planned(plan.calls, t)
    ensures (exists issue :: issue in plan.issues && Mendable(issue))
            <==> exists i | 0 <= i < |plan.issues| :: AsksForReplan(plan.issues[i])
  {
    RequiredNames();
    forall t: string
      ensures Planned(plan.calls, t) <==> IsCalled(plan.calls, t)
    {
      if c :| c in plan.calls && c.toolName == t {
        var i :| 0 <= i < |plan.calls| && plan.calls[i] == c;
      }
    }
    forall i | 0 <= i < |plan.issues|
      ensures Mendable(plan.issues[i]) <==> AsksForReplan(plan.issues[i])
    {
    }
    if issue :| issue in plan.issues && Mendable(issue) {
      var i :| 0 <= i < |plan.issues| && plan.issues[i] == issue;
    }
  }

  /** A plan without an activity search says so in the activity fields, whatever they held. */
  lemma SkippedIsSaid(fields: Fields, calls: seq<Call>, tools: Tools, cat: Catalog)
    requires Registered(calls, cat) && forall c | c in calls :: c.toolName != "search_city_activities"
    ensures Get(Execute(fields, calls, tools, cat, true), "search_city_activities")
            == Slot(SkippedByPolicy, Meta(Some("skipped"), None))
  {
    assert !ActivityRequested(calls);
  }

  /** The counters after a number of checks, the inputs of each being arbitrary. */
  datatype CheckInput = CheckInput(plan: Plan, fields: Fields)

  function Counters(inputs: seq<CheckInput>, lim: Limits): (nat, nat) {
    if inputs == [] then (0, 0)
    else
      var (p, e) := Counters(inputs[..|inputs| - 1], lim);
      var last := inputs[|inputs| - 1];
      var v := CheckNode(last.plan, last.fields, p, e, lim);
      (v.planRetry, v.executeRetry)
  }

  /** The check sent the loop round again at every one of the inputs. */
  predicate KeepsGoing(inputs: seq<CheckInput>, lim: Limits) {
    inputs == [] ||
    (var n := |inputs| - 1;
     var (p, e) := Counters(inputs[..n], lim);
     var next := CheckNode(inputs[n].plan, inputs[n].fields, p, e, lim).next;
     KeepsGoing(inputs[..n], lim) && (next.GoToPlan? || next.GoToExecute?))
  }

  /** A planning round has at most 1 + max plan retries + max execute retries checks, whatever planner and tools do. */
  lemma {:induction false} ChecksBounded(inputs: seq<CheckInput>, lim: Limits)
    requires KeepsGoing(inputs, lim)
    ensures |inputs| <= lim.planRetries + lim.executeRetries
    ensures var (p, e) := Counters(inputs, lim); |inputs| == p + e && p <= lim.planRetries && e <= lim.executeRetries
  {
    if inputs == [] {
    } else {
      var n := |inputs| - 1;
      ChecksBounded(inputs[..n], lim);
      var (p, e) := Counters(inputs[..n], lim);
      EveryRetryIsPaid(inputs[n].plan, inputs[n].fields, p, e, lim);
    }
  }

  // --------------------------------------------------------------- end to end

  /** The update of the cache-free run holds what performing the call writes. */
  ghost predicate Performed(fields: Fields, calls: seq<Call>, c: Call, tools: Tools, cat: Catalog)
    requires Registered(calls, cat) && c.toolName in cat.servers
  {
    var update, own := Dispatch(fields, calls, tools, cat, false), Perform(c, tools, cat);
    c.toolName in update && c.toolName in own && update[c.toolName] == own[c.toolName]
  }

  lemma LastPerformed(fields: Fields, calls: seq<Call>, tools: Tools, cat: Catalog)
    requires Registered(calls, cat) && calls != [] && calls[|calls| - 1].toolName in REQUIRED
    ensures Performed(fields, calls, calls[|calls| - 1], tools, cat)
  {
    PerformWrites(calls[|calls| - 1], tools, cat);
  }

  lemma StaysPerformed(fields: Fields, calls: seq<Call>, c: Call, tools: Tools, cat: Catalog)
    requires Registered(calls, cat) && calls != [] && c.toolName in cat.servers && c.toolName in REQUIRED
    requires Performed(fields, calls[..|calls| - 1], c, tools, cat) && c.toolName != calls[|calls| - 1].toolName
    ensures Performed(fields, calls, c, tools, cat)
  {
    PerformWrites(calls[|calls| - 1], tools, cat);
  }

  lemma {:induction false} PerformedInPlan(fields: Fields, calls: seq<Call>, i: nat, tools: Tools, cat: Catalog)
    requires Registered(calls, cat) && OneCallPerTool(calls) && i < |calls|
    requires calls[i].toolName in REQUIRED
    ensures Performed(fields, calls, calls[i], tools, cat)
    decreases |calls|
  {
    var n := |calls| - 1;
    if i == n {
      LastPerformed(fields, calls, tools, cat);
    } else {
      PerformedInPlan(fields, calls[..n], i, tools, cat);
      StaysPerformed(fields, calls, calls[i], tools, cat);
    }
  }

  /**
    Whatever the model asked for and whatever was cached before: when the loop goes
    on to ranking, each required tool's result is its answer to the policy's own
    arguments, and that answer did not fail.
    */
  lemma RankedOnFreshAnswers(f: Facts, cat: Catalog, answer: Answer, fields: Fields, tools: Tools,
                             planRetry: nat, executeRetry: nat, lim: Limits, i: nat)
    requires cat.Valid() && f.Complete() && Vouched(fields, tools) && i < 3
    requires var plan := PlanNode(f, cat, answer).value;
             Registered(plan.calls, cat) &&
             CheckNode(plan, Execute(fields, plan.calls, tools, cat, true), planRetry, executeRetry, lim).next.GoToRank?
    ensures var plan := PlanNode(f, cat, answer).value;
            FreshAnswer(Execute(fields, plan.calls, tools, cat, true), RequiredCalls(f, cat)[i], tools)
  {
    PlanIsTheMatchingCalls(f, cat, answer);
    RankedPlan(f, cat, answer, PlanNode(f, cat, answer).value, fields, tools, planRetry, executeRetry, lim, i);
  }

  lemma RankedPlan(f: Facts, cat: Catalog, answer: Answer, plan: Plan, fields: Fields, tools: Tools,
                   planRetry: nat, executeRetry: nat, lim: Limits, i: nat)
    requires cat.Valid() && f.Complete() && Vouched(fields, tools) && i < 3
    requires plan == PlanNode(f, cat, answer).value
    requires Registered(plan.calls, cat) && OneCallPerTool(plan.calls)
    requires CheckNode(plan, Execute(fields, plan.calls, tools, cat, true), planRetry, executeRetry, lim).next.GoToRank?
    ensures FreshAnswer(Execute(fields, plan.calls, tools, cat, true), RequiredCalls(f, cat)[i], tools)
  {
    var c := RequiredCalls(f, cat)[i];
    PassedCheck(plan, Execute(fields, plan.calls, tools, cat, true), planRetry, executeRetry, lim, c.toolName);
    PlannedIsPolicyCall(f, cat, answer, i);
    AfterTransparent(fields, plan.calls, tools, cat, c.toolName);
    AnswerOfPolicyCall(fields, plan.calls, c, tools, cat);
  }

  /** The fields hold what the tool answers to this very call, and the answer did not fail. */
  predicate FreshAnswer(fields: Fields, c: Call, tools: Tools) {
    var slot := Get(fields, c.toolName);
    tools(c.toolName, c.args).Ok? && slot.data == Answered(tools(c.toolName, c.args).value) && !Failed(slot.meta)
  }

  lemma PassedCheck(plan: Plan, after: Fields, planRetry: nat, executeRetry: nat, lim: Limits, tool: string)
    requires CheckNode(plan, after, planRetry, executeRetry, lim).next.GoToRank? && tool in REQUIRED
    ensures Planned(plan.calls, tool) && !Failed(Get(after, tool).meta)
  {
  }

  lemma PlannedIsPolicyCall(f: Facts, cat: Catalog, answer: Answer, i: nat)
    requires cat.Valid() && f.Complete() && i < 3
    requires Planned(PlanNode(f, cat, answer).value.calls, RequiredCalls(f, cat)[i].toolName)
    ensures RequiredCalls(f, cat)[i] in PlanNode(f, cat, answer).value.calls && cat.Matches(RequiredCalls(f, cat)[i])
  {
    var calls, c := PlanNode(f, cat, answer).value.calls, RequiredCalls(f, cat)[i];
    var k: nat :| k < |calls| && calls[k].toolName == c.toolName;
    RequiredCallsStand(f, cat, answer, calls[k]);
  }

  lemma AnswerOfPolicyCall(fields: Fields, calls: seq<Call>, c: Call, tools: Tools, cat: Catalog)
    requires Registered(calls, cat) && OneCallPerTool(calls)
    requires c in calls && c.toolName in REQUIRED && cat.Matches(c)
    ensures var after := Execute(fields, calls, tools, cat, false);
            !Failed(Get(after, c.toolName).meta) ==> FreshAnswer(after, c, tools)
  {
    var k: nat :| k < |calls| && calls[k] == c;
    PerformedInPlan(fields, calls, k, tools, cat);
  }
}
