/**
  The plan compiler of app/nodes/tool_plan_node.py under the policy of
  app/mcp/tool_policy.py: three required calls from trusted facts, then the
  optional calls a model asked for, as far as policy and registry allow.
  */
module ToolPlanning {
  import opened Prelude
  import opened Collections

  const WEATHER := "get_weather"
  const FLIGHTS := "search_flights"
  const HOTELS := "search_hotels"
  const ACTIVITIES := "search_city_activities"

  const REQUIRED := [WEATHER, FLIGHTS, HOTELS]

  const MAX_OPTIONAL_CALLS := 4

  /** The argument dicts of the tools; equality of values is equality of dicts. */
  datatype Args =
    | WeatherArgs(city: string, startDate: string, endDate: string)
    | FlightArgs(origin: string, destination: string, departDate: string, returnDate: string, peopleCount: int)
    | HotelArgs(hotelCity: string, nights: int, guests: int)
    | ActivityArgs(activityCity: string, from: string, until: string, wish: Wish, maxResults: int)
    | PlainArgs(json: string)

  /** What the model may say about activities. */
  datatype Wish = Wish(interests: seq<string>, indoor: Option<bool>)

  datatype Source = RequiredPolicy | LlmSelected

  datatype Call = Call(callId: string, toolName: string, serverId: string, source: Source, args: Args)

  /** One tool call as the model wrote it. */
  datatype RawCall = RawCall(callId: string, toolName: string, json: string)

  datatype Issue =
    | UnsupportedOptionalTool(tool: string)
    | InvalidOptionalToolArguments(tool: string)
    | OptionalToolCallLimitExceeded(tool: string)
    | InvalidExecutableToolCall(tool: string)
    | DuplicateToolCall(tool: string)
    | OptionalToolPlannerFailed

  /** The registry, its schema check, and the parser of activity arguments. */
  datatype Catalog = Catalog(
    servers: map<string, string>,
    accepts: (string, Args) -> bool,
    parseWish: string -> Option<Wish>,
    maxResults: int)
  {
    /** The startup check: every required tool is registered. */
    predicate Valid() {
      WEATHER in servers && FLIGHTS in servers && HOTELS in servers
    }

    /** Registered, on the right server, with arguments of the right shape. */
    predicate Matches(c: Call) {
      c.toolName in servers && servers[c.toolName] == c.serverId && accepts(c.toolName, c.args)
    }

    predicate LlmVisible(tool: string) {
      tool in servers && tool !in REQUIRED
    }
  }

  /** The trusted part of the planning context, its texts stripped. */
  datatype Facts = Facts(origin: string, destination: string, startDate: string, endDate: string,
                         peopleCount: int, nights: int) {
    predicate Complete() {
      origin != "" && destination != "" && startDate != "" && endDate != ""
    }
  }

  function AtLeast(lo: int, x: int): int {
    if x < lo then lo else x
  }

  function RequiredCalls(f: Facts, cat: Catalog): seq<Call>
    requires cat.Valid()
  {
    var people := AtLeast(1, f.peopleCount);
    [ Call("policy_weather", WEATHER, cat.servers[WEATHER], RequiredPolicy,
           WeatherArgs(f.destination, f.startDate, f.endDate)),
      Call("policy_flights", FLIGHTS, cat.servers[FLIGHTS], RequiredPolicy,
           FlightArgs(f.origin, f.destination, f.startDate, f.endDate, people)),
      Call("policy_hotels", HOTELS, cat.servers[HOTELS], RequiredPolicy,
           HotelArgs(f.destination, AtLeast(0, f.nights), people)) ]
  }

  // -------------------------------------------------------------- optional calls

  /** The arguments of an accepted optional call. */
  function OptionalArgs(raw: RawCall, f: Facts, cat: Catalog): Option<Args> {
    if raw.toolName == ACTIVITIES then
      match cat.parseWish(raw.json)
      case None => None
      case Some(w) => Some(ActivityArgs(f.destination, f.startDate, f.endDate, w, cat.maxResults))
    else Some(PlainArgs(raw.json))
  }

  datatype Compiled = Compiled(calls: seq<Call>, issues: seq<Issue>)

  /** How many calls of a tool have been compiled; the Counter of the loop. */
  function CountOf(calls: seq<Call>, tool: string): nat {
    |Filter(calls, (c: Call) => c.toolName == tool)|
  }

  function CompileOne(done: Compiled, raw: RawCall, f: Facts, cat: Catalog): Compiled {
    var tool := raw.toolName;
    if !cat.LlmVisible(tool) then done.(issues := done.issues + [UnsupportedOptionalTool(tool)])
    else if CountOf(done.calls, tool) >= 1 then done.(issues := done.issues + [OptionalToolCallLimitExceeded(tool)])
    else
      match OptionalArgs(raw, f, cat)
      case None => done.(issues := done.issues + [InvalidOptionalToolArguments(tool)])
      case Some(args) =>
        var callId := if raw.callId != "" then raw.callId else "llm_" + tool + "_1";
        done.(calls := done.calls + [Call(callId, tool, cat.servers[tool], LlmSelected, args)])
  }

  function CompileOptional(raws: seq<RawCall>, f: Facts, cat: Catalog): Compiled {
    if raws == [] then Compiled([], [])
    else CompileOne(CompileOptional(raws[..|raws| - 1], f, cat), raws[|raws| - 1], f, cat)
  }

  function FirstFour(raws: seq<RawCall>): seq<RawCall> {
    if |raws| <= MAX_OPTIONAL_CALLS then raws else raws[..MAX_OPTIONAL_CALLS]
  }

  method CompileOptionalCalls(raws: seq<RawCall>, f: Facts, cat: Catalog) returns (compiled: Compiled)
    ensures compiled == CompileOptional(FirstFour(raws), f, cat)
  {
    var head := FirstFour(raws);
    var calls: seq<Call> := [];
    var issues: seq<Issue> := [];
    var counts: map<string, nat> := map[];
    for i := 0 to |head|
      invariant Compiled(calls, issues) == CompileOptional(head[..i], f, cat)
      invariant forall t: string :: CountOf(calls, t) == if t in counts then counts[t] else 0
    {
      assert head[..i + 1][..i] == head[..i];
      var raw := head[i];
      var tool := raw.toolName;
      if !cat.LlmVisible(tool) {
        issues := issues + [UnsupportedOptionalTool(tool)];
        continue;
      }
      var count := if tool in counts then counts[tool] else 0;
      if count >= 1 {
        issues := issues + [OptionalToolCallLimitExceeded(tool)];
        continue;
      }
      var args := OptionalArgs(raw, f, cat);
      if args.None? {
        issues := issues + [InvalidOptionalToolArguments(tool)];
        continue;
      }
      counts := counts[tool := count + 1];
      var callId := if raw.callId != "" then raw.callId else "llm_" + tool + "_1";
      var call := Call(callId, tool, cat.servers[tool], LlmSelected, args.value);
      CountSnoc(calls, call);
      calls := calls + [call];
    }
    assert head[..|head|] == head;
    compiled := Compiled(calls, issues);
  }

  lemma CountSnoc(calls: seq<Call>, c: Call)
    ensures forall t: string :: CountOf(calls + [c], t) == CountOf(calls, t) + if c.toolName == t then 1 else 0
  {
    forall t: string
      ensures CountOf(calls + [c], t) == CountOf(calls, t) + if c.toolName == t then 1 else 0
    {
      FilterConcat(calls, [c], (x: Call) => x.toolName == t);
      assert [c][1..] == [];
    }
  }

  // ----------------------------------------------------------- validate and dedupe

  /** The de-duplication key. */
  function KeyOf(c: Call): (string, string, Args) {
    (c.serverId, c.toolName, c.args)
  }

  function Validated(calls: seq<Call>, cat: Catalog): Compiled {
    if calls == [] then Compiled([], [])
    else
      var n := |calls| - 1;
      var done := Validated(calls[..n], cat);
      if cat.Matches(calls[n]) then done.(calls := done.calls + [calls[n]])
      else done.(issues := done.issues + [InvalidExecutableToolCall(calls[n].toolName)])
  }

  function Deduplicated(calls: seq<Call>): Compiled {
    if calls == [] then Compiled([], [])
    else
      var n := |calls| - 1;
      var done := Deduplicated(calls[..n]);
      if exists i :: 0 <= i < n && KeyOf(calls[i]) == KeyOf(calls[n])
      then done.(issues := done.issues + [DuplicateToolCall(calls[n].toolName)])
      else done.(calls := done.calls + [calls[n]])
  }

  function Executable(calls: seq<Call>, cat: Catalog): Compiled {
    var valid := Validated(calls, cat);
    var unique := Deduplicated(valid.calls);
    Compiled(unique.calls, valid.issues + unique.issues)
  }

  method CompileExecutableCalls(calls: seq<Call>, cat: Catalog) returns (compiled: Compiled)
    ensures compiled == Executable(calls, cat)
  {
    var valid: seq<Call> := [];
    var issues: seq<Issue> := [];
    for i := 0 to |calls|
      invariant Compiled(valid, issues) == Validated(calls[..i], cat)
    {
      assert calls[..i + 1][..i] == calls[..i];
      if !cat.Matches(calls[i]) {
        issues := issues + [InvalidExecutableToolCall(calls[i].toolName)];
        continue;
      }
      valid := valid + [calls[i]];
    }
    assert calls[..|calls|] == calls;
    var unique := DeduplicateCalls(valid);
    compiled := Compiled(unique.calls, issues + unique.issues);
  }

  method DeduplicateCalls(calls: seq<Call>) returns (compiled: Compiled)
    ensures compiled == Deduplicated(calls)
  {
    var seen: set<(string, string, Args)> := {};
    var kept: seq<Call> := [];
    var issues: seq<Issue> := [];
    for i := 0 to |calls|
      invariant Compiled(kept, issues) == Deduplicated(calls[..i])
      invariant forall k :: k in seen <==> exists j :: 0 <= j < i && KeyOf(calls[j]) == k
    {
      assert calls[..i + 1][..i] == calls[..i];
      assert forall j | 0 <= j < i :: calls[..i + 1][j] == calls[j];
      var key := KeyOf(calls[i]);
      if key in seen {
        issues := issues + [DuplicateToolCall(calls[i].toolName)];
        continue;
      }
      seen := seen + {key};
      kept := kept + [calls[i]];
    }
    assert calls[..|calls|] == calls;
    compiled := Compiled(kept, issues);
  }

  // -------------------------------------------------------------------- the node

  /** The model's answer: its calls, or a failure of the client. */
  datatype Answer = ClientFailed | Asked(calls: seq<RawCall>)

  datatype Plan = Plan(degraded: bool, calls: seq<Call>, issues: seq<Issue>)

  /** None where the node raises because a trusted text is empty. */
  function PlanNode(f: Facts, cat: Catalog, answer: Answer): Option<Plan>
    requires cat.Valid()
  {
    if !f.Complete() then None
    else
      var optional := match answer
        case ClientFailed => Compiled([], [OptionalToolPlannerFailed])
        case Asked(raws) => CompileOptional(FirstFour(raws), f, cat);
      var executable := Executable(RequiredCalls(f, cat) + optional.calls, cat);
      Some(Plan(answer.ClientFailed?, executable.calls, optional.issues + executable.issues))
  }

  method ToolPlanNode(f: Facts, cat: Catalog, answer: Answer) returns (plan: Option<Plan>)
    requires cat.Valid()
    ensures plan == PlanNode(f, cat, answer)
  {
    if !f.Complete() {
      return None;
    }
    var optional := Compiled([], [OptionalToolPlannerFailed]);
    if answer.Asked? {
      optional := CompileOptionalCalls(answer.calls, f, cat);
    }
    var executable := CompileExecutableCalls(RequiredCalls(f, cat) + optional.calls, cat);
    plan := Some(Plan(answer.ClientFailed?, executable.calls, optional.issues + executable.issues));
  }

  // ----------------------------------------------------- what every plan satisfies

  predicate OneCallPerTool(calls: seq<Call>) {
    forall i, j | 0 <= i < j < |calls| :: calls[i].toolName != calls[j].toolName
  }

  lemma {:induction false} OptionalShape(raws: seq<RawCall>, f: Facts, cat: Catalog)
    ensures var cs := CompileOptional(raws, f, cat).calls;
            && OneCallPerTool(cs) && |cs| <= |raws|
            && (forall i | 0 <= i < |cs| :: cs[i].source == LlmSelected && cat.LlmVisible(cs[i].toolName))
  {
    if raws == [] {
    } else {
      var n := |raws| - 1;
      var done := CompileOptional(raws[..n], f, cat);
      OptionalShape(raws[..n], f, cat);
      if CountOf(done.calls, raws[n].toolName) == 0 {
        forall i | 0 <= i < |done.calls|
          ensures done.calls[i].toolName != raws[n].toolName
        {
          FilterMember(done.calls, (c: Call) => c.toolName == raws[n].toolName, done.calls[i]);
        }
      }
    }
  }

  lemma {:induction false} ValidatedIsFilter(calls: seq<Call>, cat: Catalog)
    ensures Validated(calls, cat).calls == Filter(calls, (c: Call) => cat.Matches(c))
  {
    if calls == [] {
    } else {
      var n := |calls| - 1;
      ValidatedIsFilter(calls[..n], cat);
      assert calls == calls[..n] + [calls[n]];
      FilterConcat(calls[..n], [calls[n]], (c: Call) => cat.Matches(c));
      assert [calls[n]][1..] == [];
      var f := Filter(calls[..n], (c: Call) => cat.Matches(c));
      assert f + [] == f;
    }
  }

  lemma {:induction false} NothingToDeduplicate(calls: seq<Call>)
    requires OneCallPerTool(calls)
    ensures Deduplicated(calls) == Compiled(calls, [])
  {
    if calls == [] {
    } else {
      var n := |calls| - 1;
      NothingToDeduplicate(calls[..n]);
      assert calls == calls[..n] + [calls[n]];
    }
  }

  lemma {:induction false} FilterKeepsOnePerTool(calls: seq<Call>, p: Call -> bool)
    requires OneCallPerTool(calls)
    ensures OneCallPerTool(Filter(calls, p))
  {
    if calls == [] {
    } else {
      FilterKeepsOnePerTool(calls[1..], p);
      var rest := Filter(calls[1..], p);
      forall j | 0 <= j < |rest|
        ensures calls[0].toolName != rest[j].toolName
      {
        FilterMember(calls[1..], p, rest[j]);
        var k :| 0 <= k < |calls[1..]| && calls[1..][k] == rest[j];
        assert calls[k + 1] == rest[j];
      }
    }
  }

  function OptionalOf(f: Facts, cat: Catalog, answer: Answer): seq<Call> {
    match answer
    case ClientFailed => []
    case Asked(raws) => CompileOptional(FirstFour(raws), f, cat).calls
  }

  lemma MergedOnePerTool(f: Facts, cat: Catalog, answer: Answer)
    requires cat.Valid()
    ensures OneCallPerTool(RequiredCalls(f, cat) + OptionalOf(f, cat, answer))
    ensures |OptionalOf(f, cat, answer)| <= MAX_OPTIONAL_CALLS
  {
    if answer.Asked? {
      OptionalShape(FirstFour(answer.calls), f, cat);
      var opt := OptionalOf(f, cat, answer);
      assert forall i | 0 <= i < |opt| :: opt[i].toolName !in REQUIRED;
    }
  }

  /**
    For every answer of the model the plan is exactly the required and the compiled
    optional calls that match the registry, in that order: the de-duplication finds
    nothing, since no tool is called twice, and there are at most four optional calls.
    */
  lemma PlanIsTheMatchingCalls(f: Facts, cat: Catalog, answer: Answer)
    requires cat.Valid() && f.Complete()
    ensures var calls := PlanNode(f, cat, answer).value.calls;
            && calls == Filter(RequiredCalls(f, cat) + OptionalOf(f, cat, answer), (c: Call) => cat.Matches(c))
            && OneCallPerTool(calls)
            && |calls| <= 3 + MAX_OPTIONAL_CALLS
            && (forall i | 0 <= i < |calls| :: cat.Matches(calls[i]))
  {
    var merged := RequiredCalls(f, cat) + OptionalOf(f, cat, answer);
    MergedOnePerTool(f, cat, answer);
    ValidatedIsFilter(merged, cat);
    FilterKeepsOnePerTool(merged, (c: Call) => cat.Matches(c));
    NothingToDeduplicate(Validated(merged, cat).calls);
    FilterLength(merged, (c: Call) => cat.Matches(c));
    var calls := PlanNode(f, cat, answer).value.calls;
    forall i | 0 <= i < |calls|
      ensures cat.Matches(calls[i])
    {
      FilterMember(merged, (c: Call) => cat.Matches(c), calls[i]);
    }
  }

  /**
    No answer of the model removes, repeats or rewrites a required call: a call of a
    required tool is in the plan exactly when it is the policy's own call and the
    registry accepts it.
    */
  lemma RequiredCallsStand(f: Facts, cat: Catalog, answer: Answer, c: Call)
    requires cat.Valid() && f.Complete() && c.toolName in REQUIRED
    ensures c in PlanNode(f, cat, answer).value.calls <==> c in RequiredCalls(f, cat) && cat.Matches(c)
  {
    var opt := OptionalOf(f, cat, answer);
    PlanIsTheMatchingCalls(f, cat, answer);
    FilterMember(RequiredCalls(f, cat) + opt, (x: Call) => cat.Matches(x), c);
    if answer.Asked? {
      OptionalShape(FirstFour(answer.calls), f, cat);
    }
  }

  /** When the registry accepts all three, the plan starts with them, in order. */
  lemma PlanStartsWithRequired(f: Facts, cat: Catalog, answer: Answer)
    requires cat.Valid() && f.Complete()
    requires forall i | 0 <= i < 3 :: cat.Matches(RequiredCalls(f, cat)[i])
    ensures RequiredCalls(f, cat) <= PlanNode(f, cat, answer).value.calls
  {
    var req := RequiredCalls(f, cat);
    PlanIsTheMatchingCalls(f, cat, answer);
    FilterConcat(req, OptionalOf(f, cat, answer), (c: Call) => cat.Matches(c));
    FilterAll(req, (c: Call) => cat.Matches(c));
  }
}
