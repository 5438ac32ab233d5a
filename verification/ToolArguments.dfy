/**
  The calls of a compiled plan in terms of the trip itself: whom they ask, about
  which places, days and people, and where an optional call comes from.
  */
module ToolArguments {
  import opened Prelude
  import opened Collections
  import opened ToolPlanning

  // -------------------------------------------------------------- the required tools

  /** n as far as it is not below the least allowed value. */
  predicate Bounded(least: int, n: int, x: int) {
    x >= least && x >= n && (x == least || x == n)
  }

  /** What a call of a required tool asks for. */
  predicate AsksForTheTrip(c: Call, f: Facts) {
    match c.args
    case WeatherArgs(city, from, until) =>
      c.toolName == "get_weather" && c.callId == "policy_weather"
      && city == f.destination && from == f.startDate && until == f.endDate
    case FlightArgs(from, to, depart, back, people) =>
      c.toolName == "search_flights" && c.callId == "policy_flights"
      && from == f.origin && to == f.destination
      && depart == f.startDate && back == f.endDate && Bounded(1, f.peopleCount, people)
    case HotelArgs(city, nights, guests) =>
      c.toolName == "search_hotels" && c.callId == "policy_hotels"
      && city == f.destination && Bounded(0, f.nights, nights) && Bounded(1, f.peopleCount, guests)
    case _ => false
  }

  /** Every call of a required tool is the policy's and asks for this trip. */
  lemma RequiredAskForTheTrip(f: Facts, cat: Catalog, answer: Answer, c: Call)
    requires cat.Valid() && f.Complete() && c in PlanNode(f, cat, answer).value.calls
    requires c.toolName in {"get_weather", "search_flights", "search_hotels"}
    ensures AsksForTheTrip(c, f) && c.source == RequiredPolicy && c.serverId == cat.servers[c.toolName]
  {
    RequiredCallsStand(f, cat, answer, c);
  }

  /** A call of each of them is planned exactly when the registry accepts one that asks for this trip. */
  lemma RequiredArePlanned(f: Facts, cat: Catalog, answer: Answer, c: Call)
    requires cat.Valid() && f.Complete() && AsksForTheTrip(c, f) && c.serverId == cat.servers[c.toolName]
    ensures (exists k :: k in PlanNode(f, cat, answer).value.calls && k.toolName == c.toolName)
            <==> cat.accepts(c.toolName, c.args)
  {
    var req := RequiredCalls(f, cat);
    var calls := PlanNode(f, cat, answer).value.calls;
    var own: Call := if c.toolName == WEATHER then req[0] else if c.toolName == FLIGHTS then req[1] else req[2];
    assert own in req && own.toolName == c.toolName && own.args == c.args;
    RequiredCallsStand(f, cat, answer, own);
    if k :| k in calls && k.toolName == c.toolName {
      RequiredCallsStand(f, cat, answer, k);
    }
  }

  // -------------------------------------------------------------- the optional tools

  /** A tool that is registered but not required. */
  predicate Optional(tool: string, cat: Catalog) {
    tool in cat.servers && tool !in {"get_weather", "search_flights", "search_hotels"}
  }

  /** What the model wrote can be made a call: for activities it must parse. */
  predicate Usable(raw: RawCall, cat: Catalog) {
    Optional(raw.toolName, cat) && (raw.toolName == "search_city_activities" ==> cat.parseWish(raw.json).Some?)
  }

  /** The call carries the model's wish and the trip's own city and dates; other tools get what the model wrote. */
  predicate MadeFrom(c: Call, raw: RawCall, f: Facts, cat: Catalog) {
    && c.toolName == raw.toolName && c.source == LlmSelected
    && c.toolName in cat.servers && c.serverId == cat.servers[c.toolName]
    && c.callId == (if raw.callId != "" then raw.callId else "llm_" + raw.toolName + "_1")
    && (c.toolName != "search_city_activities" ==> c.args == PlainArgs(raw.json))
    && (c.toolName == "search_city_activities" ==>
          && c.args.ActivityArgs? && cat.parseWish(raw.json) == Some(c.args.wish)
          && c.args.activityCity == f.destination && c.args.from == f.startDate && c.args.until == f.endDate
          && c.args.maxResults == cat.maxResults)
  }

  /** The first usable call of its tool. */
  predicate FirstUsable(raws: seq<RawCall>, k: nat, cat: Catalog) {
    && k < |raws| && Usable(raws[k], cat)
    && forall j | 0 <= j < k :: raws[j].toolName == raws[k].toolName ==> !Usable(raws[j], cat)
  }

  lemma {:induction false} CompiledFromFirst(raws: seq<RawCall>, f: Facts, cat: Catalog, i: nat) returns (k: nat)
    requires i < |CompileOptional(raws, f, cat).calls|
    ensures FirstUsable(raws, k, cat) && MadeFrom(CompileOptional(raws, f, cat).calls[i], raws[k], f, cat)
  {
    var n := |raws| - 1;
    var done := CompileOptional(raws[..n], f, cat);
    if i < |done.calls| {
      k := CompiledFromFirst(raws[..n], f, cat, i);
    } else {
      k := n;
      forall j | 0 <= j < n && raws[j].toolName == raws[n].toolName
        ensures !Usable(raws[j], cat)
      {
        if Usable(raws[j], cat) {
          var m := UsableIsCompiled(raws[..n], f, cat, j);
          FilterMember(done.calls, (c: Call) => c.toolName == raws[n].toolName, done.calls[m]);
        }
      }
    }
  }

  lemma {:induction false} UsableIsCompiled(raws: seq<RawCall>, f: Facts, cat: Catalog, k: nat) returns (i: nat)
    requires k < |raws| && Usable(raws[k], cat)
    ensures i < |CompileOptional(raws, f, cat).calls|
    ensures CompileOptional(raws, f, cat).calls[i].toolName == raws[k].toolName
    decreases |raws|
  {
    var n := |raws| - 1;
    var done := CompileOptional(raws[..n], f, cat);
    if k < n {
      i := UsableIsCompiled(raws[..n], f, cat, k);
    } else {
      var ofTool := Filter(done.calls, (c: Call) => c.toolName == raws[n].toolName);
      if |ofTool| > 0 {
        FilterMember(done.calls, (c: Call) => c.toolName == raws[n].toolName, ofTool[0]);
        i :| 0 <= i < |done.calls| && done.calls[i] == ofTool[0];
      } else {
        i := |done.calls|;
      }
    }
  }

  /** What the model may still ask for: nothing if the client failed, else its first four calls. */
  function Heard(answer: Answer): seq<RawCall> {
    match answer
    case ClientFailed => []
    case Asked(raws) => if |raws| <= 4 then raws else raws[..4]
  }

  /**
    Every other call of the plan was made from the first usable call of its tool among
    the four the model may make.
    */
  lemma OptionalAreMadeFromTheFirst(f: Facts, cat: Catalog, answer: Answer, c: Call) returns (k: nat)
    requires cat.Valid() && f.Complete() && c in PlanNode(f, cat, answer).value.calls
    requires c.toolName !in {"get_weather", "search_flights", "search_hotels"}
    ensures FirstUsable(Heard(answer), k, cat) && MadeFrom(c, Heard(answer)[k], f, cat)
  {
    var opt := OptionalOf(f, cat, answer);
    PlanIsTheMatchingCalls(f, cat, answer);
    FilterMember(RequiredCalls(f, cat) + opt, (x: Call) => cat.Matches(x), c);
    assert c in opt;
    var i :| 0 <= i < |opt| && opt[i] == c;
    k := CompiledFromFirst(Heard(answer), f, cat, i);
  }

  /** And every such call that the registry accepts is in the plan. */
  lemma FirstUsableIsPlanned(f: Facts, cat: Catalog, answer: Answer, k: nat, c: Call)
    requires cat.Valid() && f.Complete() && FirstUsable(Heard(answer), k, cat)
    requires MadeFrom(c, Heard(answer)[k], f, cat) && cat.accepts(c.toolName, c.args)
    ensures c in PlanNode(f, cat, answer).value.calls
  {
    var opt := OptionalOf(f, cat, answer);
    var i := UsableIsCompiled(Heard(answer), f, cat, k);
    var j := CompiledFromFirst(Heard(answer), f, cat, i);
    assert j == k;
    assert opt[i] == c;
    PlanIsTheMatchingCalls(f, cat, answer);
    FilterMember(RequiredCalls(f, cat) + opt, (x: Call) => cat.Matches(x), c);
  }

  // ----------------------------------------------------------------------- refusals

  /** The node raises exactly when a place or a date of the trip is missing. */
  lemma PlanIsRefusedIff(f: Facts, cat: Catalog, answer: Answer)
    requires cat.Valid()
    ensures PlanNode(f, cat, answer).None? <==> "" in [f.origin, f.destination, f.startDate, f.endDate]
    ensures PlanNode(f, cat, answer).Some? ==>
              (PlanNode(f, cat, answer).value.degraded <==> answer.ClientFailed?)
  {
    var texts := [f.origin, f.destination, f.startDate, f.endDate];
    assert "" in texts <==> texts[0] == "" || texts[1] == "" || texts[2] == "" || texts[3] == "";
  }

  predicate SameCall(a: Call, b: Call) {
    a.serverId == b.serverId && a.toolName == b.toolName && a.args == b.args
  }

  /** The call at i is asked for for the first time. */
  predicate FirstOfItsKind(calls: seq<Call>, i: int) {
    0 <= i < |calls| && forall j | 0 <= j < i :: !SameCall(calls[j], calls[i])
  }

  ghost predicate AskedFirst(calls: seq<Call>, c: Call) {
    exists i :: FirstOfItsKind(calls, i) && calls[i] == c
  }

  /** One more call adds itself unless there was one like it. */
  lemma AskedFirstSnoc(calls: seq<Call>, last: Call, c: Call)
    ensures AskedFirst(calls + [last], c) <==>
              AskedFirst(calls, c) || (c == last && forall j | 0 <= j < |calls| :: !SameCall(calls[j], last))
  {
    var all := calls + [last];
    forall i | 0 <= i < |calls|
      ensures FirstOfItsKind(all, i) <==> FirstOfItsKind(calls, i)
    {
      assert forall j | 0 <= j <= i :: all[j] == calls[j];
    }
    assert all[|calls|] == last && forall j | 0 <= j < |calls| :: all[j] == calls[j];
    if AskedFirst(calls, c) {
      var i :| FirstOfItsKind(calls, i) && calls[i] == c;
      assert FirstOfItsKind(all, i) && all[i] == c;
    }
    if c == last && forall j | 0 <= j < |calls| :: !SameCall(calls[j], last) {
      assert FirstOfItsKind(all, |calls|);
    }
  }

  /** The last call is reported if there was one like it, and else kept. */
  lemma LastDeduplicated(calls: seq<Call>, last: Call)
    ensures var done, all := Deduplicated(calls), Deduplicated(calls + [last]);
            if exists j :: 0 <= j < |calls| && SameCall(calls[j], last)
            then all == done.(issues := done.issues + [DuplicateToolCall(last.toolName)])
            else all == done.(calls := done.calls + [last])
  {
    var all := calls + [last];
    assert all[..|calls|] == calls && all[|calls|] == last;
    assert forall j | 0 <= j < |calls| :: KeyOf(all[j]) == KeyOf(last) <==> SameCall(calls[j], last);
  }

  /** De-duplication keeps exactly the calls that are asked for for the first time, and reports the others. */
  lemma {:induction false} DeduplicationKeepsFirst(calls: seq<Call>, c: Call)
    ensures c in Deduplicated(calls).calls <==> AskedFirst(calls, c)
    ensures |Deduplicated(calls).calls| + |Deduplicated(calls).issues| == |calls|
  {
    if calls == [] {
    } else {
      var n := |calls| - 1;
      var before, last := calls[..n], calls[n];
      assert calls == before + [last];
      DeduplicationKeepsFirst(before, c);
      AskedFirstSnoc(before, last, c);
      LastDeduplicated(before, last);
    }
  }
}
