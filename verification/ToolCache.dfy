/**
  When the cache of app/nodes/tool_execute_node.py can be seen: exactly for which
  plans, and for which registries the compiler of app/nodes/tool_plan_node.py can
  write such a plan.
*/
module ToolCache {
  import opened Prelude
  import opened Collections
  import opened ToolPlanning
  import opened ToolLoop

  /** With two calls of one tool in a plan the cache shows: the later one is skipped, the earlier one stays. */
  lemma TwoCallsBreakTransparency(cat: Catalog, tools: Tools, x: Args, y: Args, rx: Raw, ry: Raw)
    requires WEATHER in cat.servers
    requires tools(WEATHER, x) == Ok(rx) && tools(WEATHER, y) == Ok(ry) && rx != ry
    requires rx.status == Some("ok")
    ensures var fields := map[WEATHER := Slot(Answered(rx), Meta(rx.status, Some(x)))];
            var s := cat.servers[WEATHER];
            var calls := [Call("1", WEATHER, s, LlmSelected, y), Call("2", WEATHER, s, LlmSelected, x)];
            Registered(calls, cat) && Vouched(fields, tools) &&
            Execute(fields, calls, tools, cat, true) != Execute(fields, calls, tools, cat, false)
  {
    var fields := map[WEATHER := Slot(Answered(rx), Meta(rx.status, Some(x)))];
    var s := cat.servers[WEATHER];
    var first, second := Call("1", WEATHER, s, LlmSelected, y), Call("2", WEATHER, s, LlmSelected, x);
    var calls := [first, second];
    assert calls[..1] == [first] && [first][..0] == [];
    assert Dispatch(fields, [first], tools, cat, true) == AdaptSuccess(first, ry);
    assert Dispatch(fields, calls, tools, cat, true) == AdaptSuccess(first, ry);
    assert Dispatch(fields, [first], tools, cat, false) == AdaptSuccess(first, ry);
    assert Dispatch(fields, calls, tools, cat, false) == AdaptSuccess(first, ry) + AdaptSuccess(second, rx);
    assert Execute(fields, calls, tools, cat, true)[WEATHER].data == Answered(ry);
    assert Execute(fields, calls, tools, cat, false)[WEATHER].data == Answered(rx);
  }

  // ------------------------------------------------- a foreign tool before the activities

  /** The registry's own server is named in every call. */
  predicate OwnServers(calls: seq<Call>, cat: Catalog) {
    forall i | 0 <= i < |calls| ::
      calls[i].toolName in cat.servers && cat.servers[calls[i].toolName] == calls[i].serverId
  }

  /** One tool is down, every other answers. */
  function AllBut(tool: string): Tools {
    (t: string, a: Args) => if t == tool then Err("down") else Ok(Raw(Some("ok"), ""))
  }

  function Found(a: Args): Slot {
    Slot(Answered(Raw(Some("ok"), "")), Meta(Some("ok"), Some(a)))
  }

  /** The activity fields hold an answer to the arguments. */
  predicate Knows(fields: Fields, a: Args) {
    Get(fields, ACTIVITIES) == Found(a)
  }

  /** The least fields that do. */
  function Known(a: Args): Fields {
    map[ACTIVITIES := Found(a)]
  }

  lemma KnownIsVouched(a: Args, tool: string)
    requires tool != ACTIVITIES
    ensures Vouched(Known(a), AllBut(tool)) && Knows(Known(a), a)
  {
  }

  /** An answered call of another tool leaves the activity fields alone. */
  lemma OthersWriteElsewhere(c: Call, tool: string, cat: Catalog)
    requires c.toolName in cat.servers && cat.servers[c.toolName] == c.serverId
    requires c.toolName != tool && c.toolName != ACTIVITIES
    ensures ACTIVITIES !in Perform(c, AllBut(tool), cat)
  {
  }

  /** A foreign tool's call at i and an activity search at j, in this order. */
  predicate Precedes(calls: seq<Call>, i: nat, j: nat) {
    i < j < |calls| && calls[i].toolName !in META_TOOLS && calls[j].toolName == ACTIVITIES
  }

  lemma ForeignFails(c: Call, cat: Catalog)
    requires c.toolName in cat.servers && cat.servers[c.toolName] == c.serverId && c.toolName !in META_TOOLS
    ensures var w := Perform(c, AllBut(c.toolName), cat);
            ACTIVITIES in w && w[ACTIVITIES].data == Unavailable(c.toolName, "down")
  {
  }

  lemma KnownIsSkipped(fields: Fields, c: Call, cat: Catalog)
    requires c.toolName in cat.servers && cat.servers[c.toolName] == c.serverId && c.toolName == ACTIVITIES
    requires Knows(fields, c.args)
    ensures Skips(fields, c, cat)
  {
  }

  lemma ForeignIsPerformed(fields: Fields, c: Call, cat: Catalog)
    requires c.toolName in cat.servers && c.toolName !in META_TOOLS
    ensures !Skips(fields, c, cat)
  {
  }

  /** From the failure on the cached run reports it in the activity fields, the cached answer being skipped. */
  lemma {:induction false} FailureStays(fields: Fields, calls: seq<Call>, i: nat, j: nat, k: nat, cat: Catalog)
    requires OwnServers(calls, cat) && OneCallPerTool(calls) && Precedes(calls, i, j) && i < k <= |calls|
    requires Registered(calls[..k], cat) && Knows(fields, calls[j].args)
    ensures var update := Dispatch(fields, calls[..k], AllBut(calls[i].toolName), cat, true);
            ACTIVITIES in update && update[ACTIVITIES].data == Unavailable(calls[i].toolName, "down")
    decreases k
  {
    assert calls[..k][..k - 1] == calls[..k - 1];
    if k == i + 1 {
      ForeignFails(calls[i], cat);
      ForeignIsPerformed(fields, calls[i], cat);
    } else {
      FailureStays(fields, calls, i, j, k - 1, cat);
      if k - 1 == j {
        KnownIsSkipped(fields, calls[j], cat);
      } else {
        OthersWriteElsewhere(calls[k - 1], calls[i].toolName, cat);
      }
    }
  }

  /** Without the cache the search is answered after the failure. */
  lemma {:induction false} AnswerStays(fields: Fields, calls: seq<Call>, i: nat, j: nat, k: nat, cat: Catalog)
    requires OwnServers(calls, cat) && OneCallPerTool(calls) && Precedes(calls, i, j) && j < k <= |calls|
    requires Registered(calls[..k], cat)
    ensures var update := Dispatch(fields, calls[..k], AllBut(calls[i].toolName), cat, false);
            ACTIVITIES in update && update[ACTIVITIES].data.Answered?
    decreases k
  {
    assert calls[..k][..k - 1] == calls[..k - 1];
    if k == j + 1 {
    } else {
      AnswerStays(fields, calls, i, j, k - 1, cat);
      OthersWriteElsewhere(calls[k - 1], calls[i].toolName, cat);
    }
  }

  /** A foreign tool that fails before a cached activity search: its failure stays in the activity fields. */
  lemma ForeignFailureShows(fields: Fields, calls: seq<Call>, i: nat, j: nat, cat: Catalog)
    requires Registered(calls, cat) && OwnServers(calls, cat) && OneCallPerTool(calls) && Precedes(calls, i, j)
    requires Knows(fields, calls[j].args)
    ensures var tools := AllBut(calls[i].toolName);
            && Get(Execute(fields, calls, tools, cat, true), ACTIVITIES).data == Unavailable(calls[i].toolName, "down")
            && Get(Execute(fields, calls, tools, cat, false), ACTIVITIES).data.Answered?
  {
    assert calls[..|calls|] == calls;
    FailureStays(fields, calls, i, j, |calls|, cat);
    AnswerStays(fields, calls, i, j, |calls|, cat);
    assert ActivityRequested(calls);
  }

  /** Whatever the fields vouch for and however the tools answer, one pass with the cache is one without. */
  ghost predicate Unseen(calls: seq<Call>, cat: Catalog)
    requires Registered(calls, cat)
  {
    forall fields: Fields, tools: Tools | Vouched(fields, tools) ::
      Execute(fields, calls, tools, cat, true) == Execute(fields, calls, tools, cat, false)
  }

  /** With one call per tool the cache is unseen exactly when no foreign tool is called before the activity search. */
  lemma UnseenIff(calls: seq<Call>, cat: Catalog)
    requires Registered(calls, cat) && OwnServers(calls, cat) && OneCallPerTool(calls)
    ensures Unseen(calls, cat) <==> ForeignToolsLast(calls)
  {
    if ForeignToolsLast(calls) {
      forall fields: Fields, tools: Tools | Vouched(fields, tools)
        ensures Execute(fields, calls, tools, cat, true) == Execute(fields, calls, tools, cat, false)
      {
        ExecuteTransparent(fields, calls, tools, cat);
      }
    } else {
      var i, j :| 0 <= i < j < |calls| && calls[j].toolName == ACTIVITIES && calls[i].toolName !in META_TOOLS;
      KnownIsVouched(calls[j].args, calls[i].toolName);
      ForeignFailureShows(Known(calls[j].args), calls, i, j, cat);
    }
  }

  // ------------------------------------------------------------- which registries allow it

  /** The activity arguments the compiler makes of a wish. */
  function Search(f: Facts, cat: Catalog, w: Wish): Args {
    ActivityArgs(f.destination, f.startDate, f.endDate, w, cat.maxResults)
  }

  /** The registry offers the activity search and accepts what some text asks of it. */
  ghost predicate OffersActivities(f: Facts, cat: Catalog) {
    ACTIVITIES in cat.servers &&
    exists json :: cat.parseWish(json).Some? && cat.accepts(ACTIVITIES, Search(f, cat, cat.parseWish(json).value))
  }

  /** The registry offers a tool without meta fields and accepts some arguments for it. */
  ghost predicate OffersForeign(cat: Catalog) {
    exists tool, json :: tool in cat.servers && tool !in META_TOOLS && cat.accepts(tool, PlainArgs(json))
  }

  /** What an optional call asks for. */
  lemma {:induction false} OptionalCallArgs(raws: seq<RawCall>, f: Facts, cat: Catalog, c: Call)
    requires c in CompileOptional(raws, f, cat).calls
    ensures c.toolName == ACTIVITIES ==>
              exists json :: cat.parseWish(json).Some? && c.args == Search(f, cat, cat.parseWish(json).value)
    ensures c.toolName != ACTIVITIES ==> c.args.PlainArgs?
  {
    if raws == [] {
    } else {
      var n := |raws| - 1;
      if c in CompileOptional(raws[..n], f, cat).calls {
        OptionalCallArgs(raws[..n], f, cat, c);
      } else {
        assert c.args == OptionalArgs(raws[n], f, cat).value;
      }
    }
  }

  /** A call of a plan whose tool is not required is one of the compiled optional calls. */
  lemma PlannedOptional(f: Facts, cat: Catalog, answer: Answer, c: Call)
    requires cat.Valid() && f.Complete()
    requires c in PlanNode(f, cat, answer).value.calls && c.toolName !in REQUIRED
    ensures cat.Matches(c)
    ensures c.toolName == ACTIVITIES ==> OffersActivities(f, cat)
    ensures c.toolName !in META_TOOLS ==> OffersForeign(cat)
  {
    PlanIsTheMatchingCalls(f, cat, answer);
    var merged := RequiredCalls(f, cat) + OptionalOf(f, cat, answer);
    FilterMember(merged, (x: Call) => cat.Matches(x), c);
    assert c in OptionalOf(f, cat, answer);
    OptionalCallArgs(FirstFour(answer.calls), f, cat, c);
  }

  /** Two calls as the model may write them: a foreign tool, then the activity search. */
  lemma TwoOptionalCalls(f: Facts, cat: Catalog, tool: string, json: string, wish: string)
      returns (foreign: Call, search: Call)
    requires cat.Valid() && tool in cat.servers && tool !in META_TOOLS && cat.accepts(tool, PlainArgs(json))
    requires ACTIVITIES in cat.servers && cat.parseWish(wish).Some?
    requires cat.accepts(ACTIVITIES, Search(f, cat, cat.parseWish(wish).value))
    ensures search.args == Search(f, cat, cat.parseWish(wish).value)
    ensures foreign.toolName == tool && search.toolName == ACTIVITIES && cat.Matches(foreign) && cat.Matches(search)
    ensures OptionalOf(f, cat, Asked([RawCall("1", tool, json), RawCall("2", ACTIVITIES, wish)])) == [foreign, search]
  {
    var one, two := RawCall("1", tool, json), RawCall("2", ACTIVITIES, wish);
    foreign := Call("1", tool, cat.servers[tool], LlmSelected, PlainArgs(json));
    search := Call("2", ACTIVITIES, cat.servers[ACTIVITIES], LlmSelected, Search(f, cat, cat.parseWish(wish).value));
    assert [one, two][..1] == [one] && [one][..0] == [];
    assert CompileOptional([one], f, cat) == Compiled([foreign], []);
    CountSnoc([], foreign);
    assert [] + [foreign] == [foreign];
  }

  /** Where the compiled plan calls the foreign tool, the search following at once. */
  lemma ForeignPlace(f: Facts, cat: Catalog, tool: string, json: string, wish: string) returns (i: nat)
    requires cat.Valid() && f.Complete()
    requires tool in cat.servers && tool !in META_TOOLS && cat.accepts(tool, PlainArgs(json))
    requires ACTIVITIES in cat.servers && cat.parseWish(wish).Some?
    requires cat.accepts(ACTIVITIES, Search(f, cat, cat.parseWish(wish).value))
    ensures var calls :=
                PlanNode(f, cat, Asked([RawCall("1", tool, json), RawCall("2", ACTIVITIES, wish)])).value.calls;
            && Registered(calls, cat) && OwnServers(calls, cat) && OneCallPerTool(calls)
            && Precedes(calls, i, i + 1) && calls[i].toolName == tool
            && calls[i + 1].args == Search(f, cat, cat.parseWish(wish).value)
  {
    var answer := Asked([RawCall("1", tool, json), RawCall("2", ACTIVITIES, wish)]);
    var foreign, search := TwoOptionalCalls(f, cat, tool, json, wish);
    var matches := (c: Call) => cat.Matches(c);
    PlanIsTheMatchingCalls(f, cat, answer);
    FilterConcat(RequiredCalls(f, cat), [foreign, search], matches);
    FilterAll([foreign, search], matches);
    var calls := PlanNode(f, cat, answer).value.calls;
    i := |Filter(RequiredCalls(f, cat), matches)|;
    assert calls[i] == foreign && calls[i + 1] == search;
    assert forall k | 0 <= k < |calls| :: cat.Matches(calls[k]);
  }

  /** Every plan the compiler can write for these facts leaves the cache unseen. */
  ghost predicate AlwaysUnseen(f: Facts, cat: Catalog)
    requires cat.Valid() && f.Complete()
  {
    forall answer: Answer ::
      var calls := PlanNode(f, cat, answer).value.calls;
      Registered(calls, cat) && Unseen(calls, cat)
  }

  lemma PlanUnseenIff(f: Facts, cat: Catalog, answer: Answer)
    requires cat.Valid() && f.Complete()
    ensures var calls := PlanNode(f, cat, answer).value.calls;
            Registered(calls, cat) && (Unseen(calls, cat) <==> ForeignToolsLast(calls))
  {
    PlanIsTheMatchingCalls(f, cat, answer);
    var calls := PlanNode(f, cat, answer).value.calls;
    assert forall i | 0 <= i < |calls| :: cat.Matches(calls[i]);
    UnseenIff(calls, cat);
  }

  /**
    Whatever a model answers, the cache is unseen exactly under a registry that does
    not offer both the activity search and a tool without meta fields.
  */
  lemma AlwaysUnseenIff(f: Facts, cat: Catalog)
    requires cat.Valid() && f.Complete()
    ensures AlwaysUnseen(f, cat) <==> !(OffersActivities(f, cat) && OffersForeign(cat))
  {
    if OffersActivities(f, cat) && OffersForeign(cat) {
      var tool, json :| tool in cat.servers && tool !in META_TOOLS && cat.accepts(tool, PlainArgs(json));
      var wish :| cat.parseWish(wish).Some? && cat.accepts(ACTIVITIES, Search(f, cat, cat.parseWish(wish).value));
      var i := ForeignPlace(f, cat, tool, json, wish);
      PlanUnseenIff(f, cat, Asked([RawCall("1", tool, json), RawCall("2", ACTIVITIES, wish)]));
    } else {
      forall answer: Answer
        ensures var calls := PlanNode(f, cat, answer).value.calls; Registered(calls, cat) && Unseen(calls, cat)
      {
        PlanUnseenIff(f, cat, answer);
        NoForeignFirst(f, cat, answer);
      }
    }
  }

  lemma NoForeignFirst(f: Facts, cat: Catalog, answer: Answer)
    requires cat.Valid() && f.Complete() && !(OffersActivities(f, cat) && OffersForeign(cat))
    ensures ForeignToolsLast(PlanNode(f, cat, answer).value.calls)
  {
    var calls := PlanNode(f, cat, answer).value.calls;
    forall i, j | 0 <= i < j < |calls| && calls[j].toolName == ACTIVITIES
      ensures calls[i].toolName in META_TOOLS
    {
      PlannedOptional(f, cat, answer, calls[j]);
      if calls[i].toolName !in META_TOOLS {
        PlannedOptional(f, cat, answer, calls[i]);
      }
    }
  }

  // ------------------------------------------------------------------- the whole loop

  /** The plans the compiler writes for a sequence of model answers. */
  function Plans(f: Facts, cat: Catalog, answers: seq<Answer>): (plans: seq<seq<Call>>)
    requires cat.Valid() && f.Complete()
    ensures |plans| == |answers|
    ensures forall k | 0 <= k < |plans| :: plans[k] == PlanNode(f, cat, answers[k]).value.calls
  {
    seq(|answers|, k requires 0 <= k < |answers| => PlanNode(f, cat, answers[k]).value.calls)
  }

  lemma PlansAreRegistered(f: Facts, cat: Catalog, answers: seq<Answer>)
    requires cat.Valid() && f.Complete()
    ensures var plans := Plans(f, cat, answers);
            forall k | 0 <= k < |plans| :: Registered(plans[k], cat) && OneCallPerTool(plans[k])
  {
    forall k | 0 <= k < |answers|
      ensures Registered(Plans(f, cat, answers)[k], cat) && OneCallPerTool(Plans(f, cat, answers)[k])
    {
      PlanIsTheMatchingCalls(f, cat, answers[k]);
      PlanUnseenIff(f, cat, answers[k]);
    }
  }

  /** From empty fields, whatever the models answer and the tools do,
      the cached loop leaves what one without cache would. */
  ghost predicate LoopUnseen(f: Facts, cat: Catalog)
    requires cat.Valid() && f.Complete()
  {
    forall answers: seq<Answer>, tools: Tools ::
      var plans := Plans(f, cat, answers);
      (forall k | 0 <= k < |plans| :: Registered(plans[k], cat)) &&
      ExecuteAll(map[], plans, tools, cat, true) == ExecuteAll(map[], plans, tools, cat, false)
  }

  /** Every loop of compiled plans is transparent under a registry that does not offer both. */
  lemma CompiledLoopIsTransparent(f: Facts, cat: Catalog, answers: seq<Answer>, tools: Tools)
    requires cat.Valid() && f.Complete() && !(OffersActivities(f, cat) && OffersForeign(cat))
    ensures var plans := Plans(f, cat, answers);
            (forall k | 0 <= k < |plans| :: Registered(plans[k], cat)) &&
            ExecuteAll(map[], plans, tools, cat, true) == ExecuteAll(map[], plans, tools, cat, false)
  {
    var plans := Plans(f, cat, answers);
    PlansAreRegistered(f, cat, answers);
    forall k | 0 <= k < |plans|
      ensures ForeignToolsLast(plans[k])
    {
      NoForeignFirst(f, cat, answers[k]);
    }
    CacheIsTransparent(map[], plans, tools, cat);
  }

  /** The one call the compiler makes of an activity search alone. */
  lemma OneOptionalCall(f: Facts, cat: Catalog, wish: string) returns (search: Call)
    requires cat.Valid() && ACTIVITIES in cat.servers && cat.parseWish(wish).Some?
    requires cat.accepts(ACTIVITIES, Search(f, cat, cat.parseWish(wish).value))
    ensures search.toolName == ACTIVITIES && search.args == Search(f, cat, cat.parseWish(wish).value)
    ensures cat.Matches(search) && OptionalOf(f, cat, Asked([RawCall("2", ACTIVITIES, wish)])) == [search]
  {
    var raw := RawCall("2", ACTIVITIES, wish);
    search := Call("2", ACTIVITIES, cat.servers[ACTIVITIES], LlmSelected, Search(f, cat, cat.parseWish(wish).value));
    assert [raw][..0] == [] && CompileOptional([raw], f, cat) == Compiled([search], []);
  }

  /** The model asks for the activity search alone: the plan ends with it. */
  lemma SearchAlone(f: Facts, cat: Catalog, wish: string) returns (search: Call)
    requires cat.Valid() && f.Complete() && ACTIVITIES in cat.servers && cat.parseWish(wish).Some?
    requires cat.accepts(ACTIVITIES, Search(f, cat, cat.parseWish(wish).value))
    ensures search.toolName == ACTIVITIES && search.args == Search(f, cat, cat.parseWish(wish).value)
    ensures var calls := PlanNode(f, cat, Asked([RawCall("2", ACTIVITIES, wish)])).value.calls;
            calls != [] && calls[|calls| - 1] == search && Registered(calls, cat) && OwnServers(calls, cat)
  {
    search := OneOptionalCall(f, cat, wish);
    var answer := Asked([RawCall("2", ACTIVITIES, wish)]);
    var matches := (c: Call) => cat.Matches(c);
    PlanIsTheMatchingCalls(f, cat, answer);
    FilterConcat(RequiredCalls(f, cat), [search], matches);
    FilterAll([search], matches);
    PlanIsOwn(f, cat, answer);
  }

  lemma PlanIsOwn(f: Facts, cat: Catalog, answer: Answer)
    requires cat.Valid() && f.Complete()
    ensures var calls := PlanNode(f, cat, answer).value.calls; Registered(calls, cat) && OwnServers(calls, cat)
  {
    PlanIsTheMatchingCalls(f, cat, answer);
    var calls := PlanNode(f, cat, answer).value.calls;
    assert forall k | 0 <= k < |calls| :: cat.Matches(calls[k]);
  }

  /** A search performed last is known afterwards. */
  lemma SearchIsKnown(fields: Fields, calls: seq<Call>, tool: string, cat: Catalog, useCache: bool)
    requires Registered(calls, cat) && OwnServers(calls, cat) && calls != [] && tool != ACTIVITIES
    requires calls[|calls| - 1].toolName == ACTIVITIES && Get(fields, ACTIVITIES) == Slot(NoData, NoMeta)
    ensures Knows(Execute(fields, calls, AllBut(tool), cat, useCache), calls[|calls| - 1].args)
  {
    assert ActivityRequested(calls);
  }

  lemma TwoRounds(plans: seq<seq<Call>>, tools: Tools, cat: Catalog, useCache: bool)
    requires |plans| == 2 && Registered(plans[0], cat) && Registered(plans[1], cat)
    ensures ExecuteAll(map[], plans, tools, cat, useCache)
         == Execute(Execute(map[], plans[0], tools, cat, useCache), plans[1], tools, cat, useCache)
  {
    assert plans[..1] == [plans[0]] && plans[..1][..0] == [];
    assert ExecuteAll(map[], plans[..1][..0], tools, cat, useCache) == map[];
  }

  lemma RoundsDiffer(plans: seq<seq<Call>>, i: nat, cat: Catalog)
    requires |plans| == 2 && plans[0] != [] && Precedes(plans[1], i, i + 1)
    requires Registered(plans[0], cat) && OwnServers(plans[0], cat)
    requires Registered(plans[1], cat) && OwnServers(plans[1], cat) && OneCallPerTool(plans[1])
    requires var last := plans[0][|plans[0]| - 1]; last.toolName == ACTIVITIES && last.args == plans[1][i + 1].args
    ensures var tools := AllBut(plans[1][i].toolName);
            ExecuteAll(map[], plans, tools, cat, true) != ExecuteAll(map[], plans, tools, cat, false)
  {
    var tool := plans[1][i].toolName;
    var tools := AllBut(tool);
    SearchIsKnown(map[], plans[0], tool, cat, true);
    SearchIsKnown(map[], plans[0], tool, cat, false);
    TwoRounds(plans, tools, cat, true);
    TwoRounds(plans, tools, cat, false);
    SecondRoundDiffers(Execute(map[], plans[0], tools, cat, true), Execute(map[], plans[0], tools, cat, false),
                       plans[1], i, cat);
  }

  lemma SecondRoundDiffers(a: Fields, b: Fields, calls: seq<Call>, i: nat, cat: Catalog)
    requires Registered(calls, cat) && OwnServers(calls, cat) && OneCallPerTool(calls) && Precedes(calls, i, i + 1)
    requires Knows(a, calls[i + 1].args) && Knows(b, calls[i + 1].args)
    ensures Execute(a, calls, AllBut(calls[i].toolName), cat, true)
            != Execute(b, calls, AllBut(calls[i].toolName), cat, false)
  {
    ForeignFailureShows(a, calls, i, i + 1, cat);
    ForeignFailureShows(b, calls, i, i + 1, cat);
  }

  /** A search, and in the next round a failing foreign tool before the same search: the loop shows its cache. */
  lemma LoopShows(f: Facts, cat: Catalog, tool: string, json: string, wish: string)
    requires cat.Valid() && f.Complete() && ACTIVITIES in cat.servers && cat.parseWish(wish).Some?
    requires tool in cat.servers && tool !in META_TOOLS && cat.accepts(tool, PlainArgs(json))
    requires cat.accepts(ACTIVITIES, Search(f, cat, cat.parseWish(wish).value))
    ensures !LoopUnseen(f, cat)
  {
    var one := Asked([RawCall("2", ACTIVITIES, wish)]);
    var two := Asked([RawCall("1", tool, json), RawCall("2", ACTIVITIES, wish)]);
    var plans := Plans(f, cat, [one, two]);
    var search := SearchAlone(f, cat, wish);
    var i := ForeignPlace(f, cat, tool, json, wish);
    assert plans[0] == PlanNode(f, cat, one).value.calls && plans[1] == PlanNode(f, cat, two).value.calls;
    RoundsDiffer(plans, i, cat);
  }

  lemma LoopHides(f: Facts, cat: Catalog)
    requires cat.Valid() && f.Complete() && !(OffersActivities(f, cat) && OffersForeign(cat))
    ensures LoopUnseen(f, cat)
  {
    forall answers: seq<Answer>, tools: Tools
      ensures var plans := Plans(f, cat, answers);
              (forall k | 0 <= k < |plans| :: Registered(plans[k], cat)) &&
              ExecuteAll(map[], plans, tools, cat, true) == ExecuteAll(map[], plans, tools, cat, false)
    {
      CompiledLoopIsTransparent(f, cat, answers, tools);
    }
  }

  /**
    End to end: from empty fields, over every sequence of model answers, compiled and
    executed with the cache, the fields are those of the loop without it, exactly under a
    registry that does not offer both the activity search and a foreign tool.
  */
  lemma LoopUnseenIff(f: Facts, cat: Catalog)
    requires cat.Valid() && f.Complete()
    ensures LoopUnseen(f, cat) <==> !(OffersActivities(f, cat) && OffersForeign(cat))
  {
    if OffersActivities(f, cat) && OffersForeign(cat) {
      var tool, json :| tool in cat.servers && tool !in META_TOOLS && cat.accepts(tool, PlainArgs(json));
      var wish :| cat.parseWish(wish).Some? && cat.accepts(ACTIVITIES, Search(f, cat, cat.parseWish(wish).value));
      LoopShows(f, cat, tool, json, wish);
    } else {
      LoopHides(f, cat);
    }
  }
}
