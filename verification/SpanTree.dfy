/**
  Node and tool calls under the tracing wrappers of app/observability/harness.py. A
  call is the tree of what it does; Trace says which spans that leaves behind, and the
  Harness is proved to record exactly those, on normal and on exceptional exits.
  */
module SpanTree {
  import opened Prelude
  import opened Text
  import opened TraceCollector

  /** An exception, as far as the wrappers tell them apart. */
  datatype Exn = ToolError(code: string) | OtherExn

  /** A tool runs in the caller's thread, or in one of its own that may time out. */
  datatype Timing = Inline | Threaded(timesOut: bool)

  datatype Report = Report(status: string, error: Option<string>, modelOrTool: Option<string>, usage: Option<Usage>)

  datatype Call =
    | NodeCall(name: string, operation: string, modelOrTool: Option<string>, body: Body, report: Report)
    | ToolCall(name: string, operation: string, modelOrTool: Option<string>, body: Body, timing: Timing)

  /** What a call does: further calls, whose exceptions it may catch, then a return or an exception of its own. */
  datatype Body = Done(raises: Option<Exn>) | Then(call: Call, caught: bool, rest: Body)

  /** Spans are begun and ended; a begun span names its parent. */
  datatype Event = Began(id: nat, node: bool, parent: Option<nat>) | Ended(of: nat)

  datatype Traced = Traced(spans: seq<SpanView>, events: seq<Event>, raised: Option<Exn>)

  /** What the calls see of the harness: the current span, the spans used so far and the limit; or no run at all. */
  datatype Scope = NoRun | InRun(parent: Option<nat>, used: nat, limit: nat)

  function Deeper(sc: Scope, c: Call): Scope
    requires sc.InRun?
  {
    if c.NodeCall? then sc.(parent := Some(sc.used), used := sc.used + 1)
    else if c.timing.Threaded? then NoRun
    else sc.(used := sc.used + 1)
  }

  /** What a tool's own exception handler lets through. */
  function Mapped(c: Call, raised: Option<Exn>): Option<Exn> {
    if c.NodeCall? then raised
    else if c.timing == Threaded(true) then Some(ToolError("tool_timeout"))
    else if raised.None? then None
    else if raised.value.ToolError? then raised
    else Some(ToolError("tool_error"))
  }

  /** A tool without a model or tool of its own is shown by its name. */
  function ShownTool(c: Call): Option<string> {
    if c.ToolCall? && (c.modelOrTool.None? || c.modelOrTool.value == "") then Some(c.name) else c.modelOrTool
  }

  function BegunSpan(c: Call, sc: Scope): SpanView
    requires sc.InRun?
  {
    SpanView(sc.used, sc.parent, Strip(c.operation), Strip(c.name), ShownTool(c), Usage(0, 0), "running", None)
  }

  /** The span as finished: failed with a code, or as reported. */
  function FinishedSpan(c: Call, sc: Scope, raised: Option<Exn>): SpanView
    requires sc.InRun?
  {
    var begun := BegunSpan(c, sc);
    match c
    case NodeCall(_, _, _, _, report) =>
      if raised.Some? then begun.(status := "failed", error := Some("node_exception"))
      else begun.(status := NormalStatus(report.status), error := report.error,
                  modelOrTool := if report.modelOrTool.Some? && report.modelOrTool.value != ""
                                 then report.modelOrTool
                                 else begun.modelOrTool,
                  usage := if report.usage.Some? then report.usage.value else begun.usage)
    case ToolCall(_, _, _, _, _) =>
      match raised
      case Some(ToolError(code)) => begun.(status := "failed", error := Some(code))
      case _ => begun.(status := "success")
  }

  predicate Refused(c: Call, sc: Scope)
    requires sc.InRun?
  {
    sc.used >= sc.limit || Strip(c.operation) == "" || Strip(c.name) == ""
  }

  function Trace(c: Call, sc: Scope): Traced
    decreases c
  {
    if sc.NoRun? then Traced([], [], Mapped(c, TraceBody(c.body, NoRun).raised))
    else if Refused(c, sc) then Traced([], [], Some(OtherExn))
    else
      var inner := TraceBody(c.body, Deeper(sc, c));
      var raised := Mapped(c, inner.raised);
      Traced([FinishedSpan(c, sc, raised)] + inner.spans,
             [Began(sc.used, c.NodeCall?, sc.parent)] + inner.events + [Ended(sc.used)], raised)
  }

  function Advanced(sc: Scope, n: nat): Scope {
    if sc.NoRun? then sc else sc.(used := sc.used + n)
  }

  function TraceBody(b: Body, sc: Scope): Traced
    decreases b
  {
    match b
    case Done(raises) => Traced([], [], raises)
    case Then(c, caught, rest) =>
      var first := Trace(c, sc);
      if first.raised.Some? && !caught then first
      else
        var more := TraceBody(rest, Advanced(sc, |first.spans|));
        Traced(first.spans + more.spans, first.events + more.events, more.raised)
  }

  // ------------------------------------------------------------- what traces satisfy

  /** Recorded spans sit at consecutive positions, in the order they were begun, below the limit. */
  lemma {:induction false} TracePositions(c: Call, sc: Scope)
    ensures sc.NoRun? ==> Trace(c, sc).spans == [] && Trace(c, sc).events == []
    ensures sc.InRun? ==> forall k | 0 <= k < |Trace(c, sc).spans| :: Trace(c, sc).spans[k].spanId == sc.used + k
    ensures sc.InRun? && sc.used <= sc.limit ==> sc.used + |Trace(c, sc).spans| <= sc.limit
    decreases c
  {
    if sc.NoRun? || Refused(c, sc) {
    } else {
      BodyPositions(c.body, Deeper(sc, c));
    }
  }

  lemma {:induction false} BodyPositions(b: Body, sc: Scope)
    ensures sc.NoRun? ==> TraceBody(b, sc).spans == [] && TraceBody(b, sc).events == []
    ensures sc.InRun? ==> forall k | 0 <= k < |TraceBody(b, sc).spans| ::
              TraceBody(b, sc).spans[k].spanId == sc.used + k
    ensures sc.InRun? && sc.used <= sc.limit ==> sc.used + |TraceBody(b, sc).spans| <= sc.limit
    decreases b
  {
    match b
    case Done(_) =>
    case Then(c, caught, rest) =>
      TracePositions(c, sc);
      BodyPositions(rest, Advanced(sc, |Trace(c, sc).spans|));
  }

  /** An open span, innermost last. */
  datatype Frame = Frame(id: nat, node: bool)

  /** The innermost open node span, or what was current outside. */
  function Enclosing(stack: seq<Frame>, outside: Option<nat>): Option<nat> {
    if stack == [] then outside
    else if stack[|stack| - 1].node then Some(stack[|stack| - 1].id)
    else Enclosing(stack[..|stack| - 1], outside)
  }

  /**
    Runs the events over the stack of open spans. None if a span names another parent
    than the innermost open node span, or if one ends that is not the innermost open one.
    */
  function Unwind(events: seq<Event>, stack: seq<Frame>, outside: Option<nat>): Option<seq<Frame>> {
    if events == [] then Some(stack)
    else
      match events[0]
      case Began(id, node, parent) =>
        if parent == Enclosing(stack, outside) then Unwind(events[1..], stack + [Frame(id, node)], outside) else None
      case Ended(of) =>
        if stack != [] && stack[|stack| - 1].id == of then Unwind(events[1..], stack[..|stack| - 1], outside) else None
  }

  lemma {:induction false} UnwindConcat(a: seq<Event>, b: seq<Event>, stack: seq<Frame>, outside: Option<nat>)
    requires Unwind(a, stack, outside).Some?
    ensures Unwind(a + b, stack, outside) == Unwind(b, Unwind(a, stack, outside).value, outside)
    decreases |a|
  {
    if a == [] {
      assert a + b == b;
    } else {
      assert (a + b)[1..] == a[1..] + b;
      match a[0]
      case Began(id, node, _) => UnwindConcat(a[1..], b, stack + [Frame(id, node)], outside);
      case Ended(_) => UnwindConcat(a[1..], b, stack[..|stack| - 1], outside);
    }
  }

  lemma UnwindOpened(e: Event, rest: seq<Event>, stack: seq<Frame>, outside: Option<nat>)
    requires e.Began? && e.parent == Enclosing(stack, outside)
    ensures Unwind([e] + rest, stack, outside) == Unwind(rest, stack + [Frame(e.id, e.node)], outside)
  {
    assert ([e] + rest)[1..] == rest;
  }

  lemma UnwindClosed(id: nat, stack: seq<Frame>, outside: Option<nat>)
    requires stack != [] && stack[|stack| - 1].id == id
    ensures Unwind([Ended(id)], stack, outside) == Some(stack[..|stack| - 1])
  {
    assert [Ended(id)][1..] == [];
  }

  /**
    For any tree of calls, returning or raising anywhere: every begun span is ended
    exactly once, innermost first, and its parent is the innermost node span still
    running when it began.
    */
  lemma {:induction false} TraceNests(c: Call, sc: Scope, stack: seq<Frame>, outside: Option<nat>)
    requires sc.InRun? ==> sc.parent == Enclosing(stack, outside)
    ensures Unwind(Trace(c, sc).events, stack, outside) == Some(stack)
    decreases c
  {
    if sc.NoRun? {
      TracePositions(c, sc);
    } else if Refused(c, sc) {
    } else {
      var grown := stack + [Frame(sc.used, c.NodeCall?)];
      assert grown[..|grown| - 1] == stack;
      var inner := TraceBody(c.body, Deeper(sc, c)).events;
      BodyNests(c.body, Deeper(sc, c), grown, outside);
      var begin, end := Began(sc.used, c.NodeCall?, sc.parent), Ended(sc.used);
      UnwindConcat(inner, [end], grown, outside);
      assert [begin] + inner + [end] == [begin] + (inner + [end]);
      UnwindOpened(begin, inner + [end], stack, outside);
      UnwindClosed(sc.used, grown, outside);
    }
  }

  lemma {:induction false} BodyNests(b: Body, sc: Scope, stack: seq<Frame>, outside: Option<nat>)
    requires sc.InRun? ==> sc.parent == Enclosing(stack, outside)
    ensures Unwind(TraceBody(b, sc).events, stack, outside) == Some(stack)
    decreases b
  {
    match b
    case Done(_) =>
    case Then(c, caught, rest) =>
      var first := Trace(c, sc);
      TraceNests(c, sc, stack, outside);
      if first.raised.None? || caught {
        var next := Advanced(sc, |first.spans|);
        BodyNests(rest, next, stack, outside);
        UnwindConcat(first.events, TraceBody(rest, next).events, stack, outside);
      }
  }

  /** The spans are those begun, in that order, with the parents named there. */
  function Beginnings(events: seq<Event>): seq<(nat, Option<nat>)> {
    if events == [] then []
    else
      match events[|events| - 1]
      case Began(id, _, parent) => Beginnings(events[..|events| - 1]) + [(id, parent)]
      case Ended(_) => Beginnings(events[..|events| - 1])
  }

  function Links(spans: seq<SpanView>): seq<(nat, Option<nat>)> {
    seq(|spans|, k requires 0 <= k < |spans| => (spans[k].spanId, spans[k].parent))
  }

  lemma {:induction false} BeginningsConcat(a: seq<Event>, b: seq<Event>)
    ensures Beginnings(a + b) == Beginnings(a) + Beginnings(b)
    decreases |b|
  {
    if b == [] {
      assert a + b == a;
    } else {
      BeginningsConcat(a, b[..|b| - 1]);
      assert (a + b)[..|a + b| - 1] == a + b[..|b| - 1];
    }
  }

  lemma LinksConcat(a: seq<SpanView>, b: seq<SpanView>)
    ensures Links(a + b) == Links(a) + Links(b)
  {
  }

  lemma BracketBegins(id: nat, node: bool, parent: Option<nat>, events: seq<Event>)
    ensures Beginnings([Began(id, node, parent)] + events + [Ended(id)]) == [(id, parent)] + Beginnings(events)
  {
    var begin, end := Began(id, node, parent), Ended(id);
    BeginningsConcat([begin] + events, [end]);
    BeginningsConcat([begin], events);
    assert [begin][..0] == [] && [end][..0] == [];
  }

  lemma OwnSpanBegun(c: Call, sc: Scope, inner: Traced)
    requires sc.InRun? && !Refused(c, sc) && inner == TraceBody(c.body, Deeper(sc, c))
    requires Links(inner.spans) == Beginnings(inner.events)
    ensures Links(Trace(c, sc).spans) == Beginnings(Trace(c, sc).events)
  {
    BracketBegins(sc.used, c.NodeCall?, sc.parent, inner.events);
    LinksConcat([FinishedSpan(c, sc, Mapped(c, inner.raised))], inner.spans);
  }

  lemma {:induction false} SpansAreTheBegun(c: Call, sc: Scope)
    ensures Links(Trace(c, sc).spans) == Beginnings(Trace(c, sc).events)
    decreases c
  {
    if sc.NoRun? {
      TracePositions(c, sc);
    } else if Refused(c, sc) {
    } else {
      BodySpansAreTheBegun(c.body, Deeper(sc, c));
      OwnSpanBegun(c, sc, TraceBody(c.body, Deeper(sc, c)));
    }
  }

  lemma {:induction false} BodySpansAreTheBegun(b: Body, sc: Scope)
    ensures Links(TraceBody(b, sc).spans) == Beginnings(TraceBody(b, sc).events)
    decreases b
  {
    match b
    case Done(_) =>
    case Then(c, caught, rest) =>
      var first := Trace(c, sc);
      SpansAreTheBegun(c, sc);
      if first.raised.None? || caught {
        var more := TraceBody(rest, Advanced(sc, |first.spans|));
        BodySpansAreTheBegun(rest, Advanced(sc, |first.spans|));
        BeginningsConcat(first.events, more.events);
        LinksConcat(first.spans, more.spans);
      }
  }

  /** Every node reports an end. */
  predicate Settles(c: Call)
    decreases c
  {
    (c.NodeCall? ==> NormalStatus(c.report.status) != "running") && BodySettles(c.body)
  }

  predicate BodySettles(b: Body)
    decreases b
  {
    b.Then? ==> Settles(b.call) && BodySettles(b.rest)
  }

  /** Then no span is left running. */
  lemma {:induction false} NothingLeftRunning(c: Call, sc: Scope, k: nat)
    requires Settles(c) && k < |Trace(c, sc).spans|
    ensures Trace(c, sc).spans[k].status != "running"
    decreases c
  {
    if sc.InRun? && k > 0 {
      BodyLeavesNothingRunning(c.body, Deeper(sc, c), k - 1);
    } else if sc.NoRun? {
      TracePositions(c, sc);
    }
  }

  lemma {:induction false} BodyLeavesNothingRunning(b: Body, sc: Scope, k: nat)
    requires BodySettles(b) && k < |TraceBody(b, sc).spans|
    ensures TraceBody(b, sc).spans[k].status != "running"
    decreases b
  {
    var first := Trace(b.call, sc);
    if k < |first.spans| {
      NothingLeftRunning(b.call, sc, k);
    } else {
      BodyLeavesNothingRunning(b.rest, Advanced(sc, |first.spans|), k - |first.spans|);
    }
  }

  // ------------------------------------------------------------------ transparency

  /** Untraced, the exception of a call ends the body it is in. */
  predicate Stops(c: Call, caught: bool) {
    Trace(c, NoRun).raised.Some? && !caught
  }

  /** How many spans the calls of an untraced run would begin; what a thread of its own does begins none. */
  function Needed(c: Call): nat
    decreases c
  {
    1 + if c.ToolCall? && c.timing.Threaded? then 0 else NeededBody(c.body)
  }

  function NeededBody(b: Body): nat
    decreases b
  {
    if b.Done? then 0
    else Needed(b.call) + if Stops(b.call, b.caught) then 0 else NeededBody(b.rest)
  }

  /** Those calls carry the texts a span must have. */
  predicate Named(c: Call)
    decreases c
  {
    && Strip(c.operation) != "" && Strip(c.name) != ""
    && ((c.ToolCall? && c.timing.Threaded?) || BodyNamed(c.body))
  }

  predicate BodyNamed(b: Body)
    decreases b
  {
    b.Then? ==> Named(b.call) && (Stops(b.call, b.caught) || BodyNamed(b.rest))
  }

  function Least(m: nat, n: nat): nat {
    if m <= n then m else n
  }

  /** Exactly the spans that are needed are recorded,
      as far as there is room; and with room for all of them nothing shows. */
  lemma {:induction false} SpansRecorded(c: Call, sc: Scope)
    requires Named(c) && sc.InRun? && sc.used <= sc.limit
    ensures |Trace(c, sc).spans| == Least(Needed(c), sc.limit - sc.used)
    ensures sc.used + Needed(c) <= sc.limit ==> Trace(c, sc).raised == Trace(c, NoRun).raised
    decreases c
  {
    if sc.used == sc.limit {
    } else if Deeper(sc, c).InRun? {
      BodyRecorded(c.body, Deeper(sc, c));
    } else {
      BodyPositions(c.body, NoRun);
    }
  }

  lemma {:induction false} BodyRecorded(b: Body, sc: Scope)
    requires BodyNamed(b) && sc.InRun? && sc.used <= sc.limit
    ensures |TraceBody(b, sc).spans| == Least(NeededBody(b), sc.limit - sc.used)
    ensures sc.used + NeededBody(b) <= sc.limit ==> TraceBody(b, sc).raised == TraceBody(b, NoRun).raised
    decreases b
  {
    match b
    case Done(_) =>
    case Then(c, caught, rest) =>
      SpansRecorded(c, sc);
      var next := Advanced(sc, |Trace(c, sc).spans|);
      if sc.used + Needed(c) <= sc.limit {
        if !Stops(c, caught) {
          BodyRecorded(rest, next);
        }
      } else {
        BodyPositions(rest, next);
      }
  }

  /** As long as the spans an untraced run needs fit, a traced call ends as the untraced one does. */
  lemma TracingIsTransparent(c: Call, sc: Scope)
    requires Named(c) && sc.InRun? && sc.used + Needed(c) <= sc.limit
    ensures Trace(c, sc).raised == Trace(c, NoRun).raised
  {
    SpansRecorded(c, sc);
  }

  /** Tracing never records more than is needed, and adds exceptions but never loses one. */
  lemma {:induction false} NeverMore(c: Call, sc: Scope)
    requires sc.InRun?
    ensures |Trace(c, sc).spans| <= Needed(c)
    ensures |Trace(c, sc).spans| == Needed(c) ==> Named(c)
    ensures Trace(c, NoRun).raised.Some? ==> Trace(c, sc).raised.Some?
    decreases c
  {
    if Refused(c, sc) {
    } else if Deeper(sc, c).InRun? {
      BodyNeverMore(c.body, Deeper(sc, c));
    } else {
      BodyPositions(c.body, NoRun);
    }
  }

  lemma {:induction false} BodyNeverMore(b: Body, sc: Scope)
    requires sc.InRun?
    ensures |TraceBody(b, sc).spans| <= NeededBody(b)
    ensures |TraceBody(b, sc).spans| == NeededBody(b) ==> BodyNamed(b)
    ensures TraceBody(b, NoRun).raised.Some? ==> TraceBody(b, sc).raised.Some?
    decreases b
  {
    match b
    case Done(_) =>
    case Then(c, caught, rest) =>
      NeverMore(c, sc);
      if Trace(c, sc).raised.None? || caught {
        BodyNeverMore(rest, Advanced(sc, |Trace(c, sc).spans|));
      } else if !Stops(c, caught) && NeededBody(rest) == 0 {
        assert rest.Then? ==> Needed(rest.call) >= 1;
      }
  }

  /** Every call of the untraced run gets its span exactly when all are named and they fit. */
  lemma AllRecordedIff(c: Call, sc: Scope)
    requires sc.InRun?
    ensures |Trace(c, sc).spans| == Needed(c) <==> Named(c) && sc.used + Needed(c) <= sc.limit
  {
    NeverMore(c, sc);
    TracePositions(c, sc);
    if Named(c) && sc.used <= sc.limit {
      SpansRecorded(c, sc);
    }
  }

  /** At the limit every call is refused before it runs, so one that would return raises. */
  lemma LimitShows(c: Call, sc: Scope)
    requires sc.InRun? && sc.used >= sc.limit
    ensures Trace(c, sc) == Traced([], [], Some(OtherExn))
    ensures Trace(c, NoRun).raised.None? ==> Trace(c, sc).raised != Trace(c, NoRun).raised
  {
  }

  // ------------------------------------------------------------------- the wrappers

  lemma StatusWords()
    ensures NormalStatus("failed") == "failed" && NormalStatus("success") == "success"
  {
    assert Lower("failed") == "failed";
    assert Lower("success") == "success";
  }

  lemma RefusedTrace(c: Call, sc: Scope, before: seq<SpanView>)
    requires sc.InRun? && Refused(c, sc)
    ensures Trace(c, sc).raised == Some(OtherExn) && before + Trace(c, sc).spans == before
  {
  }

  lemma BodyStep(b: Body, sc: Scope, before: seq<SpanView>)
    requires b.Then?
    ensures var first, all := Trace(b.call, sc), TraceBody(b, sc);
            var more := TraceBody(b.rest, Advanced(sc, |first.spans|));
            if first.raised.Some? && !b.caught then all == first
            else all.raised == more.raised && before + all.spans == before + first.spans + more.spans
  {
  }

  lemma ReplaceMiddle<T>(a: seq<T>, x: T, b: seq<T>, y: T)
    ensures (a + [x] + b)[|a| := y] == a + ([y] + b)
  {
  }

  /** Without a run the wrappers are transparent: nothing is recorded. */
  method Untraced(b: Body) returns (raised: Option<Exn>)
    ensures raised == TraceBody(b, NoRun).raised
    decreases b
  {
    if b.Done? {
      return b.raises;
    }
    raised := Untraced(b.call.body);
    raised := Mapped(b.call, raised);
    BodyPositions(b.call.body, NoRun);
    if raised.Some? && !b.caught {
      return;
    }
    raised := Untraced(b.rest);
  }

  /** The context variables of one thread, and the collector they lead to. */
  class Harness {
    const collector: Collector
    var run: Option<RunContext>
    var current: Option<nat>

    constructor (collector: Collector)
      ensures this.collector == collector && run == None && current == None
    {
      this.collector, run, current := collector, None, None;
    }

    /** Spans go to this record. */
    ghost predicate Recording(record: RunRecord)
      reads this`run, collector, collector.log
    {
      && collector.Valid() && run.Some?
      && run.value.runId in collector.byId && collector.byId[run.value.runId] == record
    }

    /** What a call started now sees. */
    ghost function Here(record: RunRecord): Scope
      reads this`current, record
    {
      InRun(current, |record.spans|, collector.maxSpans)
    }

    lemma SpansInPlace(record: RunRecord)
      requires Recording(record)
      ensures SpansOk(record, collector.maxSpans)
    {
      RetainedMembers(collector.log, collector.maxRuns, record);
    }

    /** Starting the span of a call: refused, or appended and running. */
    method Begin(c: Call, ghost record: RunRecord) returns (started: Result<SpanRecord, TraceError>)
      requires Recording(record)
      modifies record
      ensures Recording(record)
      ensures started.Err? <==> Refused(c, old(Here(record)))
      ensures started.Err? ==> record.spans == old(record.spans) && ViewSpans(record) == old(ViewSpans(record))
      ensures started.Ok? ==>
                && fresh(started.value) && record.spans == old(record.spans) + [started.value]
                && Here(record) == old(Here(record)).(used := |old(record.spans)| + 1)
                && ViewSpan(started.value) == BegunSpan(c, old(Here(record)))
                && ViewSpans(record) == old(ViewSpans(record)) + [BegunSpan(c, old(Here(record)))]
    {
      started := collector.StartSpan(run.value, c.operation, c.name, current, ShownTool(c));
    }

    /**
      Finishing it and restoring the current span: no other position of the run holds the
      same span, so no other view changes.
      */
    method End(c: Call, span: SpanRecord, raised: Option<Exn>, outer: Option<nat>,
               ghost record: RunRecord, ghost sc: Scope)
      requires Recording(record) && sc.InRun? && sc.used < |record.spans| && record.spans[sc.used] == span
      requires ViewSpan(span) == BegunSpan(c, sc)
      modifies span, this`current
      ensures Recording(record) && current == outer
      ensures ViewSpans(record) == old(ViewSpans(record))[sc.used := FinishedSpan(c, sc, raised)]
    {
      SpansInPlace(record);
      ghost var before := ViewSpans(record);
      assert forall k | 0 <= k < |record.spans| && k != sc.used :: record.spans[k] != span;
      Finish(c, span, raised, sc);
      assert ViewSpans(record) == before[sc.used := FinishedSpan(c, sc, raised)];
      current := outer;
    }

    /** `instrument_node` and `ToolExecutor.execute`: the spans of the call are appended, the current span
        is restored. */
    method Execute(c: Call, ghost record: RunRecord) returns (raised: Option<Exn>)
      requires Recording(record)
      modifies this`current, record
      ensures Recording(record) && current == old(current) && old(record.spans) <= record.spans
      ensures raised == Trace(c, old(Here(record))).raised
      ensures ViewSpans(record) == old(ViewSpans(record)) + Trace(c, old(Here(record))).spans
      decreases c
    {
      ghost var sc, before := Here(record), ViewSpans(record);
      var started := Begin(c, record);
      if started.Err? {
        RefusedTrace(c, sc, before);
        return Some(OtherExn);
      }
      var span := started.value;
      assert !Refused(c, sc) && |before| == sc.used && record.spans[sc.used] == span;
      assert ViewSpans(record) == before + [BegunSpan(c, sc)];
      raised := Carry(c, span, record, sc, before);
    }

    /** From a begun span to a finished one. */
    method Carry(c: Call, span: SpanRecord, ghost record: RunRecord, ghost sc: Scope, ghost before: seq<SpanView>)
      returns (raised: Option<Exn>)
      requires Recording(record) && sc.InRun? && |before| == sc.used && Here(record) == sc.(used := sc.used + 1)
      requires !Refused(c, sc) && record.spans[sc.used] == span && ViewSpans(record) == before + [BegunSpan(c, sc)]
      modifies this`current, record, span
      ensures Recording(record) && current == old(current) && old(record.spans) <= record.spans
      ensures raised == Trace(c, sc).raised && ViewSpans(record) == before + Trace(c, sc).spans
      decreases c, 1
    {
      assert ViewSpans(record)[sc.used] == ViewSpan(span);
      var outer := current;
      raised := Inside(c, span.spanId, record, sc);
      raised := Mapped(c, raised);
      ghost var inner := TraceBody(c.body, Deeper(sc, c)).spans;
      assert ViewSpans(record)[sc.used] == ViewSpan(span);
      ReplaceMiddle(before, BegunSpan(c, sc), inner, FinishedSpan(c, sc, raised));
      End(c, span, raised, outer, record, sc);
    }

    /** The body of a call: a node's under its own span, a timed tool's in a thread without context. */
    method Inside(c: Call, id: nat, ghost record: RunRecord, ghost sc: Scope) returns (raised: Option<Exn>)
      requires Recording(record) && sc.InRun? && sc.used == id
      requires Here(record) == sc.(used := id + 1)
      modifies this`current, record
      ensures Recording(record) && old(record.spans) <= record.spans
      ensures raised == TraceBody(c.body, Deeper(sc, c)).raised
      ensures ViewSpans(record) == old(ViewSpans(record)) + TraceBody(c.body, Deeper(sc, c)).spans
      decreases c, 0
    {
      if c.NodeCall? {
        current := Some(id);
      }
      if c.ToolCall? && c.timing.Threaded? {
        raised := Untraced(c.body);
        BodyPositions(c.body, NoRun);
      } else {
        assert Here(record) == Deeper(sc, c) && Recording(record);
        raised := Perform(c.body, record);
      }
    }

    /** Finishing the span of a call with what came out of it. */
    static method Finish(c: Call, span: SpanRecord, raised: Option<Exn>, ghost sc: Scope)
      requires sc.InRun? && ViewSpan(span) == BegunSpan(c, sc)
      modifies span
      ensures ViewSpan(span) == FinishedSpan(c, sc, raised)
    {
      StatusWords();
      var refused: Option<TraceError>;
      if c.NodeCall? {
        if raised.Some? {
          refused := FinishSpan(span, "failed", Some("node_exception"), None, None);
        } else {
          refused := FinishSpan(span, c.report.status, c.report.error, c.report.modelOrTool, c.report.usage);
        }
      } else if raised.Some? && raised.value.ToolError? {
        refused := FinishSpan(span, "failed", Some(raised.value.code), None, None);
      } else {
        refused := FinishSpan(span, "success", None, None, None);
      }
    }

    method Perform(b: Body, ghost record: RunRecord) returns (raised: Option<Exn>)
      requires Recording(record)
      modifies this`current, record
      ensures Recording(record) && current == old(current) && old(record.spans) <= record.spans
      ensures raised == TraceBody(b, old(Here(record))).raised
      ensures ViewSpans(record) == old(ViewSpans(record)) + TraceBody(b, old(Here(record))).spans
      decreases b
    {
      if b.Done? {
        return b.raises;
      }
      ghost var sc, before := Here(record), ViewSpans(record);
      ghost var first := Trace(b.call, sc);
      BodyStep(b, sc, before);
      raised := Execute(b.call, record);
      if raised.Some? && !b.caught {
        return;
      }
      ghost var next, middle := Advanced(sc, |first.spans|), before + first.spans;
      assert Here(record) == next && ViewSpans(record) == middle;
      raised := Perform(b.rest, record);
      assert ViewSpans(record) == middle + TraceBody(b.rest, next).spans;
    }

    /** `use_run_context`: whatever the body does, the previous context is back afterwards. */
    method UseRunContext(context: RunContext, b: Body, ghost record: RunRecord) returns (raised: Option<Exn>)
      requires collector.Valid() && context.runId in collector.byId && collector.byId[context.runId] == record
      modifies this, record
      ensures collector.Valid() && run == old(run) && current == old(current)
      ensures raised == TraceBody(b, old(Here(record))).raised
      ensures ViewSpans(record) == old(ViewSpans(record)) + TraceBody(b, old(Here(record))).spans
    {
      var outer := run;
      ghost var sc, before := Here(record), ViewSpans(record);
      run := Some(context);
      assert Here(record) == sc && ViewSpans(record) == before;
      raised := Perform(b, record);
      ghost var after := ViewSpans(record);
      run := outer;
      assert ViewSpans(record) == after;
    }
  }
}
