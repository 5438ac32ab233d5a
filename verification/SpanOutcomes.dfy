/**
  What a recorded span tells about its call: for every call that was begun, whether
  and how it raised, what it reported, and where it was begun.
  */
module SpanOutcomes {
  import opened Prelude
  import opened Text
  import opened TraceCollector
  import opened SpanTree

  /** The span's own texts and place. */
  predicate TellsPlace(v: SpanView, c: Call, sc: Scope) {
    && sc.InRun? && v.spanId == sc.used && v.parent == sc.parent
    && v.operation == Strip(c.operation) && v.name == Strip(c.name)
  }

  /** A tool's span succeeds exactly when the call returns; else it names the error that the caller gets. */
  predicate TellsTool(v: SpanView, c: Call, raised: Option<Exn>) {
    && (raised.None? <==> v.status == "success" && v.error.None?)
    && (raised.Some? ==> v.status == "failed" && v.error.Some? && raised == Some(ToolError(v.error.value)))
    && v.usage == Usage(0, 0)
    && v.modelOrTool == if c.modelOrTool.None? || c.modelOrTool.value == "" then Some(c.name) else c.modelOrTool
  }

  /** A node's span fails without details when the node raises, and otherwise says what the node reports. */
  predicate TellsNode(v: SpanView, c: Call, raised: Option<Exn>)
    requires c.NodeCall?
  {
    && (raised.Some? ==>
          v.status == "failed" && v.error == Some("node_exception") && v.modelOrTool == c.modelOrTool
          && v.usage == Usage(0, 0))
    && (raised.None? ==>
          && v.status == NormalStatus(c.report.status) && v.error == c.report.error
          && (c.report.usage.Some? ==> v.usage == c.report.usage.value)
          && (c.report.usage.None? ==> v.usage == Usage(0, 0))
          && (c.report.modelOrTool in {None, Some("")} ==> v.modelOrTool == c.modelOrTool)
          && (c.report.modelOrTool !in {None, Some("")} ==> v.modelOrTool == c.report.modelOrTool))
  }

  predicate Tells(v: SpanView, c: Call, sc: Scope, raised: Option<Exn>) {
    && TellsPlace(v, c, sc)
    && if c.NodeCall? then TellsNode(v, c, raised) else TellsTool(v, c, raised)
  }

  /** The calls that begin a span, in order, each with what it sees of the harness. */
  function Begun(c: Call, sc: Scope): seq<(Call, Scope)>
    decreases c
  {
    if sc.NoRun? || Refused(c, sc) then [] else [(c, sc)] + BegunInside(c.body, Deeper(sc, c))
  }

  function BegunInside(b: Body, sc: Scope): seq<(Call, Scope)>
    decreases b
  {
    match b
    case Done(_) => []
    case Then(c, caught, rest) =>
      var first := Trace(c, sc);
      Begun(c, sc) + if first.raised.Some? && !caught then [] else BegunInside(rest, Advanced(sc, |first.spans|))
  }

  /** An exception leaves a tool only as a tool error. */
  lemma ToolsRaiseToolErrors(c: Call, sc: Scope)
    requires c.ToolCall? && sc.InRun? && !Refused(c, sc) && Trace(c, sc).raised.Some?
    ensures Trace(c, sc).raised.value.ToolError?
    ensures c.timing == Threaded(true) ==> Trace(c, sc).raised.value.code == "tool_timeout"
    ensures c.timing != Threaded(true) ==>
              var inner := TraceBody(c.body, Deeper(sc, c)).raised;
              && inner.Some?
              && (inner.value.ToolError? ==> Trace(c, sc).raised == inner)
              && (inner.value.OtherExn? ==> Trace(c, sc).raised.value.code == "tool_error")
  {
  }

  const STATUSES := ["running", "success", "degraded", "failed", "cancelled"]
  const WAITING := ["waiting_for_decision", "waiting", "interrupted", "pending"]

  /** A status is kept if it is a known one, waiting counts as success and anything else as failure. */
  lemma StatusIs(status: string)
    ensures var word, s := Lower(Strip(status)), NormalStatus(status);
            && s in STATUSES
            && (word in STATUSES ==> s == word)
            && (word in WAITING ==> s == "success")
            && (word !in STATUSES && word !in WAITING ==> s == "failed")
  {
    var word := Lower(Strip(status));
    assert word in STATUSES <==>
             word == STATUSES[0] || word == STATUSES[1] || word == STATUSES[2] || word == STATUSES[3]
             || word == STATUSES[4];
    assert word in WAITING <==>
             word == WAITING[0] || word == WAITING[1] || word == WAITING[2] || word == WAITING[3];
    assert NormalStatus(status) == "success" ==> NormalStatus(status) == STATUSES[1];
    assert NormalStatus(status) == "failed" ==> NormalStatus(status) == STATUSES[3];
  }

  /** The first span of a call that is not refused tells how this call ended. */
  lemma FirstSpanTells(c: Call, sc: Scope)
    requires sc.InRun? && !Refused(c, sc)
    ensures Trace(c, sc).spans != [] && Tells(Trace(c, sc).spans[0], c, sc, Trace(c, sc).raised)
  {
    if c.ToolCall? && Trace(c, sc).raised.Some? {
      ToolsRaiseToolErrors(c, sc);
    }
  }

  /** Every span tells about the call begun at its position. */
  predicate AllTell(spans: seq<SpanView>, begun: seq<(Call, Scope)>) {
    && |begun| == |spans|
    && forall k | 0 <= k < |spans| :: Tells(spans[k], begun[k].0, begun[k].1, Trace(begun[k].0, begun[k].1).raised)
  }

  lemma AllTellConcat(a: seq<SpanView>, x: seq<(Call, Scope)>, b: seq<SpanView>, y: seq<(Call, Scope)>)
    requires AllTell(a, x) && AllTell(b, y)
    ensures AllTell(a + b, x + y)
  {
  }

  /** So does every span of the tree about its own call. */
  lemma {:induction false} EverySpanTells(c: Call, sc: Scope)
    ensures AllTell(Trace(c, sc).spans, Begun(c, sc))
    decreases c
  {
    if sc.NoRun? {
      TracePositions(c, sc);
    } else if Refused(c, sc) {
    } else {
      FirstSpanTells(c, sc);
      EverySpanInsideTells(c.body, Deeper(sc, c));
      AllTellConcat([Trace(c, sc).spans[0]], [(c, sc)], TraceBody(c.body, Deeper(sc, c)).spans,
                    BegunInside(c.body, Deeper(sc, c)));
    }
  }

  lemma {:induction false} EverySpanInsideTells(b: Body, sc: Scope)
    ensures AllTell(TraceBody(b, sc).spans, BegunInside(b, sc))
    decreases b
  {
    match b
    case Done(_) =>
    case Then(c, caught, rest) =>
      var first := Trace(c, sc);
      EverySpanTells(c, sc);
      if first.raised.None? || caught {
        var next := Advanced(sc, |first.spans|);
        EverySpanInsideTells(rest, next);
        AllTellConcat(first.spans, Begun(c, sc), TraceBody(rest, next).spans, BegunInside(rest, next));
      } else {
        assert Begun(c, sc) + [] == Begun(c, sc);
      }
  }
}
