/**
  The run and span store of app/observability/harness.py: a bounded queue of runs and
  an index by run id, which agree with an unbounded log of everything ever started.
  Latencies and time stamps are left out; a span's random id is its position in its run.
  */
module TraceCollector {
  import opened Prelude
  import opened Collections
  import opened Text

  datatype RunContext = RunContext(runId: string, threadId: string, workflow: string)

  datatype TraceError = BadCapacity | DuplicateRun | UnknownRun | SpanLimit | BlankText | AlreadyFinished

  datatype Usage = Usage(input: int, output: int)

  /** `_normalize_status` */
  function NormalStatus(status: string): string {
    var s := Lower(Strip(status));
    if s in {"running", "success", "degraded", "failed", "cancelled"} then s
    else if s in {"waiting_for_decision", "waiting", "interrupted", "pending"} then "success"
    else "failed"
  }

  class SpanRecord {
    const runId: string
    const spanId: nat
    const parent: Option<nat>
    const operation: string
    const name: string
    var modelOrTool: Option<string>
    var usage: Usage
    var status: string
    var error: Option<string>

    constructor (runId: string, spanId: nat, parent: Option<nat>, operation: string, name: string,
                 modelOrTool: Option<string>)
      ensures this.runId == runId && this.spanId == spanId && this.parent == parent
      ensures this.operation == operation && this.name == name && this.modelOrTool == modelOrTool
      ensures usage == Usage(0, 0) && status == "running" && error == None
    {
      this.runId, this.spanId, this.parent := runId, spanId, parent;
      this.operation, this.name, this.modelOrTool := operation, name, modelOrTool;
      usage, status, error := Usage(0, 0), "running", None;
    }
  }

  class RunRecord {
    const context: RunContext
    var spans: seq<SpanRecord>
    var status: string
    var error: Option<string>

    constructor (context: RunContext)
      ensures this.context == context && spans == [] && status == "running" && error == None
    {
      this.context := context;
      spans, status, error := [], "running", None;
    }
  }

  /** What callers are shown of a run: values only. */
  datatype SpanView = SpanView(spanId: nat, parent: Option<nat>, operation: string, name: string,
                               modelOrTool: Option<string>, usage: Usage, status: string, error: Option<string>)

  datatype RunView = RunView(context: RunContext, status: string, error: Option<string>, spans: seq<SpanView>)

  function ViewSpan(s: SpanRecord): SpanView
    reads s
  {
    SpanView(s.spanId, s.parent, s.operation, s.name, s.modelOrTool, s.usage, s.status, s.error)
  }

  function ViewSpans(r: RunRecord): (views: seq<SpanView>)
    reads r, r.spans
    ensures |views| == |r.spans| && forall k | 0 <= k < |views| :: views[k] == ViewSpan(r.spans[k])
  {
    seq(|r.spans|, i requires 0 <= i < |r.spans| reads r, r.spans => ViewSpan(r.spans[i]))
  }

  function ViewRun(r: RunRecord): RunView
    reads r, r.spans
  {
    RunView(r.context, r.status, r.error, ViewSpans(r))
  }

  // -------------------------------------------------------------- retained suffixes

  /** The last n elements: what a deque of that capacity holds. */
  function Retained<T>(log: seq<T>, n: nat): seq<T> {
    if |log| <= n then log else log[|log| - n..]
  }

  /** Appending to the deque and dropping its head retains the right suffix of the longer log. */
  lemma RetainedSnoc<T>(log: seq<T>, n: nat, x: T)
    requires n >= 1
    ensures var kept := Retained(log, n);
            Retained(log + [x], n) == (if |kept| == n then kept[1..] else kept) + [x]
  {
    var kept := Retained(log, n);
    if |log| >= n {
      assert (log + [x])[|log| + 1 - n..] == log[|log| + 1 - n..] + [x];
      assert kept[1..] == log[|log| + 1 - n..];
    }
  }

  /** The index has exactly the queue's runs, whose ids differ. */
  ghost predicate Indexes(byId: map<string, RunRecord>, runs: seq<RunRecord>) {
    && (forall i | 0 <= i < |runs| :: runs[i].context.runId in byId && byId[runs[i].context.runId] == runs[i])
    && (forall id | id in byId :: byId[id] in runs && byId[id].context.runId == id)
    && (forall i, j | 0 <= i < j < |runs| :: runs[i].context.runId != runs[j].context.runId)
  }

  lemma IndexesAppend(byId: map<string, RunRecord>, runs: seq<RunRecord>, r: RunRecord)
    requires Indexes(byId, runs) && r.context.runId !in byId
    ensures Indexes(byId[r.context.runId := r], runs + [r])
  {
    var index, all := byId[r.context.runId := r], runs + [r];
    forall id | id in index
      ensures index[id] in all && index[id].context.runId == id
    {
      if id == r.context.runId {
        assert all[|runs|] == r;
      }
    }
  }

  lemma IndexesEvict(byId: map<string, RunRecord>, runs: seq<RunRecord>)
    requires Indexes(byId, runs) && runs != []
    ensures Indexes(byId - {runs[0].context.runId}, runs[1..])
  {
    var index := byId - {runs[0].context.runId};
    forall id | id in index
      ensures index[id] in runs[1..] && index[id].context.runId == id
    {
      var i :| 0 <= i < |runs| && runs[i] == byId[id];
      assert runs[1..][i - 1] == byId[id];
    }
  }

  /** A run is not over its limit, and its spans sit at their own positions. */
  ghost predicate SpansOk(r: RunRecord, maxSpans: nat)
    reads r
  {
    |r.spans| <= maxSpans
    && forall k | 0 <= k < |r.spans| :: r.spans[k].spanId == k && r.spans[k].runId == r.context.runId
  }

  /** The retained runs are runs of the log. */
  lemma RetainedMembers<T>(log: seq<T>, n: nat, x: T)
    requires x in Retained(log, n)
    ensures x in log
  {
  }

  /** `deque(maxlen=n).append` */
  function Appended<T>(queue: seq<T>, n: nat, x: T): seq<T> {
    if 1 <= |queue| == n then queue[1..] + [x] else queue + [x]
  }

  /** Without the run that the next append evicts. */
  function Evicted(byId: map<string, RunRecord>, runs: seq<RunRecord>, n: nat): map<string, RunRecord> {
    if 1 <= |runs| == n then byId - {runs[0].context.runId} else byId
  }

  /** Evicting, then appending, keeps queue and index in step with the log. */
  lemma Admission(byId: map<string, RunRecord>, runs: seq<RunRecord>, log: seq<RunRecord>, n: nat, r: RunRecord)
    requires n >= 1 && runs == Retained(log, n) && Indexes(byId, runs) && r.context.runId !in byId
    ensures Appended(runs, n, r) == Retained(log + [r], n)
    ensures Indexes(Evicted(byId, runs, n)[r.context.runId := r], Appended(runs, n, r))
  {
    RetainedSnoc(log, n, r);
    if |runs| == n {
      IndexesEvict(byId, runs);
      IndexesAppend(Evicted(byId, runs, n), runs[1..], r);
    } else {
      IndexesAppend(byId, runs, r);
    }
  }

  class Collector {
    const maxRuns: nat
    const maxSpans: nat
    var runs: seq<RunRecord>
    var byId: map<string, RunRecord>
    /** Every run ever started, oldest first. */
    ghost var log: seq<RunRecord>

    ghost predicate Valid()
      reads this, log
    {
      && 1 <= maxRuns && 1 <= maxSpans
      && runs == Retained(log, maxRuns)
      && Indexes(byId, runs)
      && (forall r | r in log :: SpansOk(r, maxSpans))
    }

    constructor (maxRuns: nat, maxSpans: nat)
      requires 1 <= maxRuns && 1 <= maxSpans
      ensures Valid() && log == [] && this.maxRuns == maxRuns && this.maxSpans == maxSpans
    {
      this.maxRuns, this.maxSpans := maxRuns, maxSpans;
      runs, byId, log := [], map[], [];
    }

    /** A refused id leaves everything as it was; an accepted run is the newest of the log and starts empty. */
    method StartRun(context: RunContext) returns (r: Result<RunRecord, TraceError>)
      requires Valid()
      modifies this
      ensures Valid()
      ensures context.runId in old(byId) ==>
                r == Err(DuplicateRun) && log == old(log) && runs == old(runs) && byId == old(byId)
      ensures context.runId !in old(byId) ==>
                && r.Ok? && fresh(r.value)
                && r.value.context == context && r.value.spans == [] && r.value.status == "running"
                && log == old(log) + [r.value] && context.runId in byId && byId[context.runId] == r.value
    {
      if context.runId in byId {
        return Err(DuplicateRun);
      }
      var index := byId;
      if |runs| == maxRuns {
        index := byId - {runs[0].context.runId};
      }
      var record := new RunRecord(context);
      ghost var before := log;
      Admission(byId, runs, before, maxRuns, record);
      runs := Appended(runs, maxRuns, record);
      byId := index[context.runId := record];
      log := before + [record];
      forall r | r in log
        ensures SpansOk(r, maxSpans)
      {
        assert r == record || r in before;
      }
      r := Ok(record);
    }

    /** The record of a known run. */
    ghost function RecordOf(id: string): set<RunRecord>
      reads this
    {
      if id in byId then {byId[id]} else {}
    }

    /** Why a span cannot be started, checked in this order. */
    ghost function Refusal(id: string, operation: string, name: string): Option<TraceError>
      reads this, RecordOf(id)
    {
      if id !in byId then Some(UnknownRun)
      else if |byId[id].spans| >= maxSpans then Some(SpanLimit)
      else if Strip(operation) == "" || Strip(name) == "" then Some(BlankText)
      else None
    }

    method StartSpan(context: RunContext, operation: string, name: string, parent: Option<nat>,
                     modelOrTool: Option<string>)
      returns (r: Result<SpanRecord, TraceError>)
      requires Valid()
      modifies RecordOf(context.runId)
      ensures Valid()
      ensures old(Refusal(context.runId, operation, name)) == if r.Err? then Some(r.error) else None
      ensures r.Ok? ==> fresh(r.value) && r.value.runId == context.runId
      ensures r.Ok? ==> ViewSpan(r.value) == SpanView(old(|byId[context.runId].spans|), parent,
                                               Strip(operation), Strip(name),
                                                      modelOrTool, Usage(0, 0), "running", None)
      ensures forall record | record in RecordOf(context.runId) ::
                && record.spans == old(record.spans) + (if r.Ok? then [r.value] else [])
                && record.status == old(record.status) && record.error == old(record.error)
    {
      if context.runId !in byId {
        return Err(UnknownRun);
      }
      var record := byId[context.runId];
      if |record.spans| >= maxSpans {
        return Err(SpanLimit);
      }
      if Strip(operation) == "" || Strip(name) == "" {
        return Err(BlankText);
      }
      RetainedMembers(log, maxRuns, record);
      var span := new SpanRecord(context.runId, |record.spans|, parent, Strip(operation), Strip(name), modelOrTool);
      record.spans := record.spans + [span];
      r := Ok(span);
    }

    method FinishRun(context: RunContext, status: string, error: Option<string>)
      returns (r: Result<RunRecord, TraceError>)
      requires Valid()
      modifies RecordOf(context.runId)
      ensures Valid()
      ensures context.runId !in byId ==> r == Err(UnknownRun)
      ensures forall record | record in RecordOf(context.runId) ::
                r == Ok(record) && record.status == NormalStatus(status) && record.error == error
                && record.spans == old(record.spans)
    {
      if context.runId !in byId {
        return Err(UnknownRun);
      }
      var record := byId[context.runId];
      record.status := NormalStatus(status);
      record.error := error;
      r := Ok(record);
    }

    /** A run is known exactly while it is among the last ones started; after that its id may be used again. */
    lemma KnownIffRecent(id: string)
      requires Valid()
      ensures id in byId <==>
                exists i :: (if |log| <= maxRuns then 0 else |log| - maxRuns) <= i < |log| && log[i].context.runId == id
    {
      var skipped := if |log| <= maxRuns then 0 else |log| - maxRuns;
      assert forall i | 0 <= i < |runs| :: runs[i] == log[skipped + i];
      if id in byId {
        var k :| 0 <= k < |runs| && runs[k] == byId[id];
        assert log[skipped + k].context.runId == id;
      }
      if i :| skipped <= i < |log| && log[i].context.runId == id {
        assert runs[i - skipped] == log[i];
      }
    }

    /** The index finds a run exactly when the queue still holds it. */
    method GetRun(id: string) returns (view: Option<RunView>)
      requires Valid()
      ensures view.Some? ==>
                exists i :: 0 <= i < |runs| && runs[i].context.runId == id && view.value == ViewRun(runs[i])
      ensures view.None? ==> forall i | 0 <= i < |runs| :: runs[i].context.runId != id
    {
      if id !in byId {
        return None;
      }
      assert byId[id] in runs;
      view := Some(ViewRun(byId[id]));
    }

    method ListThreadRuns(thread: string) returns (views: Result<seq<RunView>, TraceError>)
      requires Valid()
      ensures Strip(thread) == "" ==> views == Err(BlankText)
      ensures Strip(thread) != "" ==> views == Ok(ViewsOf(OfThread(runs, Strip(thread))))
    {
      if Strip(thread) == "" {
        return Err(BlankText);
      }
      var found: seq<RunView> := [];
      for i := 0 to |runs|
        invariant found == ViewsOf(OfThread(runs[..i], Strip(thread)))
      {
        var record := runs[i];
        assert runs[..i + 1] == runs[..i] + [record];
        OfThreadSnoc(runs[..i], record, Strip(thread));
        if record.context.threadId == Strip(thread) {
          found := found + [ViewRun(record)];
        }
      }
      assert runs[..|runs|] == runs;
      views := Ok(found);
    }
  }

  /** Capacities below one are refused. */
  method Open(maxRuns: int, maxSpans: int) returns (r: Result<Collector, TraceError>)
    ensures r.Ok? <==> maxRuns >= 1 && maxSpans >= 1
    ensures r.Ok? ==> fresh(r.value) && r.value.Valid() && r.value.log == []
                      && r.value.maxRuns == maxRuns && r.value.maxSpans == maxSpans
    ensures r.Err? ==> r.error == BadCapacity
  {
    if maxRuns < 1 || maxSpans < 1 {
      return Err(BadCapacity);
    }
    var collector := new Collector(maxRuns, maxSpans);
    r := Ok(collector);
  }

  function OfThread(runs: seq<RunRecord>, thread: string): seq<RunRecord> {
    Filter(runs, (r: RunRecord) => r.context.threadId == thread)
  }

  lemma OfThreadSnoc(runs: seq<RunRecord>, r: RunRecord, thread: string)
    ensures OfThread(runs + [r], thread) == OfThread(runs, thread) + (if r.context.threadId == thread then [r] else [])
  {
    FilterConcat(runs, [r], (x: RunRecord) => x.context.threadId == thread);
    assert [r][1..] == [];
  }

  function ViewsOf(runs: seq<RunRecord>): (views: seq<RunView>)
    reads runs, SpansOf(runs)
    ensures |views| == |runs| && forall i | 0 <= i < |runs| :: views[i] == ViewRun(runs[i])
  {
    if runs == [] then []
    else
      SpansOfInit(runs);
      ViewsOf(runs[..|runs| - 1]) + [ViewRun(runs[|runs| - 1])]
  }

  ghost function SpansOf(runs: seq<RunRecord>): set<SpanRecord>
    reads runs
  {
    set r, s | r in runs && s in r.spans :: s
  }

  lemma SpansOfInit(runs: seq<RunRecord>)
    requires runs != []
    ensures SpansOf(runs[..|runs| - 1]) <= SpansOf(runs)
    ensures forall s | s in runs[|runs| - 1].spans :: s in SpansOf(runs)
  {
  }

  /** A finished span cannot be finished again. */
  method FinishSpan(span: SpanRecord, status: string, error: Option<string>, modelOrTool: Option<string>,
                    usage: Option<Usage>)
    returns (r: Option<TraceError>)
    modifies span
    ensures old(span.status) != "running" ==>
              r == Some(AlreadyFinished) && ViewSpan(span) == old(ViewSpan(span))
    ensures old(span.status) == "running" ==>
              r == None &&
              ViewSpan(span) == old(ViewSpan(span)).(
                status := NormalStatus(status), error := error,
                modelOrTool := if modelOrTool.Some? && modelOrTool.value != ""
                               then modelOrTool
                               else old(span.modelOrTool),
                usage := if usage.Some? then usage.value else old(span.usage))
  {
    if span.status != "running" {
      return Some(AlreadyFinished);
    }
    span.status := NormalStatus(status);
    span.error := error;
    if modelOrTool.Some? && modelOrTool.value != "" {
      span.modelOrTool := modelOrTool;
    }
    if usage.Some? {
      span.usage := usage.value;
    }
    r := None;
  }
}
