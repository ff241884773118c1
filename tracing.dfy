/** tracing/tracing.go: a trace context that keeps every span it started,
    in order. The context passed to the tracer is always the one carrying
    the span started last, so each new span is a child of the previous one. */
module Tracing {
  import opened Wrappers

  /** An OpenTelemetry span as the trace context sees it. `parent` is the
      index of the span it was started under; None means the span of the
      context the trace context was created with. */
  datatype Span = Span(name: string, recording: bool, attributes: map<string, string>, parent: Option<nat>)

  /** The newest span that is still recording, by index. */
  function LatestRecording(spans: seq<Span>): (r: Option<nat>)
    ensures r.Some? ==> r.value < |spans| && spans[r.value].recording
    ensures r.Some? ==> forall j :: r.value < j < |spans| ==> !spans[j].recording
    ensures r.None? ==> forall j :: 0 <= j < |spans| ==> !spans[j].recording
  {
    if spans == [] then None
    else if spans[|spans| - 1].recording then Some(|spans| - 1)
    else LatestRecording(spans[..|spans| - 1])
  }

  /** The span list after `StartSpan(name)` under the span at `context`. */
  function Started(spans: seq<Span>, context: Option<nat>, name: string): seq<Span> {
    spans + [Span(name, true, map[], context)]
  }

  /** The span list after `EndCurrentSpan`. */
  function EndLatest(spans: seq<Span>): seq<Span> {
    match LatestRecording(spans)
    case None => spans
    case Some(i) => spans[i := spans[i].(recording := false)]
  }

  /** The span list after `SetAttribute(key, value)`. */
  function WithAttribute(spans: seq<Span>, key: string, value: string): seq<Span> {
    match LatestRecording(spans)
    case None => spans
    case Some(i) => spans[i := spans[i].(attributes := spans[i].attributes[key := value])]
  }

  /** `GetSpanN(n)`: the span at n when n is an index of the list, nothing otherwise. */
  function SpanAt(spans: seq<Span>, n: int): (r: Option<Span>)
    ensures r.Some? <==> 0 <= n < |spans|
    ensures r.Some? ==> r.value == spans[n]
  {
    if |spans| - 1 >= n && n >= 0 then Some(spans[n]) else None
  }

  /** Starting a span appends exactly one recording span with no attributes,
      keeps every earlier span, and makes the new span current. */
  lemma StartAppends(spans: seq<Span>, context: Option<nat>, name: string)
    ensures |Started(spans, context, name)| == |spans| + 1
    ensures Started(spans, context, name)[..|spans|] == spans
    ensures Started(spans, context, name)[|spans|] == Span(name, true, map[], context)
    ensures LatestRecording(Started(spans, context, name)) == Some(|spans|)
  {
  }

  /** Ending changes the recording flag of the current span and nothing
      else; if no span is recording it changes nothing. */
  lemma EndEndsOnlyCurrent(spans: seq<Span>, j: nat)
    requires j < |spans|
    ensures |EndLatest(spans)| == |spans|
    ensures LatestRecording(spans) == Some(j) ==> EndLatest(spans)[j] == spans[j].(recording := false)
    ensures LatestRecording(spans) != Some(j) ==> EndLatest(spans)[j] == spans[j]
    ensures LatestRecording(spans).None? ==> EndLatest(spans) == spans
  {
  }

  /** Starting and then ending a span leaves the same current span as
      before, and the list one longer, its last span ended. */
  lemma {:induction false} StartThenEnd(spans: seq<Span>, context: Option<nat>, name: string)
    ensures EndLatest(Started(spans, context, name)) == spans + [Span(name, false, map[], context)]
    ensures LatestRecording(EndLatest(Started(spans, context, name))) == LatestRecording(spans)
  {
    var after := spans + [Span(name, false, map[], context)];
    assert after[..|spans|] == spans;
  }

  /** Setting an attribute touches only the attributes of the current span. */
  lemma AttributeOnlyOnCurrent(spans: seq<Span>, key: string, value: string, j: nat)
    requires j < |spans|
    ensures |WithAttribute(spans, key, value)| == |spans|
    ensures LatestRecording(spans) == Some(j) ==>
      WithAttribute(spans, key, value)[j] == spans[j].(attributes := spans[j].attributes[key := value])
    ensures LatestRecording(spans) != Some(j) ==> WithAttribute(spans, key, value)[j] == spans[j]
    ensures LatestRecording(WithAttribute(spans, key, value)) == LatestRecording(spans)
  {
    var r := WithAttribute(spans, key, value);
    forall i | 0 <= i < |spans| ensures r[i].recording == spans[i].recording {}
    LatestRecordingByFlags(spans, r);
  }

  /** Which span is current depends only on the recording flags. */
  lemma {:induction false} LatestRecordingByFlags(xs: seq<Span>, ys: seq<Span>)
    requires |xs| == |ys| && forall i :: 0 <= i < |xs| ==> xs[i].recording == ys[i].recording
    ensures LatestRecording(xs) == LatestRecording(ys)
    decreases |xs|
  {
    if xs != [] {
      LatestRecordingByFlags(xs[..|xs| - 1], ys[..|ys| - 1]);
    }
  }

  /** Each span is the child of the one started before it, whether or not
      that one has ended. */
  ghost predicate Chained(spans: seq<Span>) {
    forall i :: 0 <= i < |spans| ==> spans[i].parent == (if i == 0 then None else Some(i - 1))
  }

  class TraceContext {
    const detailed: bool
    var spans: seq<Span>
    /** The span carried by the context handed to the tracer; None is the
        context the trace context was created with. */
    var context: Option<nat>

    ghost predicate Valid()
      reads this
    {
      context == (if spans == [] then None else Some(|spans| - 1)) && Chained(spans)
    }

    /** `NewTraceContext`: no spans yet. */
    constructor (detailed: bool)
      ensures Valid() && this.detailed == detailed && spans == [] && context == None
    {
      this.detailed := detailed;
      spans := [];
      context := None;
    }

    method StartSpan(name: string)
      requires Valid()
      modifies this
      ensures Valid()
      ensures spans == Started(old(spans), old(context), name)
      ensures context == Some(|old(spans)|)
    {
      var span := Span(name, true, map[], context);
      context := Some(|spans|);
      spans := spans + [span];
    }

    /** A no-op unless detailed tracing is on. */
    method StartDetailedSpan(name: string)
      requires Valid()
      modifies this
      ensures Valid()
      ensures detailed ==> spans == Started(old(spans), old(context), name) && context == Some(|old(spans)|)
      ensures !detailed ==> spans == old(spans) && context == old(context)
    {
      if detailed {
        StartSpan(name);
      }
    }

    /** The backward search of `CurrentSpan`, giving the index of the span found. */
    method CurrentIndex() returns (r: Option<nat>)
      ensures r == LatestRecording(spans)
    {
      var i := |spans| - 1;
      while i >= 0
        invariant -1 <= i < |spans|
        invariant forall j :: i < j < |spans| ==> !spans[j].recording
      {
        if spans[i].recording {
          return Some(i);
        }
        i := i - 1;
      }
      return None;
    }

    /** The newest span still recording, or nil. */
    method CurrentSpan() returns (span: Option<Span>)
      ensures LatestRecording(spans).None? ==> span.None?
      ensures LatestRecording(spans).Some? ==> span == Some(spans[LatestRecording(spans).value])
    {
      var i := CurrentIndex();
      if i.Some? {
        span := Some(spans[i.value]);
      } else {
        span := None;
      }
    }

    method EndCurrentSpan()
      requires Valid()
      modifies this`spans
      ensures Valid()
      ensures spans == EndLatest(old(spans))
    {
      var i := CurrentIndex();
      if i.Some? {
        spans := spans[i.value := spans[i.value].(recording := false)];
      }
    }

    /** A no-op unless detailed tracing is on. */
    method EndCurrentDetailedSpan()
      requires Valid()
      modifies this`spans
      ensures Valid()
      ensures spans == if detailed then EndLatest(old(spans)) else old(spans)
    {
      if detailed {
        var i := CurrentIndex();
        if i.Some? {
          spans := spans[i.value := spans[i.value].(recording := false)];
        }
      }
    }

    method SetAttribute(key: string, value: string)
      requires Valid()
      modifies this`spans
      ensures Valid()
      ensures spans == WithAttribute(old(spans), key, value)
    {
      var i := CurrentIndex();
      if i.Some? {
        spans := spans[i.value := spans[i.value].(attributes := spans[i.value].attributes[key := value])];
      }
    }

    function RootSpan(): (r: Option<Span>)
      reads this
      ensures r.Some? <==> spans != []
      ensures r.Some? ==> r.value == spans[0]
    {
      if |spans| > 0 then Some(spans[0]) else None
    }

    function GetSpanN(n: int): (r: Option<Span>)
      reads this
      ensures r == SpanAt(spans, n)
    {
      SpanAt(spans, n)
    }

    /** The last span, recording or not. */
    function LastSpan(): (r: Option<Span>)
      reads this
      ensures r.Some? <==> spans != []
      ensures r.Some? ==> r.value == spans[|spans| - 1]
    {
      GetSpanN(|spans| - 1)
    }

    /** `Context`: the context now carrying the newest span. */
    function Context(): Option<nat>
      reads this
    {
      context
    }
  }

  /** On a new trace context, a started and ended span leaves no current span
      but a last span, ended. */
  method StartEndScenario(name: string) returns (tc: TraceContext)
    ensures tc.Valid() && |tc.spans| == 1
    ensures LatestRecording(tc.spans).None?
    ensures tc.LastSpan() == Some(Span(name, false, map[], None))
    ensures tc.RootSpan() == tc.LastSpan()
  {
    tc := new TraceContext(false);
    tc.StartSpan(name);
    tc.EndCurrentSpan();
    StartThenEnd([], None, name);
  }

  /** With detailed tracing off, the detailed calls leave the list empty. */
  method DetailedOffScenario(name: string) returns (tc: TraceContext)
    ensures tc.Valid() && tc.spans == []
  {
    tc := new TraceContext(false);
    tc.StartDetailedSpan(name);
    tc.EndCurrentDetailedSpan();
  }
}
