/** `fast_abtest/monitoring/recorder.py`: the context manager that runs every
    metric's start hook on entry and every end hook on exit, in list order,
    with one stored context. The hook calls it makes are kept in a ghost
    trace. */
module Recorder {
  import opened Errors
  import opened Metrics

  /** One hook call the recorder made. */
  datatype HookCall =
    | Started(hook: Hook, context: Context)
    | Ended(hook: Hook, context: Context, isError: bool)

  /** The start-hook calls for `hooks`, in order. */
  function Starts(hooks: seq<Hook>, context: Context): (calls: seq<HookCall>)
    ensures |calls| == |hooks|
    ensures forall i :: 0 <= i < |hooks| ==> calls[i] == Started(hooks[i], context)
  {
    seq(|hooks|, i requires 0 <= i < |hooks| => Started(hooks[i], context))
  }

  /** The end-hook calls for `hooks`, in order. */
  function Ends(hooks: seq<Hook>, context: Context, isError: bool): (calls: seq<HookCall>)
    ensures |calls| == |hooks|
    ensures forall i :: 0 <= i < |hooks| ==> calls[i] == Ended(hooks[i], context, isError)
  {
    seq(|hooks|, i requires 0 <= i < |hooks| => Ended(hooks[i], context, isError))
  }

  /** In the trace of a whole `with` block every start-hook call comes before
      every end-hook call, each hook is started once and ended once, every
      call sees the same context, and every end sees the same error flag. */
  lemma FullTrace(hooks: seq<Hook>, context: Context, isError: bool)
    ensures var t := Starts(hooks, context) + Ends(hooks, context, isError);
            && |t| == 2 * |hooks|
            && (forall i, j :: 0 <= i < j < |t| && t[i].Ended? ==> t[j].Ended?)
            && (forall i :: 0 <= i < |hooks| ==>
                  t[i] == Started(hooks[i], context) && t[|hooks| + i] == Ended(hooks[i], context, isError))
  {
  }

  /** `MetricRecorder`. */
  class MetricRecorder {
    const metrics: seq<Hook>
    const context: Context
    ghost var trace: seq<HookCall>

    constructor (metrics: seq<Hook>, context: Context)
      ensures this.metrics == metrics && this.context == context && trace == []
    {
      this.metrics := metrics;
      this.context := context;
      trace := [];
    }

    /** `__enter__`: calls each metric's start hook once, in order, with the
        stored context; whatever a hook returns is dropped. Returns the
        recorder itself. */
    method Enter(ghost sink: Exporter) returns (self: MetricRecorder)
      requires forall h :: h in metrics ==> RecordsOn(h, sink)
      modifies this, sink
      ensures self == this
      ensures trace == old(trace) + Starts(metrics, context)
      ensures sink.log == old(sink.log) + StartSamples(metrics, context)
    {
      for i := 0 to |metrics|
        invariant trace == old(trace) + Starts(metrics[..i], context)
        invariant sink.log == old(sink.log) + StartSamples(metrics[..i], context)
      {
        assert metrics[..i + 1][..i] == metrics[..i];
        assert RecordsOn(metrics[i], sink);
        match metrics[i] {
          case Calls(c) => c.OnStart(context);
          case Errors(e) => e.OnStart(context);
          case Custom(_) =>
        }
        trace := trace + [Started(metrics[i], context)];
      }
      assert metrics[..|metrics|] == metrics;
      return this;
    }

    /** `__exit__`: calls each metric's end hook once, in order, with the
        stored context and `is_error` true exactly when an exception type was
        passed in. It returns nothing, so the exception is never suppressed. */
    method Exit(excType: Option<string>, ghost sink: Exporter) returns (suppress: bool)
      requires forall h :: h in metrics ==> RecordsOn(h, sink)
      modifies this, sink
      ensures !suppress
      ensures trace == old(trace) + Ends(metrics, context, excType.Some?)
      ensures sink.log == old(sink.log) + EndSamples(metrics, context, excType.Some?)
    {
      var isError := excType.Some?;
      for i := 0 to |metrics|
        invariant trace == old(trace) + Ends(metrics[..i], context, isError)
        invariant sink.log == old(sink.log) + EndSamples(metrics[..i], context, isError)
      {
        assert metrics[..i + 1][..i] == metrics[..i];
        assert RecordsOn(metrics[i], sink);
        match metrics[i] {
          case Calls(c) => c.OnEnd(context, isError);
          case Errors(e) => e.OnEnd(context, isError);
          case Custom(_) =>
        }
        trace := trace + [Ended(metrics[i], context, isError)];
      }
      assert metrics[..|metrics|] == metrics;
      return false;
    }
  }

  /** A call wrapped with a calls counter and an errors counter on one
      exporter logs `calls_total` and, only when the call failed,
      `errors_total`, in that order. */
  method CountersExample(failed: bool) returns (log: seq<Sample>)
    ensures log == [CallsSample(Context("process_data", "V0"))]
                   + if failed then [ErrorsSample(Context("process_data", "V0"))] else []
  {
    var exporter := new Exporter();
    var calls := new CallsMetric(exporter);
    var errors := new ErrorsMetric(exporter);
    var hooks := [Calls(calls), Errors(errors)];
    var context := Context("process_data", "V0");
    assert hooks[..1] == [Calls(calls)] && hooks[..1][..0] == [];
    assert StartSamples(hooks[..1], context) == [CallsSample(context)];
    assert StartSamples(hooks, context) == [CallsSample(context)];
    assert EndSamples(hooks[..1], context, failed) == [];
    assert EndSamples(hooks, context, failed) == if failed then [ErrorsSample(context)] else [];
    var recorder := new MetricRecorder(hooks, context);
    var self := recorder.Enter(exporter);
    var suppress := recorder.Exit(if failed then Some("ValueError") else None, exporter);
    log := exporter.log;
  }
}
