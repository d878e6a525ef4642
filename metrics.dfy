/** The metric side of the library: the label an exporter receives
    (`fast_abtest/monitoring/interface.py`), an exporter that keeps what it is
    given as a log, and the two built-in counters
    (`fast_abtest/monitoring/calls_counter.py`,
    `fast_abtest/monitoring/errors_counter.py`). */
module Metrics {

  /** What a hook knows of the call it observes: the decorated handler's name
      and the name of the variant that runs it. */
  datatype Context = Context(scenario: string, variant: string)

  /** `MetricLabel`. */
  datatype Label = Label(metric: string, func: string, variant: string, isError: bool,
                         tags: map<string, string>)

  /** One `record(label, value)` an exporter received. */
  datatype Sample = Sample(metricLabel: Label, value: int)

  /** An exporter, as the log of the samples recorded on it. */
  class Exporter {
    var log: seq<Sample>

    constructor ()
      ensures log == []
    {
      log := [];
    }

    method Record(metricLabel: Label, value: int)
      modifies this
      ensures log == old(log) + [Sample(metricLabel, value)]
    {
      log := log + [Sample(metricLabel, value)];
    }
  }

  /** The sample the calls counter records for a call. */
  function CallsSample(context: Context): (s: Sample)
    ensures s.metricLabel.metric == "calls_total" && !s.metricLabel.isError && s.value == 1
    ensures s.metricLabel.func == context.scenario && s.metricLabel.variant == context.variant
  {
    Sample(Label("calls_total", context.scenario, context.variant, false, map[]), 1)
  }

  /** The sample the errors counter records for a failed call. */
  function ErrorsSample(context: Context): (s: Sample)
    ensures s.metricLabel.metric == "errors_total" && s.metricLabel.isError && s.value == 1
    ensures s.metricLabel.func == context.scenario && s.metricLabel.variant == context.variant
  {
    Sample(Label("errors_total", context.scenario, context.variant, true, map[]), 1)
  }

  /** `CallsMetric`: counts every call when it starts. */
  class CallsMetric {
    const exporter: Exporter

    constructor (exporter: Exporter)
      ensures this.exporter == exporter
    {
      this.exporter := exporter;
    }

    method OnStart(context: Context)
      modifies exporter
      ensures exporter.log == old(exporter.log) + [CallsSample(context)]
    {
      exporter.Record(Label("calls_total", context.scenario, context.variant, false, map[]), 1);
    }

    method OnEnd(context: Context, isError: bool)
      ensures unchanged(exporter)
    {
    }
  }

  /** `ErrorsMetric`: counts a call when it ends with an error. */
  class ErrorsMetric {
    const exporter: Exporter

    constructor (exporter: Exporter)
      ensures this.exporter == exporter
    {
      this.exporter := exporter;
    }

    method OnStart(context: Context)
      ensures unchanged(exporter)
    {
    }

    method OnEnd(context: Context, isError: bool)
      modifies exporter
      ensures exporter.log == old(exporter.log) + if isError then [ErrorsSample(context)] else []
    {
      if isError {
        exporter.Record(Label("errors_total", context.scenario, context.variant, true, map[]), 1);
      }
    }
  }

  /** A metric hook: one of the two built-in counters, or a user-supplied
      metric known only by name, whose effects are not modelled. */
  datatype Hook = Calls(calls: CallsMetric) | Errors(errors: ErrorsMetric) | Custom(name: string)

  /** A built-in hook records on `sink`. */
  predicate RecordsOn(hook: Hook, sink: Exporter)
  {
    match hook
    case Calls(c) => c.exporter == sink
    case Errors(e) => e.exporter == sink
    case Custom(_) => true
  }

  /** The samples one hook records when a call starts. */
  function StartSample(hook: Hook, context: Context): seq<Sample>
  {
    if hook.Calls? then [CallsSample(context)] else []
  }

  /** The samples one hook records when a call ends. */
  function EndSample(hook: Hook, context: Context, isError: bool): seq<Sample>
  {
    if hook.Errors? && isError then [ErrorsSample(context)] else []
  }

  /** The samples the hooks record, in hook order, when a call starts. */
  function StartSamples(hooks: seq<Hook>, context: Context): seq<Sample>
  {
    if hooks == [] then []
    else StartSamples(hooks[..|hooks| - 1], context) + StartSample(hooks[|hooks| - 1], context)
  }

  /** The samples the hooks record, in hook order, when a call ends. */
  function EndSamples(hooks: seq<Hook>, context: Context, isError: bool): seq<Sample>
  {
    if hooks == [] then []
    else EndSamples(hooks[..|hooks| - 1], context, isError) + EndSample(hooks[|hooks| - 1], context, isError)
  }

  function CountCalls(hooks: seq<Hook>): nat
  {
    if hooks == [] then 0 else CountCalls(hooks[..|hooks| - 1]) + (if hooks[|hooks| - 1].Calls? then 1 else 0)
  }

  function CountErrors(hooks: seq<Hook>): nat
  {
    if hooks == [] then 0 else CountErrors(hooks[..|hooks| - 1]) + (if hooks[|hooks| - 1].Errors? then 1 else 0)
  }

  /** The start of a call records one `calls_total` sample, for the call's
      own scenario and variant, per calls counter among the hooks. */
  lemma {:induction false} StartSamplesCountCalls(hooks: seq<Hook>, context: Context)
    ensures |StartSamples(hooks, context)| == CountCalls(hooks)
    ensures forall i :: 0 <= i < |StartSamples(hooks, context)| ==>
              StartSamples(hooks, context)[i] == CallsSample(context)
  {
    if hooks != [] {
      StartSamplesCountCalls(hooks[..|hooks| - 1], context);
    }
  }

  /** The end of a call records one `errors_total` sample per errors counter
      when the call failed, and nothing at all when it succeeded. */
  lemma {:induction false} EndSamplesCountErrors(hooks: seq<Hook>, context: Context, isError: bool)
    ensures |EndSamples(hooks, context, isError)| == if isError then CountErrors(hooks) else 0
    ensures forall i :: 0 <= i < |EndSamples(hooks, context, isError)| ==>
              EndSamples(hooks, context, isError)[i] == ErrorsSample(context)
  {
    if hooks != [] {
      EndSamplesCountErrors(hooks[..|hooks| - 1], context, isError);
    }
  }
}
