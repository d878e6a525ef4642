/** `fast_abtest/config.py`: the exporter port, the default label names and
    the histogram buckets, each written once and never again. */
module Config {
  import opened Errors

  const DefaultPort: int := 8009
  const DefaultLabels: seq<string> := ["variant", "func", "metric"]
  const DefaultBuckets: seq<real> := [0.1, 0.5, 1.0, 2.0, 5.0]

  const PortMessage: string := "Port must be between 1024 and 65535"
  const ImmutableMessage: string := "Configuration is immutable"

  /** `_validate_port`: a port in [1024, 65535] is returned as it is; any
      other value raises. */
  function ValidatePort(value: int): (res: Result<int>)
    ensures res.Ok? <==> 1024 <= value <= 65535
    ensures res.Ok? ==> res.value == value
    ensures res.Raised? ==> res.error == ValueError(PortMessage)
  {
    if 1024 <= value <= 65535 then Ok(value) else Raised(ValueError(PortMessage))
  }

  /** Python's `given or default` for an optional list: `None` and the empty
      list give the default, any other list is kept. */
  function OrDefault<T>(given: Option<seq<T>>, default: seq<T>): (r: seq<T>)
    ensures given.Some? && given.value != [] ==> r == given.value
    ensures given.None? || given.value == [] ==> r == default
  {
    if given.Some? && given.value != [] then given.value else default
  }

  /** The attributes `__slots__` declares. */
  datatype Attribute = PrometheusPort | DefaultLabelNames | HistogramBuckets | Extra

  /** A value an attribute can hold. */
  datatype Value = PortValue(port: int) | LabelsValue(labels: seq<string>) | BucketsValue(buckets: seq<real>)

  /** `ABTestConfig`: `attrs` holds the attributes assigned so far. */
  class ABTestConfig {
    var attrs: map<Attribute, Value>

    /** A new instance, before `__init__` has assigned anything. */
    constructor ()
      ensures attrs == map[]
    {
      attrs := map[];
    }

    /** `__setattr__`: assigning an attribute that is already set raises, so
        an attribute is written at most once and keeps its first value. */
    method SetAttr(name: Attribute, value: Value) returns (o: Outcome)
      modifies this
      ensures o.Fail? <==> name in old(attrs)
      ensures o.Fail? ==> o.error == AttributeError(ImmutableMessage) && attrs == old(attrs)
      ensures o.Pass? ==> attrs == old(attrs)[name := value]
      ensures forall a :: a in old(attrs) ==> a in attrs && attrs[a] == old(attrs)[a]
    {
      if name in attrs {
        return Fail(AttributeError(ImmutableMessage));
      }
      attrs := attrs[name := value];
      return Pass;
    }

    /** `__init__`: validates the port before assigning anything, then
        assigns the port, the label names (the defaults for `None` or an
        empty list) and the buckets (likewise). */
    method Init(prometheusPort: int := DefaultPort, defaultLabels: Option<seq<string>> := None,
                histogramBuckets: Option<seq<real>> := None) returns (o: Outcome)
      requires attrs == map[]
      modifies this
      ensures o.Pass? <==> 1024 <= prometheusPort <= 65535
      ensures o.Fail? ==> o.error == ValueError(PortMessage) && attrs == map[]
      ensures o.Pass? ==> attrs == map[PrometheusPort := PortValue(prometheusPort),
                                       DefaultLabelNames := LabelsValue(OrDefault(defaultLabels, DefaultLabels)),
                                       HistogramBuckets := BucketsValue(OrDefault(histogramBuckets, DefaultBuckets))]
    {
      var port := ValidatePort(prometheusPort);
      if port.Raised? {
        return Fail(port.error);
      }
      o := SetAttr(PrometheusPort, PortValue(port.value));
      o := SetAttr(DefaultLabelNames, LabelsValue(OrDefault(defaultLabels, DefaultLabels)));
      o := SetAttr(HistogramBuckets, BucketsValue(OrDefault(histogramBuckets, DefaultBuckets)));
    }
  }

  /** tests/test_prometheus_exporter.py: ports 99999 and -1 are refused,
      9091 and the default 8009 are accepted, and an accepted configuration
      refuses a second port. */
  method PortExamples() returns (tooHigh: Outcome, negative: Outcome, given: Outcome, default: Outcome,
                                 rewrite: Outcome)
    ensures tooHigh == Fail(ValueError(PortMessage)) && negative == Fail(ValueError(PortMessage))
    ensures given == Pass && default == Pass
    ensures rewrite == Fail(AttributeError(ImmutableMessage))
  {
    var c1 := new ABTestConfig();
    tooHigh := c1.Init(prometheusPort := 99999);
    var c2 := new ABTestConfig();
    negative := c2.Init(prometheusPort := -1);
    var c3 := new ABTestConfig();
    given := c3.Init(prometheusPort := 9091);
    var c4 := new ABTestConfig();
    default := c4.Init();
    rewrite := c4.SetAttr(PrometheusPort, PortValue(9000));
  }
}
