/** The six metric descriptors the exporter publishes, and the samples it emits
    against them (gude_pdu_collector.go, `init` and `Describe`). */
module Registry {

  /** Every metric name starts with this namespace. */
  const Prefix := "gude_pdu_"

  /** The five telemetry metrics, one per column of the power-channel table. */
  datatype Kind = Total | ActivePower | ActualCurrent | ActualVoltage | Frequency

  /** The status metric and the five telemetry metrics. */
  datatype MetricName = Up | Telemetry(kind: Kind)

  /** An immutable metric descriptor: fully qualified name, help text and the
      ordered names of its variable labels. */
  datatype Descriptor = Descriptor(fqName: string, help: string, labels: seq<string>)

  /** The six package-level descriptor variables, set once at start-up. */
  datatype Descriptors = Descriptors(
    up: Descriptor,
    total: Descriptor,
    activePower: Descriptor,
    actualCurrent: Descriptor,
    actualVoltage: Descriptor,
    frequency: Descriptor)

  /** One emitted metric: which descriptor, the label values (in the order of
      the descriptor's label names) and the value. */
  datatype Sample = Sample(metric: MetricName, labels: seq<string>, value: int)

  /** The descriptor variable a metric is emitted against. */
  function DescriptorOf(d: Descriptors, m: MetricName): Descriptor
  {
    match m
    case Up => d.up
    case Telemetry(Total) => d.total
    case Telemetry(ActivePower) => d.activePower
    case Telemetry(ActualCurrent) => d.actualCurrent
    case Telemetry(ActualVoltage) => d.actualVoltage
    case Telemetry(Frequency) => d.frequency
  }

  /** The name of each metric after the namespace. */
  function MetricSuffix(m: MetricName): string
  {
    match m
    case Up => "up"
    case Telemetry(Total) => "total"
    case Telemetry(ActivePower) => "active_power"
    case Telemetry(ActualCurrent) => "actual_current"
    case Telemetry(ActualVoltage) => "actual_voltage"
    case Telemetry(Frequency) => "frequency"
  }

  /** The label schema: the status metric is per target, telemetry is per
      target and feed. */
  function LabelSchema(m: MetricName): seq<string>
  {
    if m == Up then ["target"] else ["target", "feed"]
  }

  /** The descriptors as the start-up routine leaves them: the value that
      `Init`, which builds them step by step, is proved to produce, and that
      the rest of the model refers to. */
  function Standard(): (d: Descriptors)
    ensures forall m :: DescriptorOf(d, m).fqName == Prefix + MetricSuffix(m)
    ensures forall m :: DescriptorOf(d, m).labels == LabelSchema(m)
  {
    var l1 := ["target"];
    var l2 := l1 + ["feed"];
    Descriptors(
      Descriptor(Prefix + "up", "Scrape of target was successful", l1),
      Descriptor(Prefix + "total", "Total accumulated Active Energy of Power Channel", l2),
      Descriptor(Prefix + "active_power", "Active Power", l2),
      Descriptor(Prefix + "actual_current", "Actual Current on Power Channel", l2),
      Descriptor(Prefix + "actual_voltage", "Actual Voltage on Power Channel", l2),
      Descriptor(Prefix + "frequency", "Frequency of Power Channel", l2))
  }

  /** The start-up routine: one label list, extended by "feed" after the
      status descriptor has been built from it. */
  method Init() returns (d: Descriptors)
    ensures d == Standard()
  {
    var l := ["target"];
    var up := Descriptor(Prefix + "up", "Scrape of target was successful", l);
    l := l + ["feed"];
    var total := Descriptor(Prefix + "total", "Total accumulated Active Energy of Power Channel", l);
    var activePower := Descriptor(Prefix + "active_power", "Active Power", l);
    var actualCurrent := Descriptor(Prefix + "actual_current", "Actual Current on Power Channel", l);
    var actualVoltage := Descriptor(Prefix + "actual_voltage", "Actual Voltage on Power Channel", l);
    var frequency := Descriptor(Prefix + "frequency", "Frequency of Power Channel", l);
    d := Descriptors(up, total, activePower, actualCurrent, actualVoltage, frequency);
  }

  /** The order in which the collector describes its metrics. */
  const DescribeOrder: seq<MetricName> :=
    [Up, Telemetry(Total), Telemetry(ActivePower), Telemetry(ActualCurrent),
     Telemetry(ActualVoltage), Telemetry(Frequency)]

  /** Every metric is described, and exactly once. */
  lemma DescribeOrderIsEnumeration(m: MetricName)
    ensures m in DescribeOrder
    ensures forall i, j :: 0 <= i < j < |DescribeOrder| ==> DescribeOrder[i] != DescribeOrder[j]
  {
    match m
    case Up => assert DescribeOrder[0] == m;
    case Telemetry(Total) => assert DescribeOrder[1] == m;
    case Telemetry(ActivePower) => assert DescribeOrder[2] == m;
    case Telemetry(ActualCurrent) => assert DescribeOrder[3] == m;
    case Telemetry(ActualVoltage) => assert DescribeOrder[4] == m;
    case Telemetry(Frequency) => assert DescribeOrder[5] == m;
  }

  /** The descriptors sent by `Describe`, in order. */
  function Describe(d: Descriptors): (ds: seq<Descriptor>)
    ensures |ds| == |DescribeOrder|
    ensures forall i :: 0 <= i < |ds| ==> ds[i] == DescriptorOf(d, DescribeOrder[i])
    ensures forall m :: DescriptorOf(d, m) in ds
  {
    [d.up, d.total, d.activePower, d.actualCurrent, d.actualVoltage, d.frequency]
  }

  /** Describing the start-up descriptors gives the status descriptor first,
      the only one labelled by target alone, then the five telemetry
      descriptors in table order, each labelled by target and feed. */
  lemma DescribeStandard()
    ensures var ds := Describe(Standard());
      && |ds| == 6
      && (forall i :: 0 <= i < 6 ==> ds[i].fqName == Prefix + MetricSuffix(DescribeOrder[i]))
      && ds[0].labels == ["target"]
      && (forall i :: 1 <= i < 6 ==> ds[i].labels == ["target", "feed"])
  {
  }

  /** No two metrics share a name. */
  lemma {:induction false} StandardNamesDistinct(m1: MetricName, m2: MetricName)
    requires m1 != m2
    ensures DescriptorOf(Standard(), m1).fqName != DescriptorOf(Standard(), m2).fqName
  {
    var a, b := MetricSuffix(m1), MetricSuffix(m2);
    if Prefix + a == Prefix + b {
      assert (Prefix + a)[|Prefix|..] == a;
      assert (Prefix + b)[|Prefix|..] == b;
      assert a == b;
    }
  }

  /** A sample fits its descriptor when it carries one value per label name. */
  predicate Conforms(d: Descriptors, s: Sample)
  {
    |s.labels| == |DescriptorOf(d, s.metric).labels|
  }

  /** A sample for a target: one label value per name in its metric's schema,
      the first being the target. */
  predicate Labelled(target: string, s: Sample)
  {
    |s.labels| == |LabelSchema(s.metric)| && s.labels[0] == target
  }

  /** A sample labelled by its metric's schema fits the descriptor the
      start-up routine built for that metric. */
  lemma LabelledConforms(target: string, s: Sample)
    requires Labelled(target, s)
    ensures Conforms(Standard(), s)
  {
  }

  /** The status sample for a target. */
  function UpSample(target: string, up: int): (s: Sample)
    ensures Labelled(target, s) && s.metric == Up && s.value == up
  {
    Sample(Up, [target], up)
  }
}
