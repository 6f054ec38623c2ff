/** The value mapper `collectMetrics` (gude_pdu_collector.go:47-67): one walked
    variable binding becomes at most one telemetry sample. */
module Mapper {
  import opened Snmp
  import opened Registry

  /** Length of ".1.3.6.1.4.1.28507.NN.", dropped before the column is read. */
  const OidPrefixLength := 22

  /** The two monitored power lines of a channel. */
  datatype Feed = A | B

  function FeedLabel(f: Feed): string
  {
    match f
    case A => "A"
    case B => "B"
  }

  /** Where the Go code would panic instead of returning. */
  datatype PanicSite = PrefixSlice | ChannelSlice | TypeAssertion

  /** What one call of the mapper does: send one sample, send nothing, or panic. */
  datatype Outcome = Emitted(sample: Sample) | Ignored | Panicked(site: PanicSite)

  function HasSuffix(s: string, suffix: string): bool
  {
    |s| >= |suffix| && s[|s| - |suffix|..] == suffix
  }

  /** Feed B when the name ends in ".2", feed A for every other ending. */
  function FeedOf(name: string): (f: Feed)
    ensures f == B <==> |name| >= 2 && name[|name| - 2] == '.' && name[|name| - 1] == '2'
  {
    if HasSuffix(name, ".2") then B else A
  }

  /** The table column of each telemetry metric. */
  function Column(k: Kind): char
  {
    match k
    case Total => '3'
    case ActivePower => '4'
    case ActualCurrent => '5'
    case ActualVoltage => '6'
    case Frequency => '7'
  }

  /** The OID, below the family root and without the channel, of a column. */
  function ColumnPath(k: Kind): string
  {
    "1.5.1.2.1." + [Column(k)]
  }

  /** The switch of the mapper: exactly the five column paths are recognised. */
  function KindOf(key: string): (r: Option<Kind>)
    ensures r.Some? ==> ColumnPath(r.value) == key
    ensures r.None? ==> forall k :: ColumnPath(k) != key
  {
    if key == "1.5.1.2.1.3" then Some(Total)
    else if key == "1.5.1.2.1.4" then Some(ActivePower)
    else if key == "1.5.1.2.1.5" then Some(ActualCurrent)
    else if key == "1.5.1.2.1.6" then Some(ActualVoltage)
    else if key == "1.5.1.2.1.7" then Some(Frequency)
    else None
  }

  /** Each column path is recognised as its own metric. */
  lemma KindOfColumnPath(k: Kind)
    ensures KindOf(ColumnPath(k)) == Some(k)
  {
    var r := KindOf(ColumnPath(k));
    assert ColumnPath(r.value)[10] == Column(r.value);
  }

  /** Active power is a signed reading; the other four are unsigned. */
  predicate IsSigned(k: Kind)
  {
    k == ActivePower
  }

  /** The Go type assertion on the value: the integer when the dynamic type is
      the one the column expects, None (a panic in Go) otherwise. */
  function Assert(k: Kind, v: Value): (r: Option<int>)
    ensures r.Some? <==> (if IsSigned(k) then v.IntValue? else v.UIntValue?)
    ensures r.Some? && v.IntValue? ==> r.value == v.i
    ensures r.Some? && v.UIntValue? ==> r.value == v.u
  {
    match v
    case IntValue(i) => if k == ActivePower then Some(i) else None
    case UIntValue(u) => if k == ActivePower then None else Some(u)
    case _ => None
  }

  /** The name with the family prefix and the channel cut off. */
  function Key(name: string): string
    requires |name| >= OidPrefixLength + 2
  {
    name[OidPrefixLength..|name| - 2]
  }

  /** The mapper panics when the name is too short to be sliced, or when a
      recognised column carries a value of the wrong dynamic type. */
  predicate Panics(pdu: Pdu)
  {
    || |pdu.name| < OidPrefixLength + 2
    || (match KindOf(Key(pdu.name))
        case None => false
        case Some(k) => Assert(k, pdu.value).None?)
  }

  /** `collectMetrics`: drop the prefix, take the feed from the last two
      characters, cut them, and look the rest up in the column table. */
  function CollectMetrics(target: string, pdu: Pdu): (r: Outcome)
    ensures r.Panicked? <==> Panics(pdu)
    ensures r == Panicked(PrefixSlice) <==> |pdu.name| < OidPrefixLength
    ensures r == Panicked(ChannelSlice) <==> OidPrefixLength <= |pdu.name| < OidPrefixLength + 2
    ensures r.Ignored? <==>
      |pdu.name| >= OidPrefixLength + 2 && forall k :: ColumnPath(k) != Key(pdu.name)
    ensures r.Emitted? ==>
      && r.sample.metric.Telemetry?
      && ColumnPath(r.sample.metric.kind) == Key(pdu.name)
      && r.sample.labels == [target, if pdu.name[|pdu.name| - 2..] == ".2" then "B" else "A"]
      && Assert(r.sample.metric.kind, pdu.value) == Some(r.sample.value)
  {
    if |pdu.name| < OidPrefixLength then Panicked(PrefixSlice)
    else
      var name := pdu.name[OidPrefixLength..];
      var feed := FeedOf(name);
      if |name| < 2 then Panicked(ChannelSlice)
      else
        var key := name[..|name| - 2];
        assert key == Key(pdu.name);
        assert name[|name| - 2..] == pdu.name[|pdu.name| - 2..];
        match KindOf(key)
        case None => Ignored
        case Some(k) =>
          match Assert(k, pdu.value)
          case None => Panicked(TypeAssertion)
          case Some(x) => Emitted(Sample(Telemetry(k), [target, FeedLabel(feed)], x))
  }

  /** A sample the mapper emits is labelled by target and feed: one value per
      name of its metric's label schema, the target first. */
  lemma MapperSampleConforms(target: string, pdu: Pdu)
    ensures CollectMetrics(target, pdu).Emitted? ==>
      var s := CollectMetrics(target, pdu).sample;
      Labelled(target, s)
  {
  }
}
