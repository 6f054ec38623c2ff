/** One poll of one target (gude_pdu_collector.go:69-119): connect, identify
    the device family, walk its subtree through the mapper, report status. */
module Poller {
  import opened Snmp
  import opened Registry
  import opened Mapper

  /** The vendor's enterprise subtree. */
  const EnterpriseRoot := "1.3.6.1.4.1.28507."

  /** The three identification variables, one per device family, and the
      family code each one selects. */
  const IdentOids: seq<string> :=
    ["1.3.6.1.4.1.28507.27.1.1.1.1.0", "1.3.6.1.4.1.28507.38.1.1.1.1.0", "1.3.6.1.4.1.28507.62.1.1.1.1.0"]
  const FamilyCodes: seq<string> := ["27", "38", "62"]

  /** The subtree walked for a device code ("" when no family was identified). */
  function WalkRoot(device: string): (root: string)
    ensures |root| == |EnterpriseRoot| + |device|
    ensures root[..|EnterpriseRoot|] == EnterpriseRoot && root[|EnterpriseRoot|..] == device
  {
    EnterpriseRoot + device
  }

  /** Go slices `Name[1:]` of every non-nil variable, which needs a name. */
  predicate Sliceable(vars: seq<Pdu>)
  {
    forall v :: v in vars && v.value != Nil ==> |v.name| >= 1
  }

  /** The family a single returned variable selects, if any: its value is not
      nil and its name without the leading character is an identification OID. */
  function Match(v: Pdu): (r: Option<string>)
    requires v.value != Nil ==> |v.name| >= 1
    ensures forall i :: 0 <= i < 3 ==>
      (r == Some(FamilyCodes[i]) <==> v.value != Nil && v.name[1..] == IdentOids[i])
    ensures r.None? <==> v.value == Nil || v.name[1..] !in IdentOids
  {
    if v.value == Nil then None
    else if v.name[1..] == IdentOids[0] then Some("27")
    else if v.name[1..] == IdentOids[1] then Some("38")
    else if v.name[1..] == IdentOids[2] then Some("62")
    else None
  }

  /** The identified device: the family of the last matching variable, "" when
      none matches. */
  function DeviceOf(vars: seq<Pdu>): (device: string)
    requires Sliceable(vars)
    ensures device == "" || device in FamilyCodes
  {
    if vars == [] then ""
    else
      match Match(vars[|vars| - 1])
      case Some(code) => code
      case None => DeviceOf(vars[..|vars| - 1])
  }

  /** The identification loop: a forward pass over the returned variables that
      overwrites `device` on every match. */
  method IdentifyDevice(vars: seq<Pdu>) returns (device: string)
    requires Sliceable(vars)
    ensures device == DeviceOf(vars)
  {
    device := "";
    var i := 0;
    while i < |vars|
      invariant 0 <= i <= |vars|
      invariant device == DeviceOf(vars[..i])
    {
      var variable := vars[i];
      assert vars[..i + 1][..i] == vars[..i];
      i := i + 1;
      if variable.value == Nil {
        continue;
      }
      var name := variable.name[1..];
      if name == IdentOids[0] {
        device := "27";
      } else if name == IdentOids[1] {
        device := "38";
      } else if name == IdentOids[2] {
        device := "62";
      }
    }
    assert vars[..i] == vars;
  }

  /** No variable matches exactly when no family is identified. */
  lemma {:induction false} DeviceEmptyIffNoMatch(vars: seq<Pdu>)
    requires Sliceable(vars)
    ensures DeviceOf(vars) == "" <==> forall i :: 0 <= i < |vars| ==> Match(vars[i]).None?
  {
    if vars != [] {
      var n := |vars| - 1;
      var init := vars[..n];
      assert forall i :: 0 <= i < n ==> init[i] == vars[i];
      DeviceEmptyIffNoMatch(init);
    }
  }

  /** The last matching variable decides the family. */
  lemma {:induction false} DeviceIsLastMatch(vars: seq<Pdu>, j: nat)
    requires Sliceable(vars)
    requires j < |vars| && Match(vars[j]).Some?
    requires forall k :: j < k < |vars| ==> Match(vars[k]).None?
    ensures DeviceOf(vars) == Match(vars[j]).value
  {
    var n := |vars| - 1;
    if j < n {
      var init := vars[..n];
      assert forall i :: 0 <= i < n ==> init[i] == vars[i];
      DeviceIsLastMatch(init, j);
    }
  }

  /** A nil-valued variable never affects the identified family. */
  lemma {:induction false} DeviceIgnoresNil(before: seq<Pdu>, nil: Pdu, after: seq<Pdu>)
    requires nil.value == Nil
    requires Sliceable(before + [nil] + after)
    ensures Sliceable(before + after)
    ensures DeviceOf(before + [nil] + after) == DeviceOf(before + after)
  {
    var vars := before + [nil] + after;
    if after == [] {
      assert vars[..|vars| - 1] == before;
      assert before + after == before;
    } else {
      var n := |after| - 1;
      var init := after[..n];
      assert after == init + [after[n]];
      assert vars[..|vars| - 1] == before + [nil] + init;
      assert (before + after)[..|before + after| - 1] == before + init;
      DeviceIgnoresNil(before, nil, init);
    }
  }

  /** The samples the walk produces from the variables it delivered, in order. */
  function WalkSamples(target: string, pdus: seq<Pdu>): (out: seq<Sample>)
    requires forall p :: p in pdus ==> !Panics(p)
    ensures |out| <= |pdus|
    ensures forall s :: s in out ==>
      s.metric.Telemetry? && Labelled(target, s)
  {
    if pdus == [] then []
    else
      var n := |pdus| - 1;
      var init := WalkSamples(target, pdus[..n]);
      match CollectMetrics(target, pdus[n])
      case Emitted(s) => init + [s]
      case _ => init
  }

  /** Every telemetry sample comes from one delivered variable. */
  lemma {:induction false} TelemetryFromWalk(target: string, pdus: seq<Pdu>, s: Sample)
    requires forall p :: p in pdus ==> !Panics(p)
    requires s in WalkSamples(target, pdus)
    ensures exists i :: 0 <= i < |pdus| && CollectMetrics(target, pdus[i]) == Emitted(s)
  {
    var n := |pdus| - 1;
    var init := pdus[..n];
    assert forall i :: 0 <= i < n ==> init[i] == pdus[i];
    if s in WalkSamples(target, init) {
      TelemetryFromWalk(target, init, s);
      var i :| 0 <= i < n && CollectMetrics(target, init[i]) == Emitted(s);
      assert CollectMetrics(target, pdus[i]) == Emitted(s);
    } else {
      assert CollectMetrics(target, pdus[n]) == Emitted(s);
    }
  }

  /** The outcome of `Get` on the identification variables. */
  datatype GetResult = GetFailed | GetOk(variables: seq<Pdu>)

  /** The outcome of a walk: the variables delivered to the callback, in
      order, and whether the walk then reported an error. */
  datatype WalkResult = WalkResult(delivered: seq<Pdu>, failed: bool)

  /** What the network does for one poll: whether the connection opens, what
      the identification request returns, and what a walk of each root
      delivers. */
  datatype Session = Session(connects: bool, get: GetResult, walk: string -> WalkResult)

  /** The walk the poller performs once connect and get have succeeded. */
  function WalkOf(session: Session): WalkResult
    requires session.get.GetOk? && Sliceable(session.get.variables)
  {
    session.walk(WalkRoot(DeviceOf(session.get.variables)))
  }

  /** The runs in which no Go panic occurs (slicing a variable name, or a type
      assertion on a walked value). */
  predicate PanicFree(session: Session)
  {
    session.connects && session.get.GetOk? ==>
      && Sliceable(session.get.variables)
      && var pdus := WalkOf(session).delivered;
         forall p :: p in pdus ==> !Panics(p)
  }

  /** All three network steps succeeded. */
  predicate Succeeds(session: Session)
    requires PanicFree(session)
  {
    session.connects && session.get.GetOk? && !WalkOf(session).failed
  }

  /** How many status samples a sequence holds. */
  function UpCount(out: seq<Sample>): nat
  {
    if out == [] then 0
    else UpCount(out[..|out| - 1]) + (if out[|out| - 1].metric == Up then 1 else 0)
  }

  /** A sequence of telemetry samples holds no status sample. */
  lemma {:induction false} NoUpInTelemetry(out: seq<Sample>)
    requires forall i :: 0 <= i < |out| ==> out[i].metric.Telemetry?
    ensures UpCount(out) == 0
  {
    if out != [] {
      var init := out[..|out| - 1];
      assert forall i :: 0 <= i < |init| ==> init[i] == out[i];
      NoUpInTelemetry(init);
    }
  }

  /** The walk callback applied to each delivered variable in turn, sending
      what the mapper emits. */
  method Walk(target: string, pdus: seq<Pdu>) returns (out: seq<Sample>)
    requires forall p :: p in pdus ==> !Panics(p)
    ensures out == WalkSamples(target, pdus)
  {
    out := [];
    var i := 0;
    while i < |pdus|
      invariant 0 <= i <= |pdus|
      invariant out == WalkSamples(target, pdus[..i])
    {
      assert pdus[..i + 1][..i] == pdus[..i];
      var r := CollectMetrics(target, pdus[i]);
      if r.Emitted? {
        out := out + [r.sample];
      }
      i := i + 1;
    }
    assert pdus[..i] == pdus;
  }

  /** The samples one poll sends, in order: a lone failure status when connect
      or get fails, otherwise what the walk produced followed by the status. */
  function PollSamples(target: string, session: Session): (out: seq<Sample>)
    requires PanicFree(session)
    ensures |out| >= 1 && out[|out| - 1].metric == Up
  {
    if !session.connects || session.get.GetFailed? then [UpSample(target, 0)]
    else
      var walked := WalkOf(session);
      WalkSamples(target, walked.delivered) + [UpSample(target, if walked.failed then 0 else 1)]
  }

  /** `collectTarget`: connect, identify, walk, and send the status last. */
  method CollectTarget(target: string, session: Session) returns (out: seq<Sample>)
    requires PanicFree(session)
    ensures out == PollSamples(target, session)
  {
    if !session.connects {
      out := [UpSample(target, 0)];
      return;
    }
    if session.get.GetFailed? {
      out := [UpSample(target, 0)];
      return;
    }
    var device := IdentifyDevice(session.get.variables);
    var walked := session.walk(WalkRoot(device));
    out := Walk(target, walked.delivered);
    if walked.failed {
      out := out + [UpSample(target, 0)];
      return;
    }
    out := out + [UpSample(target, 1)];
  }

  /** Every poll ends with its status sample, preceded only by telemetry;
      the status is 1 exactly when connect, get and walk all succeeded. */
  lemma PollStatusLast(target: string, session: Session)
    requires PanicFree(session)
    ensures var out := PollSamples(target, session);
      && |out| >= 1
      && out[|out| - 1] == UpSample(target, if Succeeds(session) then 1 else 0)
      && (forall i :: 0 <= i < |out| - 1 ==> out[i].metric.Telemetry?)
  {
  }

  /** Every poll sends exactly one status sample. */
  lemma PollStatusOnce(target: string, session: Session)
    requires PanicFree(session)
    ensures UpCount(PollSamples(target, session)) == 1
  {
    var out := PollSamples(target, session);
    PollStatusLast(target, session);
    UpOnlyAtEnd(out);
  }

  /** A status sample that is last and preceded only by telemetry is the only one. */
  lemma {:induction false} UpOnlyAtEnd(out: seq<Sample>)
    requires |out| >= 1 && out[|out| - 1].metric == Up
    requires forall i :: 0 <= i < |out| - 1 ==> out[i].metric.Telemetry?
    ensures UpCount(out) == 1
  {
    NoUpInTelemetry(out[..|out| - 1]);
  }

  /** A failed connect or get sends the failure status and nothing else. */
  lemma PollEarlyFailure(target: string, session: Session)
    requires PanicFree(session)
    requires !session.connects || session.get.GetFailed?
    ensures PollSamples(target, session) == [Sample(Up, [target], 0)]
  {
  }

  /** Once connected and identified, everything before the status is what the
      walk produced, also when the walk then failed (nothing is retracted). */
  lemma PollTelemetryIsWalk(target: string, session: Session)
    requires PanicFree(session)
    requires session.connects && session.get.GetOk?
    ensures var out := PollSamples(target, session);
      |out| >= 1 && out[..|out| - 1] == WalkSamples(target, WalkOf(session).delivered)
  {
  }

  /** Every sample of a poll is labelled by the target it polled, with one
      value per label name of its metric. */
  lemma PollLabelled(target: string, session: Session)
    requires PanicFree(session)
    ensures forall s :: s in PollSamples(target, session) ==> Labelled(target, s)
  {
  }

  /** Every identified family's walk root, wrapped in the leading and trailing
      dots of a walked name, is exactly the prefix the mapper drops. */
  lemma FamilyPrefixLength(device: string)
    requires device in FamilyCodes
    ensures |"." + WalkRoot(device) + "."| == OidPrefixLength
  {
  }

  /** The wire contract: column `k`, channel `c` of an identified family maps to
      metric `k`, feed B exactly for channel 2, with the value as read. */
  lemma {:induction false} TelemetryOidMaps(target: string, device: string, k: Kind, c: char, v: Value)
    requires device in FamilyCodes
    requires Assert(k, v).Some?
    ensures var name := "." + WalkRoot(device) + "." + ColumnPath(k) + "." + [c];
      CollectMetrics(target, Pdu(name, v))
        == Emitted(Sample(Telemetry(k), [target, if c == '2' then "B" else "A"], Assert(k, v).value))
  {
    var head := "." + WalkRoot(device) + ".";
    var name := head + ColumnPath(k) + "." + [c];
    assert |head| == OidPrefixLength;
    assert Key(name) == ColumnPath(k) by {
      assert name == head + (ColumnPath(k) + "." + [c]);
    }
    KindOfColumnPath(k);
    assert name[|name| - 2..] == "." + [c];
  }

}
