# gude_pdu_exporter collector, modelled in Dafny

The exporter polls Gude power-distribution units over SNMPv2c and republishes
their power-channel telemetry as Prometheus gauges. This project models the
collector in `gude_pdu_collector.go` and proves what it emits:

- `registry.dfy` (module `Registry`): the six metric descriptors built once
  at start-up (`init`) and listed by `Describe`, the label schema of each,
  and the `Sample` record that stands for a Prometheus const metric.
- `snmp.dfy` (module `Snmp`): a variable binding as the collector sees it, a
  dotted OID name plus a dynamically typed value (nil, Go `uint`, Go `int`,
  or anything else).
- `mapper.dfy` (module `Mapper`): `collectMetrics`. It drops the 22-character
  family prefix and takes the feed from the last two characters (B for ".2",
  A otherwise). It then cuts the channel and looks the rest up in the
  five-column table. The result is one sample, nothing, or the point where
  the Go code would panic.
- `poller.dfy` (module `Poller`): `collectTarget`. It covers the
  device-identification loop, the walk root and the connect/get/walk
  outcomes, which decide the samples one poll sends.

Network results are inputs: a `Session` value says whether the connection
opens, what `Get` returns, and what a walk of each root delivers before it
succeeds or fails. The channel a poll sends on becomes the sequence of
samples, in sending order. `CollectTarget` and `Walk` are methods with the
source's control flow (early returns, a loop over the delivered variables),
proved equal to the specification functions `PollSamples` and `WalkSamples`.
`IdentifyDevice` is the forward loop that overwrites `device`, proved equal
to `DeviceOf`, which states "the last matching variable wins" directly.

Three points about the code that the model keeps as they are:
- Identification: the last non-nil matching variable wins; the value is
  checked against nil only, not for emptiness.
- Conversion: the type assertions are unchecked and panic; the model reports
  `Panicked(TypeAssertion)`.
- No family identified: the code then walks the root string
  `1.3.6.1.4.1.28507.` (trailing dot). What the library delivers for it is
  not modelled, and the poll forwards whatever the walk delivers.

## Model

| member | source | states |
|---|---|---|
| Registry.Standard | gude_pdu_collector.go:24-33 | every descriptor is named `gude_pdu_` plus its metric's name and carries its metric's label schema: ["target"] for up, ["target", "feed"] for the five telemetry metrics |
| Registry.Init | gude_pdu_collector.go:24-33 | building the descriptors from one label list, extended by "feed" after the up descriptor, yields exactly the start-up descriptors |
| Registry.Describe | gude_pdu_collector.go:38-45 | exactly six descriptors, the i-th being that of the i-th metric in the order up, total, active_power, actual_current, actual_voltage, frequency; every descriptor is among them |
| Registry.DescribeOrderIsEnumeration | gude_pdu_collector.go:38-45 | the describe order lists every metric, and none twice |
| Registry.DescribeStandard | gude_pdu_collector.go:24-45 | describing the start-up descriptors gives six, named in the fixed order, the first labelled ["target"] and the other five ["target", "feed"] |
| Registry.StandardNamesDistinct | gude_pdu_collector.go:26-32 | no two metrics share a descriptor name |
| Registry.LabelledConforms | gude_pdu_collector.go:25-27 | a sample with one label value per schema name fits the descriptor built for its metric |
| Registry.UpSample | gude_pdu_collector.go:81 | the status sample is labelled by its target alone and carries the given value |
| Mapper.FeedOf | gude_pdu_collector.go:49-52 | feed B exactly when the name's last two characters are '.' and '2', feed A for every other name |
| Mapper.KindOf | gude_pdu_collector.go:54-64 | a key is recognised exactly when it is one of the five column paths 1.5.1.2.1.3 to .7, and then as that column's metric |
| Mapper.KindOfColumnPath | gude_pdu_collector.go:54-64 | each column path is recognised as its own metric (total, active_power, actual_current, actual_voltage, frequency) |
| Mapper.Assert | gude_pdu_collector.go:56-64 | the type assertion succeeds exactly when the value is a Go int for active power and a Go uint for the other four, and then yields that integer |
| Mapper.CollectMetrics | gude_pdu_collector.go:47-67 | panics exactly on a name shorter than 22 (prefix slice) or 24 (channel slice) characters, or on a recognised column whose value has the wrong type; ignores exactly the names whose key is no column path; otherwise emits one sample of that column's metric with labels (target, B if the name ends in ".2" else A) and the asserted value; never an error |
| Mapper.MapperSampleConforms | gude_pdu_collector.go:56-64 | an emitted sample is labelled by target and feed, matching its descriptor's schema |
| Poller.Match | gude_pdu_collector.go:95-105 | a variable selects family 27, 38 or 62 exactly when its value is not nil and its name without the first character is the corresponding identification OID, and selects none otherwise |
| Poller.DeviceOf | gude_pdu_collector.go:93-106 | the identified device is "" or one of the three family codes |
| Poller.IdentifyDevice | gude_pdu_collector.go:93-106 | the forward loop that overwrites `device` on each match ends with the family of the last matching variable ("" if none) |
| Poller.DeviceEmptyIffNoMatch | gude_pdu_collector.go:93-106 | the device stays "" if and only if no returned variable matches |
| Poller.DeviceIsLastMatch | gude_pdu_collector.go:94-106 | when variable j matches and no later one does, the device is j's family |
| Poller.DeviceIgnoresNil | gude_pdu_collector.go:95-97 | removing a nil-valued variable from the result never changes the identified device |
| Poller.WalkSamples | gude_pdu_collector.go:107-110 | the walk yields at most one sample per delivered variable, each a telemetry sample labelled by the target and its feed |
| Poller.TelemetryFromWalk | gude_pdu_collector.go:107-110 | every telemetry sample is what the mapper emitted for one delivered variable |
| Poller.Walk | gude_pdu_collector.go:107-110 | the callback loop over the delivered variables sends exactly the walk's samples, in delivery order |
| Poller.WalkRoot | gude_pdu_collector.go:107 | the walked root is the enterprise prefix `1.3.6.1.4.1.28507.` followed by the identified device code, nothing else |
| Poller.PollSamples | gude_pdu_collector.go:78-118 | a failed connect or get gives [up 0]; otherwise the walk's samples, then up = 0 if the walk failed, else 1; the last sample is always a status sample |
| Poller.CollectTarget | gude_pdu_collector.go:69-119 | the poll (connect, get, identify, walk of the family root, status) sends exactly the poll's samples in order |
| Poller.PollStatusLast | gude_pdu_collector.go:78-118 | the last sample is the status for the target, 1 exactly when connect, get and walk all succeeded and 0 otherwise; every earlier sample is telemetry |
| Poller.PollStatusOnce | gude_pdu_collector.go:78-118 | each poll sends exactly one status sample |
| Poller.PollEarlyFailure | gude_pdu_collector.go:78-92 | a failed connect or get sends only up = 0 for the target |
| Poller.PollTelemetryIsWalk | gude_pdu_collector.go:107-116 | once connect and get succeed, everything before the status is what the walk of the identified family's root produced, also when the walk then fails (nothing retracted) |
| Poller.PollLabelled | gude_pdu_collector.go:81-118 | every sample of a poll carries its target as first label and one value per label name of its metric |
| Poller.FamilyPrefixLength | gude_pdu_collector.go:107 | for each identified family, "." + walk root + "." is exactly the 22 characters the mapper drops |
| Poller.TelemetryOidMaps | gude_pdu_collector.go:47-64 | the walked name of column k, channel c under an identified family maps to metric k with labels (target, B if c is '2' else A) and the value as read |

## Left out

- SNMP sessions: `Connect`, `Get` and `Walk` are network I/O through gosnmp, so they are inputs (`Session`). Port 161, the community string, SNMP version 2c and the 2-second timeout are session settings with no effect on the model.
- Prometheus: descriptors and const metrics become plain records (`Descriptor`, `Sample`), and the channel becomes the output sequence.
- `Collect`: one goroutine per target, a wait group and a shared channel. It is concurrency only, and the order of samples across targets is not defined. Splitting the target flag and the flag variables themselves are not part of this model.
- Go panics: the model shows where `collectMetrics` would panic. Slicing the name of a non-nil identification variable is a precondition (`Sliceable`). A poll is modelled only for runs without a panic (`PanicFree`); the process crash a panic causes is not modelled.
- `float64(...)`: samples carry the exact integer read. Rounding above 2^53 is not modelled. Go `uint` and `int` are taken as 64 bits wide.
- `log.Infof` diagnostics are not modelled, including the Get failure message that prints `err` where `err2` is meant.
- The unused `device` parameter of `collectMetrics` is dropped.
- Help texts are carried as data but no property is stated about them.
