/** The FlashBlade array-level builders: hardware status, open events, array space,
  * performance per protocol and protocol-specific performance. */
module FbArray {
  import opened Records
  import opened Families
  import opened FaMappings
  import opened FbMappings
  import opened FbSource
  import opened Strings

  // ---------------------------------------------------------------- hardware

  /** Components in these states are not reported. */
  predicate Unused(h: Record)
  {
    Attr(h, "status") == Str("unused") || Attr(h, "status") == Str("not_installed")
  }

  /** The reported components, in list order. */
  function Reported(hw: seq<Record>): (r: seq<Record>)
    ensures |r| <= |hw|
  {
    if |hw| == 0 then []
    else Reported(hw[..|hw| - 1]) + (if Unused(hw[|hw| - 1]) then [] else [hw[|hw| - 1]])
  }

  /** Exactly the components that are not unused are reported. */
  lemma {:induction false} ReportedMembers(hw: seq<Record>)
    ensures forall h :: h in Reported(hw) <==> h in hw && !Unused(h)
  {
    if |hw| > 0 {
      var n := |hw| - 1;
      ReportedMembers(hw[..n]);
      assert hw == hw[..n] + [hw[n]];
    }
  }

  /** The sample of a reported component: its raw name, 1 when healthy and 0 otherwise. */
  function StatusSample(h: Record): Sample
  {
    Sample([Text(Attr(h, "name"))], Num(if Attr(h, "status") == Str("healthy") then 1 else 0))
  }

  /** What `_hardware_status` appends. */
  function HardwareSamples(hw: seq<Record>): seq<Sample>
  {
    if |hw| == 0 then []
    else
      var n := |hw| - 1;
      HardwareSamples(hw[..n]) + (if Unused(hw[n]) then [] else [StatusSample(hw[n])])
  }

  /** One sample per reported component, in list order. */
  lemma {:induction false} HardwareSamplesFollowReported(hw: seq<Record>)
    ensures |HardwareSamples(hw)| == |Reported(hw)|
    ensures forall i :: 0 <= i < |Reported(hw)| ==> HardwareSamples(hw)[i] == StatusSample(Reported(hw)[i])
  {
    if |hw| > 0 {
      HardwareSamplesFollowReported(hw[..|hw| - 1]);
    }
  }

  lemma {:induction false} HardwareSamplesStep(hw: seq<Record>, i: nat)
    requires i < |hw|
    ensures HardwareSamples(hw[..i + 1]) == HardwareSamples(hw[..i]) + if Unused(hw[i]) then [] else [StatusSample(hw[i])]
  {
    assert hw[..i + 1][..i] == hw[..i];
  }

  /** A reported component's value is 1 exactly when it is healthy, and 0 otherwise. */
  lemma {:induction false} StatusValue(hw: seq<Record>, i: nat)
    requires i < |Reported(hw)|
    ensures |HardwareSamples(hw)| == |Reported(hw)|
    ensures Reported(hw)[i] in hw && !Unused(Reported(hw)[i])
    ensures HardwareSamples(hw)[i].labels == [Text(Attr(Reported(hw)[i], "name"))]
    ensures HardwareSamples(hw)[i].value == Num(1) <==> Attr(Reported(hw)[i], "status") == Str("healthy")
    ensures HardwareSamples(hw)[i].value == Num(0) || HardwareSamples(hw)[i].value == Num(1)
  {
    HardwareSamplesFollowReported(hw);
    ReportedMembers(hw);
    assert Reported(hw)[i] in Reported(hw);
  }

  /** `ArrayHardwareMetrics`: the family is made by the constructor, which also fetches the
    * hardware list. */
  class ArrayHardwareMetrics {
    const fb: FlashBlade
    const hardwareStatus: MetricFamily
    /** The hardware list the constructor fetched, or the failure that aborts construction. */
    const fbHardwareStatus: Result<seq<Record>>

    constructor (fb: FlashBlade)
      modifies fb`fetches
      ensures this.fb == fb && fbHardwareStatus == Listing(fb.api.hardware)
      ensures fresh(hardwareStatus) && hardwareStatus.samples == []
      ensures hardwareStatus.name == "purefb_hw_status" && hardwareStatus.labelKeys == ["hw_id"]
    {
      this.fb := fb;
      hardwareStatus := new MetricFamily("purefb_hw_status", ["hw_id"]);
      var l := fb.GetHardwareStatus();
      fbHardwareStatus := l;
    }

    /** `_hardware_status`. */
    method HardwareStatus()
      requires fbHardwareStatus.Ok?
      modifies hardwareStatus
      ensures hardwareStatus.samples == old(hardwareStatus.samples) + HardwareSamples(fbHardwareStatus.value)
    {
      var hw := fbHardwareStatus.value;
      var i := 0;
      while i < |hw|
        invariant 0 <= i <= |hw|
        invariant hardwareStatus.samples == old(hardwareStatus.samples) + HardwareSamples(hw[..i])
      {
        HardwareSamplesStep(hw, i);
        ghost var front := HardwareSamples(hw[..i]);
        var h := hw[i];
        if Attr(h, "status") == Str("unused") || Attr(h, "status") == Str("not_installed") {
          assert front + [] == front;
          i := i + 1;
          continue;
        }
        var status := if Attr(h, "status") == Str("healthy") then 1 else 0;
        hardwareStatus.AddMetric([Text(Attr(h, "name"))], Num(status));
        ConcatAssoc(old(hardwareStatus.samples), front, [StatusSample(h)]);
        i := i + 1;
      }
      assert hw[..i] == hw;
    }

    /** `get_metrics`. */
    method GetMetrics() returns (r: seq<Snapshot>)
      requires fbHardwareStatus.Ok?
      modifies hardwareStatus
      ensures hardwareStatus.samples == old(hardwareStatus.samples) + HardwareSamples(fbHardwareStatus.value)
      ensures r == [hardwareStatus.Snap()]
    {
      HardwareStatus();
      r := [hardwareStatus.Snap()];
    }
  }

  // ---------------------------------------------------------------- events

  /** Number of alerts of the given severity. */
  function SeverityCount(alerts: seq<Record>, severity: string): (n: nat)
    ensures n <= |alerts|
  {
    if |alerts| == 0 then 0
    else SeverityCount(alerts[..|alerts| - 1], severity) + (if Attr(alerts[|alerts| - 1], "severity") == Str(severity) then 1 else 0)
  }

  /** What `_open_events` appends: the critical, warning and info counts, in that order. */
  function EventSamples(alerts: seq<Record>): seq<Sample>
  {
    [Sample(["critical"], Num(SeverityCount(alerts, "critical"))),
     Sample(["warning"], Num(SeverityCount(alerts, "warning"))),
     Sample(["info"], Num(SeverityCount(alerts, "info")))]
  }

  predicate KnownSeverity(a: Record)
  {
    Attr(a, "severity") == Str("critical") || Attr(a, "severity") == Str("warning") || Attr(a, "severity") == Str("info")
  }

  /** An alert is counted under at most one severity, so the three counts add up to at most
    * the number of alerts, and to exactly that number when every severity is a known one. */
  lemma {:induction false} SeverityCountsBounded(alerts: seq<Record>)
    ensures SeverityCount(alerts, "critical") + SeverityCount(alerts, "warning") + SeverityCount(alerts, "info") <= |alerts|
    ensures (forall i :: 0 <= i < |alerts| ==> KnownSeverity(alerts[i])) ==>
              SeverityCount(alerts, "critical") + SeverityCount(alerts, "warning") + SeverityCount(alerts, "info") == |alerts|
  {
    if |alerts| > 0 {
      var front := alerts[..|alerts| - 1];
      SeverityCountsBounded(front);
      assert forall i :: 0 <= i < |front| ==> front[i] == alerts[i];
    }
  }

  /** `ArrayEventsMetrics`: the family is made by the constructor, which also fetches the open alerts. */
  class ArrayEventsMetrics {
    const fb: FlashBlade
    const events: MetricFamily
    /** The alerts the constructor fetched, or the failure that aborts construction. */
    const fbEvents: Result<seq<Record>>

    constructor (fb: FlashBlade)
      modifies fb`fetches
      ensures this.fb == fb && fbEvents == Listing(fb.api.openAlerts)
      ensures fresh(events) && events.samples == []
      ensures events.name == "purefb_open_events_total" && events.labelKeys == ["severity"]
    {
      this.fb := fb;
      events := new MetricFamily("purefb_open_events_total", ["severity"]);
      var l := fb.GetOpenAlerts();
      fbEvents := l;
    }

    /** `_open_events`: one pass over the alerts with three counters, then three samples. */
    method OpenEvents()
      requires fbEvents.Ok?
      modifies events
      ensures events.samples == old(events.samples) + EventSamples(fbEvents.value)
    {
      var alerts := fbEvents.value;
      var cCrit, cWarn, cInfo := 0, 0, 0;
      var i := 0;
      while i < |alerts|
        invariant 0 <= i <= |alerts|
        invariant cCrit == SeverityCount(alerts[..i], "critical")
        invariant cWarn == SeverityCount(alerts[..i], "warning")
        invariant cInfo == SeverityCount(alerts[..i], "info")
      {
        assert alerts[..i + 1][..i] == alerts[..i];
        var msg := alerts[i];
        if Attr(msg, "severity") == Str("critical") {
          cCrit := cCrit + 1;
        }
        if Attr(msg, "severity") == Str("warning") {
          cWarn := cWarn + 1;
        }
        if Attr(msg, "severity") == Str("info") {
          cInfo := cInfo + 1;
        }
        i := i + 1;
      }
      assert alerts[..i] == alerts;
      events.AddMetric(["critical"], Num(cCrit));
      events.AddMetric(["warning"], Num(cWarn));
      events.AddMetric(["info"], Num(cInfo));
    }

    /** `get_metrics`. */
    method GetMetrics() returns (r: seq<Snapshot>)
      requires fbEvents.Ok?
      modifies events
      ensures events.samples == old(events.samples) + EventSamples(fbEvents.value)
      ensures r == [events.Snap()]
    {
      OpenEvents();
      r := [events.Snap()];
    }
  }

  // ---------------------------------------------------------------- space

  /** The capacity sample, present when the capacity is not `None`. */
  function CapacitySamples(rec: Record): seq<Sample>
  {
    if Attr(rec, "capacity") == Null then [] else [Sample([], Attr(rec, "capacity"))]
  }

  /** The four space samples, present when the `space` object is not `None`. */
  function SpaceSamples(rec: Record): seq<Sample>
  {
    if Attr(rec, "space") == Null then []
    else [Sample(["unique"], Attr(rec, "space.unique")),
          Sample(["virtual"], Attr(rec, "space.virtual")),
          Sample(["total_physical"], Attr(rec, "space.total_physical")),
          Sample(["snapshots"], Attr(rec, "space.snapshots"))]
  }

  /** The data reduction sample, present when the `space` object is not `None`. */
  function ReductionSamples(rec: Record): seq<Sample>
  {
    if Attr(rec, "space") == Null then [] else [Sample([], Attr(rec, "space.data_reduction"))]
  }

  /** One run of `ArraySpaceMetrics` on the array space record, in yield order. */
  function ArraySpaceFamilies(rec: Record): seq<Snapshot>
  {
    [Snapshot("purefb_array_capacity_bytes", [], CapacitySamples(rec)),
     Snapshot("purefb_array_space_bytes", ["dimension"], SpaceSamples(rec)),
     Snapshot("purefb_array_space_data_reduction", [], ReductionSamples(rec))]
  }

  /** A `None` object gives no sample; otherwise each value is passed on as read, `None`
    * included, and every sample carries one label value per label key. */
  lemma ArraySpaceGuards(rec: Record)
    ensures |CapacitySamples(rec)| == (if Attr(rec, "capacity") == Null then 0 else 1)
    ensures |SpaceSamples(rec)| == (if Attr(rec, "space") == Null then 0 else 4)
    ensures |ReductionSamples(rec)| == (if Attr(rec, "space") == Null then 0 else 1)
    ensures Attr(rec, "space") != Null ==> ReductionSamples(rec)[0].value == Attr(rec, "space.data_reduction")
    ensures forall k :: 0 <= k < 3 ==> WellLabelled(ArraySpaceFamilies(rec)[k])
  {
  }

  /** `ArraySpaceMetrics`: the families are made by the constructor, which also reads the
    * array space record (the second read comes from the cache). */
  class ArraySpaceMetrics {
    const fb: FlashBlade
    const capacity: MetricFamily
    const space: MetricFamily
    const reduction: MetricFamily
    /** The space record the constructor read, or the failure that aborts construction. */
    const arraySpace: Result<Record>

    predicate Declared()
    {
      capacity != space && capacity != reduction && space != reduction &&
      capacity.name == "purefb_array_capacity_bytes" && capacity.labelKeys == [] &&
      space.name == "purefb_array_space_bytes" && space.labelKeys == ["dimension"] &&
      reduction.name == "purefb_array_space_data_reduction" && reduction.labelKeys == []
    }

    function Samples(): seq<seq<Sample>>
      reads capacity, space, reduction
    {
      [capacity.samples, space.samples, reduction.samples]
    }

    constructor (fb: FlashBlade)
      requires fb.Valid()
      modifies fb`arraySpace, fb`fetches
      ensures fb.Valid() && this.fb == fb && arraySpace == First(fb.api.arraySpace)
      ensures Declared() && fresh(capacity) && fresh(space) && fresh(reduction)
      ensures Samples() == [[], [], []]
    {
      this.fb := fb;
      capacity := new MetricFamily("purefb_array_capacity_bytes", []);
      space := new MetricFamily("purefb_array_space_bytes", ["dimension"]);
      reduction := new MetricFamily("purefb_array_space_data_reduction", []);
      var s := fb.GetArraySpace();
      if s.Ok? {
        var again := fb.GetArraySpace();
      }
      arraySpace := s;
    }

    /** `_capacity`. */
    method Capacity()
      requires arraySpace.Ok?
      modifies capacity
      ensures capacity.samples == old(capacity.samples) + CapacitySamples(arraySpace.value)
    {
      var c := Attr(arraySpace.value, "capacity");
      if c == Null {
        assert old(capacity.samples) + [] == capacity.samples;
        return;
      }
      capacity.AddMetric([], c);
    }

    /** `_space`. */
    method Space()
      requires arraySpace.Ok?
      modifies space
      ensures space.samples == old(space.samples) + SpaceSamples(arraySpace.value)
    {
      var rec := arraySpace.value;
      if Attr(rec, "space") == Null {
        assert old(space.samples) + [] == space.samples;
        return;
      }
      space.AddMetric(["unique"], Attr(rec, "space.unique"));
      space.AddMetric(["virtual"], Attr(rec, "space.virtual"));
      space.AddMetric(["total_physical"], Attr(rec, "space.total_physical"));
      space.AddMetric(["snapshots"], Attr(rec, "space.snapshots"));
    }

    /** `_reduction`. */
    method Reduction()
      requires arraySpace.Ok?
      modifies reduction
      ensures reduction.samples == old(reduction.samples) + ReductionSamples(arraySpace.value)
    {
      var rec := arraySpace.value;
      if Attr(rec, "space") == Null {
        assert old(reduction.samples) + [] == reduction.samples;
        return;
      }
      reduction.AddMetric([], Attr(rec, "space.data_reduction"));
    }

    /** `get_metrics`: capacity, space, reduction, each appending to what earlier runs left. */
    method GetMetrics() returns (r: seq<Snapshot>)
      requires arraySpace.Ok? && Declared()
      modifies capacity, space, reduction
      ensures r == Grown(old(Samples()), ArraySpaceFamilies(arraySpace.value))
      ensures r == [capacity.Snap(), space.Snap(), reduction.Snap()]
    {
      Capacity();
      Space();
      Reduction();
      r := [capacity.Snap(), space.Snap(), reduction.Snap()];
    }
  }

  // ---------------------------------------------------------------- performance per protocol

  const PerformanceOrder: seq<string> := ["http", "nfs", "s3", "smb"]

  /** The `add_metric` lines of the latency, iops, operation size and throughput loops. The
    * filesystem and client builders use the same lines. */
  const LatencyLines := [
    Column(["read"], "usec_per_read_op", PassThrough),
    Column(["write"], "usec_per_write_op", PassThrough),
    Column(["other"], "usec_per_other_op", PassThrough)]

  const IopsLines := [
    Column(["read"], "reads_per_sec", PassThrough),
    Column(["write"], "writes_per_sec", PassThrough),
    Column(["other"], "others_per_sec", PassThrough)]

  const OpsSizeLines := [
    Column(["per_op"], "bytes_per_op", PassThrough),
    Column(["read"], "bytes_per_read", PassThrough),
    Column(["write"], "bytes_per_write", PassThrough)]

  const ThroughputLines := [
    Column(["read"], "read_bytes_per_sec", PassThrough),
    Column(["write"], "write_bytes_per_sec", PassThrough)]

  /** Appends the second run of samples to the first; the first failure wins. */
  function Then(a: Result<seq<Sample>>, b: Result<seq<Sample>>): Result<seq<Sample>>
  {
    if a.Err? then a else if b.Err? then b else Ok(a.value + b.value)
  }

  /** One protocol's turn in a protocol loop: its record's lines labelled
    * `[protocol, dimension]`; nothing for a protocol without a record. */
  function ProtocolCells(api: FbApi, cols: seq<Column>, p: string): Result<seq<Sample>>
  {
    var m := ArrayPerformanceOf(api, p);
    if m.Err? then Err(m.error)
    else if m.value.None? then Ok([])
    else Cells(m.value.value, [p], cols, ByAttr)
  }

  /** One protocol loop: the protocols' turns in order; a failed fetch aborts. */
  function ProtocolRows(api: FbApi, cols: seq<Column>, ps: seq<string>): Result<seq<Sample>>
  {
    if |ps| == 0 then Ok([])
    else Then(ProtocolRows(api, cols, ps[..|ps| - 1]), ProtocolCells(api, cols, ps[|ps| - 1]))
  }

  /** The protocols, in order, that have a performance record. */
  function WithData(api: FbApi, ps: seq<string>): seq<string>
  {
    if |ps| == 0 then []
    else
      var p := ps[|ps| - 1];
      WithData(api, ps[..|ps| - 1]) +
        (if ArrayPerformanceOf(api, p).Ok? && ArrayPerformanceOf(api, p).value.Some? then [p] else [])
  }

  /** The families of `ArrayPerformanceMetrics`, in yield order. */
  const PerformanceSpecs: seq<FamilySpec> := [
    FamilySpec("purefb_array_performance_latency_usec", ["protocol", "dimension"], Layout([], [], LatencyLines, ByAttr)),
    FamilySpec("purefb_array_performance_iops", ["protocol", "dimension"], Layout([], [], IopsLines, ByAttr)),
    FamilySpec("purefb_array_performance_opns_bytes", ["protocol", "dimension"], Layout([], [], OpsSizeLines, ByAttr)),
    FamilySpec("purefb_array_performance_throughput_bytes", ["protocol", "dimension"], Layout([], [], ThroughputLines, ByAttr))]

  /** A single family as a run of one. */
  function AsPart(f: Result<Snapshot>): Result<seq<Snapshot>>
  {
    if f.Err? then Err(f.error) else Ok([f.value])
  }

  /** One family's samples over the protocols. */
  function ProtocolFamily(api: FbApi, spec: FamilySpec): Result<Snapshot>
  {
    var rows := ProtocolRows(api, spec.layout.cols, PerformanceOrder);
    if rows.Err? then Err(rows.error) else Ok(Snapshot(spec.name, spec.labelKeys, rows.value))
  }

  /** The families in order; the first that fails aborts. */
  function ProtocolFamilies(api: FbApi, specs: seq<FamilySpec>): Result<seq<Snapshot>>
  {
    if |specs| == 0 then Ok([])
    else Chain(ProtocolFamilies(api, specs[..|specs| - 1]), AsPart(ProtocolFamily(api, specs[|specs| - 1])))
  }

  lemma {:induction false} ProtocolRowsStep(api: FbApi, cols: seq<Column>, ps: seq<string>, i: nat)
    requires i < |ps|
    ensures ProtocolRows(api, cols, ps[..i + 1]) == Then(ProtocolRows(api, cols, ps[..i]), ProtocolCells(api, cols, ps[i]))
  {
    assert ps[..i + 1][..i] == ps[..i];
  }

  lemma {:induction false} ProtocolRowsStop(api: FbApi, cols: seq<Column>, ps: seq<string>, k: nat)
    requires k <= |ps| && ProtocolRows(api, cols, ps[..k]).Err?
    ensures ProtocolRows(api, cols, ps) == ProtocolRows(api, cols, ps[..k])
    decreases |ps|
  {
    if k < |ps| {
      assert ps[..|ps| - 1][..k] == ps[..k];
      ProtocolRowsStop(api, cols, ps[..|ps| - 1], k);
    } else {
      assert ps[..k] == ps;
    }
  }

  /** A protocol's turn fails only when its fetch does: attribute reads cannot fail. */
  lemma {:induction false} ProtocolCellsSucceed(api: FbApi, cols: seq<Column>, p: string)
    ensures ProtocolCells(api, cols, p).Ok? <==> ArrayPerformanceOf(api, p).Ok?
    ensures ProtocolCells(api, cols, p).Ok? ==>
              |ProtocolCells(api, cols, p).value| == if ArrayPerformanceOf(api, p).value.Some? then |cols| else 0
  {
    var m := ArrayPerformanceOf(api, p);
    if m.Ok? && m.value.Some? {
      CellsSucceed(m.value.value, [p], cols, ByAttr);
      CellsShape(m.value.value, [p], cols, ByAttr);
    }
  }

  /** A protocol loop succeeds exactly when every protocol's fetch succeeds. */
  lemma {:induction false} ProtocolRowsSucceed(api: FbApi, cols: seq<Column>, ps: seq<string>)
    ensures ProtocolRows(api, cols, ps).Ok? <==> forall i :: 0 <= i < |ps| ==> ArrayPerformanceOf(api, ps[i]).Ok?
  {
    if |ps| > 0 {
      var n := |ps| - 1;
      ProtocolRowsSucceed(api, cols, ps[..n]);
      ProtocolCellsSucceed(api, cols, ps[n]);
      assert forall i :: 0 <= i < n ==> ps[..n][i] == ps[i];
    }
  }

  /** Each protocol with a record contributes one sample per line, so a loop holds as many
    * samples as lines times protocols with data. */
  lemma {:induction false} ProtocolRowsCount(api: FbApi, cols: seq<Column>, ps: seq<string>)
    requires ProtocolRows(api, cols, ps).Ok?
    ensures |ProtocolRows(api, cols, ps).value| == |cols| * |WithData(api, ps)|
  {
    if |ps| > 0 {
      var n := |ps| - 1;
      ProtocolRowsCount(api, cols, ps[..n]);
      ProtocolCellsSucceed(api, cols, ps[n]);
      var w := |WithData(api, ps[..n])|;
      assert |cols| * (w + 1) == |cols| * w + |cols|;
    }
  }

  /** Every protocol the builder visits has a slot in the performance cache, so none of its
    * fetches fails with a missing key. */
  lemma PerformanceOrderCached()
    ensures forall i :: 0 <= i < |PerformanceOrder| ==> PerformanceOrder[i] in PerformanceProtocols
  {
  }

  /** `ArrayPerformanceMetrics`: the four families are made by the constructor, so every run
    * of `get_metrics` appends to what earlier runs left. */
  class ArrayPerformanceMetrics {
    const fb: FlashBlade
    const protocols: seq<string>
    const latency: MetricFamily
    const iops: MetricFamily
    const opsSize: MetricFamily
    const throughput: MetricFamily

    predicate Declared()
    {
      protocols == PerformanceOrder &&
      latency != iops && latency != opsSize && latency != throughput &&
      iops != opsSize && iops != throughput && opsSize != throughput &&
      latency.name == PerformanceSpecs[0].name && latency.labelKeys == PerformanceSpecs[0].labelKeys &&
      iops.name == PerformanceSpecs[1].name && iops.labelKeys == PerformanceSpecs[1].labelKeys &&
      opsSize.name == PerformanceSpecs[2].name && opsSize.labelKeys == PerformanceSpecs[2].labelKeys &&
      throughput.name == PerformanceSpecs[3].name && throughput.labelKeys == PerformanceSpecs[3].labelKeys
    }

    function Samples(): seq<seq<Sample>>
      reads latency, iops, opsSize, throughput
    {
      [latency.samples, iops.samples, opsSize.samples, throughput.samples]
    }

    constructor (fb: FlashBlade)
      ensures this.fb == fb && Declared() && Samples() == [[], [], [], []]
      ensures fresh(latency) && fresh(iops) && fresh(opsSize) && fresh(throughput)
    {
      this.fb := fb;
      protocols := ["http", "nfs", "s3", "smb"];
      latency := new MetricFamily(PerformanceSpecs[0].name, PerformanceSpecs[0].labelKeys);
      iops := new MetricFamily(PerformanceSpecs[1].name, PerformanceSpecs[1].labelKeys);
      opsSize := new MetricFamily(PerformanceSpecs[2].name, PerformanceSpecs[2].labelKeys);
      throughput := new MetricFamily(PerformanceSpecs[3].name, PerformanceSpecs[3].labelKeys);
    }

    /** One protocol's turn: fetch its record (cached per protocol) and read the lines. */
    method FillProtocol(fam: MetricFamily, cols: seq<Column>, p: string) returns (out: Outcome)
      requires fb.ProtocolsValid()
      modifies fam, fb`arrayPerformance, fb`fetches
      ensures fb.ProtocolsValid()
      ensures out.Pass? <==> ProtocolCells(fb.api, cols, p).Ok?
      ensures out.Pass? ==> fam.samples == old(fam.samples) + ProtocolCells(fb.api, cols, p).value
      ensures out.Fail? ==> out.error == ProtocolCells(fb.api, cols, p).error
    {
      var m := fb.GetArrayPerformance(p);
      if m.Err? {
        return Fail(m.error);
      }
      if m.value.None? {
        assert fam.samples == old(fam.samples) + [];
        return Pass;
      }
      out := EmitEntity(fam, Layout([p], [], cols, ByAttr), m.value.value);
      assert [p] + [] == [p];
    }

    /** One of `_latency`, `_iops`, `_ops_size`, `_throughput` (the k-th family): the protocol loop. */
    method Fill(fam: MetricFamily, k: nat) returns (out: Outcome)
      requires fb.ProtocolsValid() && k < 4 && protocols == PerformanceOrder
      modifies fam, fb`arrayPerformance, fb`fetches
      ensures fb.ProtocolsValid()
      ensures out.Pass? <==> PerformanceRows(fb.api, k).Ok?
      ensures out.Pass? ==> fam.samples == old(fam.samples) + PerformanceRows(fb.api, k).value
      ensures out.Fail? ==> out.error == PerformanceRows(fb.api, k).error
    {
      var cols := PerformanceSpecs[k].layout.cols;
      var i := 0;
      while i < |protocols|
        invariant 0 <= i <= |protocols|
        invariant fb.ProtocolsValid()
        invariant ProtocolRows(fb.api, cols, protocols[..i]).Ok?
        invariant fam.samples == old(fam.samples) + ProtocolRows(fb.api, cols, protocols[..i]).value
      {
        ProtocolRowsStep(fb.api, cols, protocols, i);
        ghost var front := ProtocolRows(fb.api, cols, protocols[..i]).value;
        out := FillProtocol(fam, cols, protocols[i]);
        if out.Fail? {
          ProtocolRowsStop(fb.api, cols, protocols, i + 1);
          return;
        }
        ConcatAssoc(old(fam.samples), front, ProtocolCells(fb.api, cols, protocols[i]).value);
        i := i + 1;
      }
      assert protocols[..i] == protocols;
      out := Pass;
    }

    /** `get_metrics`: latency, iops, operation size, throughput; the first failing method
      * aborts. Only the per-protocol caches are touched. */
    method GetMetrics() returns (r: Result<seq<Snapshot>>)
      requires fb.Valid() && Declared()
      modifies latency, iops, opsSize, throughput, fb`arrayPerformance, fb`fetches
      ensures fb.Valid() && (old(fb.Settled()) ==> fb.Settled())
      ensures r == Grow(old(Samples()), ProtocolFamilies(fb.api, PerformanceSpecs))
    {
      r := FourMethods(Samples());
      fb.ProtocolsRefilled();
    }

    method FourMethods(ghost before: seq<seq<Sample>>) returns (r: Result<seq<Snapshot>>)
      requires fb.ProtocolsValid() && Declared() && before == Samples()
      modifies latency, iops, opsSize, throughput, fb`arrayPerformance, fb`fetches
      ensures fb.ProtocolsValid()
      ensures r == Grow(before, ProtocolFamilies(fb.api, PerformanceSpecs))
    {
      var o := Fill(latency, 0);
      if o.Fail? {
        FourFamiliesFail(fb.api, 0);
        return Err(o.error);
      }
      r := AfterLatency(before);
    }

    /** The methods after `_latency`. */
    method AfterLatency(ghost before: seq<seq<Sample>>) returns (r: Result<seq<Snapshot>>)
      requires fb.ProtocolsValid() && Declared() && |before| == 4
      requires PerformanceRows(fb.api, 0).Ok?
      requires latency.samples == before[0] + PerformanceRows(fb.api, 0).value
      requires iops.samples == before[1] && opsSize.samples == before[2] && throughput.samples == before[3]
      modifies iops, opsSize, throughput, fb`arrayPerformance, fb`fetches
      ensures fb.ProtocolsValid()
      ensures r == Grow(before, ProtocolFamilies(fb.api, PerformanceSpecs))
    {
      var o := Fill(iops, 1);
      if o.Fail? {
        FourFamiliesFail(fb.api, 1);
        return Err(o.error);
      }
      o := Fill(opsSize, 2);
      if o.Fail? {
        FourFamiliesFail(fb.api, 2);
        return Err(o.error);
      }
      o := Fill(throughput, 3);
      if o.Fail? {
        FourFamiliesFail(fb.api, 3);
        return Err(o.error);
      }
      r := Ok([latency.Snap(), iops.Snap(), opsSize.Snap(), throughput.Snap()]);
      PerformanceGrown(fb.api, before, r.value);
    }
  }

  /** The families of a successful run appended to what earlier runs left in them. */
  function Grow(before: seq<seq<Sample>>, fs: Result<seq<Snapshot>>): Result<seq<Snapshot>>
  {
    if fs.Err? then Err(fs.error) else Ok(Grown(before, fs.value))
  }

  lemma {:induction false} FourProtocolFamilies(api: FbApi)
    ensures ProtocolFamilies(api, PerformanceSpecs) ==
              Chain(Chain(Chain(Chain(Ok([]),
                AsPart(ProtocolFamily(api, PerformanceSpecs[0]))),
                AsPart(ProtocolFamily(api, PerformanceSpecs[1]))),
                AsPart(ProtocolFamily(api, PerformanceSpecs[2]))),
                AsPart(ProtocolFamily(api, PerformanceSpecs[3])))
  {
    var s := PerformanceSpecs;
    assert s[..1][..0] == s[..0] && s[..2][..1] == s[..1] && s[..3][..2] == s[..2] && s[..4][..3] == s[..3];
    assert ProtocolFamilies(api, s[..1]) == Chain(Ok([]), AsPart(ProtocolFamily(api, s[0])));
    assert ProtocolFamilies(api, s[..2]) == Chain(ProtocolFamilies(api, s[..1]), AsPart(ProtocolFamily(api, s[1])));
    assert ProtocolFamilies(api, s[..3]) == Chain(ProtocolFamilies(api, s[..2]), AsPart(ProtocolFamily(api, s[2])));
    assert s[..4] == s;
  }

  /** The rows of the k-th performance family. */
  function PerformanceRows(api: FbApi, k: nat): Result<seq<Sample>>
    requires k < 4
  {
    ProtocolRows(api, PerformanceSpecs[k].layout.cols, PerformanceOrder)
  }

  /** The first performance family whose loop fails makes the builder fail with its failure. */
  lemma {:induction false} FourFamiliesFail(api: FbApi, k: nat)
    requires k < 4 && PerformanceRows(api, k).Err?
    requires k > 0 ==> PerformanceRows(api, 0).Ok?
    requires k > 1 ==> PerformanceRows(api, 1).Ok?
    requires k > 2 ==> PerformanceRows(api, 2).Ok?
    ensures ProtocolFamilies(api, PerformanceSpecs) == Err(PerformanceRows(api, k).error)
  {
    FourProtocolFamilies(api);
    FamilyOfRows(api, 0);
    FamilyOfRows(api, 1);
    FamilyOfRows(api, 2);
    FamilyOfRows(api, 3);
    if k > 0 {
      assert PerformanceRows(api, 0).Ok?;
    }
    if k > 1 {
      assert PerformanceRows(api, 1).Ok?;
    }
    if k > 2 {
      assert PerformanceRows(api, 2).Ok?;
    }
  }

  lemma FamilyOfRows(api: FbApi, k: nat)
    requires k < 4
    ensures AsPart(ProtocolFamily(api, PerformanceSpecs[k])) ==
              if PerformanceRows(api, k).Err? then Err(PerformanceRows(api, k).error)
              else Ok([Snapshot(PerformanceSpecs[k].name, PerformanceSpecs[k].labelKeys, PerformanceRows(api, k).value)])
  {
  }

  /** When every loop succeeds, each family gains its loop's samples. */
  lemma {:induction false} PerformanceGrown(api: FbApi, before: seq<seq<Sample>>, snaps: seq<Snapshot>)
    requires |before| == 4
    requires PerformanceRows(api, 0).Ok? && PerformanceRows(api, 1).Ok?
    requires PerformanceRows(api, 2).Ok? && PerformanceRows(api, 3).Ok?
    requires snaps == [Snapshot(PerformanceSpecs[0].name, PerformanceSpecs[0].labelKeys, before[0] + PerformanceRows(api, 0).value),
                       Snapshot(PerformanceSpecs[1].name, PerformanceSpecs[1].labelKeys, before[1] + PerformanceRows(api, 1).value),
                       Snapshot(PerformanceSpecs[2].name, PerformanceSpecs[2].labelKeys, before[2] + PerformanceRows(api, 2).value),
                       Snapshot(PerformanceSpecs[3].name, PerformanceSpecs[3].labelKeys, before[3] + PerformanceRows(api, 3).value)]
    ensures Grow(before, ProtocolFamilies(api, PerformanceSpecs)) == Ok(snaps)
  {
    FourProtocolFamilies(api);
    FamilyOfRows(api, 0);
    FamilyOfRows(api, 1);
    FamilyOfRows(api, 2);
    FamilyOfRows(api, 3);
    GrownFour(before, ProtocolFamilies(api, PerformanceSpecs).value, snaps);
  }

  /** Four families that each kept their earlier samples and gained one run's. */
  lemma {:induction false} GrownFour(before: seq<seq<Sample>>, fs: seq<Snapshot>, snaps: seq<Snapshot>)
    requires |before| == 4 && |fs| == 4 && |snaps| == 4
    requires forall k :: 0 <= k < 4 ==> snaps[k] == Snapshot(fs[k].name, fs[k].labelKeys, before[k] + fs[k].samples)
    ensures snaps == Grown(before, fs)
  {
  }

  /** The performance builder fails exactly when one of the four protocol fetches fails. */
  lemma {:induction false} PerformanceSucceeds(api: FbApi)
    ensures ProtocolFamilies(api, PerformanceSpecs).Ok? <==>
              forall i :: 0 <= i < |PerformanceOrder| ==> ArrayPerformanceOf(api, PerformanceOrder[i]).Ok?
  {
    FourProtocolFamilies(api);
    ProtocolRowsSucceed(api, LatencyLines, PerformanceOrder);
    ProtocolRowsSucceed(api, IopsLines, PerformanceOrder);
    ProtocolRowsSucceed(api, OpsSizeLines, PerformanceOrder);
    ProtocolRowsSucceed(api, ThroughputLines, PerformanceOrder);
  }

  // ---------------------------------------------------------------- protocol-specific performance

  /** One protocol's run of `add_metric` lines in a specific-performance method. */
  datatype Run = Run(proto: string, lines: seq<Column>)

  const NfsLatencyLines := [
    Column(["file_metadata_create"], "aggregate_usec_per_file_metadata_create_op", PassThrough),
    Column(["file_metadata_modify"], "aggregate_usec_per_file_metadata_modify_op", PassThrough),
    Column(["file_metadata_read"], "aggregate_usec_per_file_metadata_read_op", PassThrough),
    Column(["share_metadata_read"], "aggregate_usec_per_share_metadata_read_op", PassThrough),
    Column(["acces"], "usec_per_access_op", PassThrough),
    Column(["create"], "usec_per_create_op", PassThrough),
    Column(["fsinfo"], "usec_per_fsinfo_op", PassThrough),
    Column(["fsstat"], "usec_per_fsstat_op", PassThrough),
    Column(["getattr"], "usec_per_getattr_op", PassThrough),
    Column(["link"], "usec_per_link_op", PassThrough),
    Column(["lookup"], "usec_per_lookup_op", PassThrough),
    Column(["mkdir"], "usec_per_mkdir_op", PassThrough),
    Column(["pathconf"], "usec_per_pathconf_op", PassThrough),
    Column(["read"], "usec_per_read_op", PassThrough),
    Column(["readdir"], "usec_per_readdir_op", PassThrough),
    Column(["readdirplus"], "usec_per_readdirplus_op", PassThrough),
    Column(["readlink"], "usec_per_readlink_op", PassThrough),
    Column(["remove"], "usec_per_remove_op", PassThrough),
    Column(["rename"], "usec_per_rename_op", PassThrough),
    Column(["rmdir"], "usec_per_rmdir_op", PassThrough),
    Column(["setattr"], "usec_per_setattr_op", PassThrough),
    Column(["symlink"], "usec_per_symlink_op", PassThrough),
    Column(["write"], "usec_per_write_op", PassThrough)]

  const HttpLatencyLines := [
    Column(["read_dir"], "usec_per_read_dir_op", PassThrough),
    Column(["write_dir"], "usec_per_write_dir_op", PassThrough),
    Column(["read_file"], "usec_per_read_file_op", PassThrough),
    Column(["write_file"], "usec_per_write_file_op", PassThrough),
    Column(["other"], "usec_per_other_op", PassThrough)]

  const S3LatencyLines := [
    Column(["other"], "usec_per_other_op", PassThrough),
    Column(["read_bucket"], "usec_per_read_bucket_op", PassThrough),
    Column(["read_object"], "usec_per_read_object_op", PassThrough),
    Column(["write_bucket"], "usec_per_write_bucket_op", PassThrough),
    Column(["write_object"], "usec_per_write_object_op", PassThrough)]

  const NfsIopsLines := [
    Column(["file_metadata_creates"], "aggregate_file_metadata_creates_per_sec", PassThrough),
    Column(["file_metadata_modifies"], "aggregate_file_metadata_modifies_per_sec", PassThrough),
    Column(["file_metadata_reads"], "aggregate_file_metadata_reads_per_sec", PassThrough),
    Column(["share_metadata_reads"], "aggregate_share_metadata_reads_per_sec", PassThrough),
    Column(["accesses"], "accesses_per_sec", PassThrough),
    Column(["creates"], "creates_per_sec", PassThrough),
    Column(["fsinfos"], "fsinfos_per_sec", PassThrough),
    Column(["fsstats"], "fsstats_per_sec", PassThrough),
    Column(["getattrs"], "getattrs_per_sec", PassThrough),
    Column(["links"], "links_per_sec", PassThrough),
    Column(["lookups"], "lookups_per_sec", PassThrough),
    Column(["mkdirs"], "mkdirs_per_sec", PassThrough),
    Column(["pathconfs"], "pathconfs_per_sec", PassThrough),
    Column(["readdirpluses"], "readdirpluses_per_sec", PassThrough),
    Column(["readdirs"], "readdirs_per_sec", PassThrough),
    Column(["readlinks"], "readlinks_per_sec", PassThrough),
    Column(["reads"], "reads_per_sec", PassThrough),
    Column(["removes"], "removes_per_sec", PassThrough),
    Column(["renames"], "renames_per_sec", PassThrough),
    Column(["rmdirs"], "rmdirs_per_sec", PassThrough),
    Column(["setattrs"], "setattrs_per_sec", PassThrough),
    Column(["symlinks"], "symlinks_per_sec", PassThrough),
    Column(["writes"], "writes_per_sec", PassThrough)]

  const HttpIopsLines := [
    Column(["others"], "others_per_sec", PassThrough),
    Column(["read_dirs"], "read_dirs_per_sec", PassThrough),
    Column(["read_files"], "read_files_per_sec", PassThrough),
    Column(["write_dirs"], "write_dirs_per_sec", PassThrough),
    Column(["write_files"], "write_files_per_sec", PassThrough)]

  const S3IopsLines := [
    Column(["others"], "others_per_sec", PassThrough),
    Column(["read_buckets"], "read_buckets_per_sec", PassThrough),
    Column(["read_objects"], "read_objects_per_sec", PassThrough),
    Column(["write_buckets"], "write_buckets_per_sec", PassThrough),
    Column(["write_objects"], "write_objects_per_sec", PassThrough)]

  const LatencyRuns := [Run("nfs", NfsLatencyLines), Run("http", HttpLatencyLines), Run("s3", S3LatencyLines)]
  const IopsRuns := [Run("nfs", NfsIopsLines), Run("http", HttpIopsLines), Run("s3", S3IopsLines)]

  const SpecificLatencyName := "purefb_array_specific_performance_latency_usec"
  const SpecificIopsName := "purefb_array_specific_performance_iops"

  /** One run: the protocol's specific record read line by line. A `None` record fails on
    * its first attribute read. */
  function RunRows(api: FbApi, run: Run): Result<seq<Sample>>
  {
    match ArraySpecificPerformanceOf(api, run.proto)
    case Err(f) => Err(f)
    case Ok(m) => if m.None? then Err(AttributeError) else Cells(m.value, [run.proto], run.lines, ByAttr)
  }

  /** The runs in order; the first that fails aborts. */
  function SpecificRows(api: FbApi, runs: seq<Run>): Result<seq<Sample>>
  {
    if |runs| == 0 then Ok([])
    else Then(SpecificRows(api, runs[..|runs| - 1]), RunRows(api, runs[|runs| - 1]))
  }

  function SpecificFamily(api: FbApi, name: string, runs: seq<Run>): Result<Snapshot>
  {
    var rows := SpecificRows(api, runs);
    if rows.Err? then Err(rows.error) else Ok(Snapshot(name, ["protocol", "dimension"], rows.value))
  }

  /** The latency family from one list of runs, then the iops family from another. */
  function SpecificPair(api: FbApi, latencyRuns: seq<Run>, iopsRuns: seq<Run>): Result<seq<Snapshot>>
  {
    Chain(AsPart(SpecificFamily(api, SpecificLatencyName, latencyRuns)), AsPart(SpecificFamily(api, SpecificIopsName, iopsRuns)))
  }

  /** One run of `ArraySpecificPerformanceMetrics`. */
  function SpecificOutput(api: FbApi): Result<seq<Snapshot>>
  {
    SpecificPair(api, LatencyRuns, IopsRuns)
  }

  lemma {:induction false} ThreeRuns(api: FbApi, runs: seq<Run>)
    requires |runs| == 3
    ensures SpecificRows(api, runs) == Then(Then(Then(Ok([]), RunRows(api, runs[0])), RunRows(api, runs[1])), RunRows(api, runs[2]))
  {
    assert runs[..1][..0] == runs[..0] && runs[..2][..1] == runs[..1] && runs[..3][..2] == runs[..2];
    assert SpecificRows(api, runs[..1]) == Then(Ok([]), RunRows(api, runs[0]));
    assert SpecificRows(api, runs[..2]) == Then(SpecificRows(api, runs[..1]), RunRows(api, runs[1]));
    assert runs[..3] == runs;
  }

  /** The nfs latency lines are the nfs latency table, entry for entry in table order. */
  lemma NfsLatencyFollowsTable()
    ensures NfsLatencyLines == ColumnsOf(NfsSpecificLatency, PassThrough)
  {
  }

  /** The nfs iops lines are the nfs iops table, entry for entry in table order. */
  lemma NfsIopsFollowsTable()
    ensures NfsIopsLines == ColumnsOf(NfsSpecificIops, PassThrough)
  {
  }

  /** The http and s3 lines are their tables, entry for entry in table order. */
  lemma HttpS3FollowTables()
    ensures HttpLatencyLines == ColumnsOf(HttpSpecificLatency, PassThrough)
    ensures S3LatencyLines == ColumnsOf(S3SpecificLatency, PassThrough)
    ensures HttpIopsLines == ColumnsOf(HttpSpecificIops, PassThrough)
    ensures S3IopsLines == ColumnsOf(S3SpecificIops, PassThrough)
  {
  }

  /** The specific builder fails exactly when one of the nfs, http, s3 listings does; then
    * each family holds the nfs run (23 samples), the http run (5) and the s3 run (5), each
    * sample labelled with its protocol and its table dimension and carrying the field as read. */
  lemma {:induction false} SpecificShape(api: FbApi, name: string, runs: seq<Run>)
    requires runs == LatencyRuns || runs == IopsRuns
    ensures SpecificFamily(api, name, runs).Ok? <==>
              First(api.nfsSpecific).Ok? && First(api.httpSpecific).Ok? && First(api.s3Specific).Ok?
    ensures SpecificFamily(api, name, runs).Ok? ==>
              Ok(SpecificFamily(api, name, runs).value.samples) ==
                Then(Then(Cells(First(api.nfsSpecific).value, ["nfs"], runs[0].lines, ByAttr),
                          Cells(First(api.httpSpecific).value, ["http"], runs[1].lines, ByAttr)),
                     Cells(First(api.s3Specific).value, ["s3"], runs[2].lines, ByAttr)) &&
              |SpecificFamily(api, name, runs).value.samples| == 33
  {
    ThreeRuns(api, runs);
    if First(api.nfsSpecific).Ok? {
      CellsSucceed(First(api.nfsSpecific).value, ["nfs"], runs[0].lines, ByAttr);
      CellsShape(First(api.nfsSpecific).value, ["nfs"], runs[0].lines, ByAttr);
    }
    if First(api.httpSpecific).Ok? {
      CellsSucceed(First(api.httpSpecific).value, ["http"], runs[1].lines, ByAttr);
      CellsShape(First(api.httpSpecific).value, ["http"], runs[1].lines, ByAttr);
    }
    if First(api.s3Specific).Ok? {
      CellsSucceed(First(api.s3Specific).value, ["s3"], runs[2].lines, ByAttr);
      CellsShape(First(api.s3Specific).value, ["s3"], runs[2].lines, ByAttr);
    }
    assert Then(Ok([]), RunRows(api, runs[0])) == RunRows(api, runs[0]) by {
      if RunRows(api, runs[0]).Ok? {
        assert [] + RunRows(api, runs[0]).value == RunRows(api, runs[0]).value;
      }
    }
  }

  /** `ArraySpecificPerformanceMetrics`: each method makes a fresh family, so a run never
    * sees the samples of an earlier one. */
  class ArraySpecificPerformanceMetrics {
    const fb: FlashBlade
    /** The `add_metric` runs of `_latency` and of `_iops`. */
    const latencyRuns: seq<Run>
    const iopsRuns: seq<Run>
    var latency: MetricFamily?
    var iops: MetricFamily?

    constructor (fb: FlashBlade)
      ensures this.fb == fb && latency == null && iops == null
      ensures latencyRuns == LatencyRuns && iopsRuns == IopsRuns
    {
      this.fb := fb;
      latencyRuns, iopsRuns := LatencyRuns, IopsRuns;
      latency, iops := null, null;
    }

    /** One block of `add_metric` lines: fetch the protocol's record and read the run's fields. */
    method EmitRun(fam: MetricFamily, run: Run) returns (out: Outcome)
      requires fb.ProtocolsValid()
      modifies fam, fb`arraySpecificPerf, fb`fetches
      ensures fb.ProtocolsValid()
      ensures out.Pass? <==> RunRows(fb.api, run).Ok?
      ensures out.Pass? ==> fam.samples == old(fam.samples) + RunRows(fb.api, run).value
      ensures out.Fail? ==> out.error == RunRows(fb.api, run).error
    {
      var m := fb.GetArraySpecificPerformance(run.proto);
      if m.Err? {
        return Fail(m.error);
      }
      if m.value.None? {
        return Fail(AttributeError);
      }
      out := EmitEntity(fam, Layout([run.proto], [], run.lines, ByAttr), m.value.value);
      assert [run.proto] + [] == [run.proto];
    }

    /** `_latency` and `_iops`: a fresh family filled with the nfs, http and s3 runs. */
    method FreshFamily(name: string, runs: seq<Run>) returns (fam: MetricFamily, out: Outcome)
      requires fb.ProtocolsValid() && |runs| == 3
      modifies fb`arraySpecificPerf, fb`fetches
      ensures fb.ProtocolsValid() && fresh(fam)
      ensures out.Pass? <==> SpecificFamily(fb.api, name, runs).Ok?
      ensures out.Pass? ==> Ok(fam.Snap()) == SpecificFamily(fb.api, name, runs)
      ensures out.Fail? ==> out.error == SpecificFamily(fb.api, name, runs).error
    {
      ThreeRuns(fb.api, runs);
      ghost var a, b, c := RunRows(fb.api, runs[0]), RunRows(fb.api, runs[1]), RunRows(fb.api, runs[2]);
      fam := new MetricFamily(name, ["protocol", "dimension"]);
      out := EmitRun(fam, runs[0]);
      if out.Fail? {
        return;
      }
      assert Then(Ok([]), a) == a by {
        assert [] + a.value == a.value;
      }
      out := EmitRun(fam, runs[1]);
      if out.Fail? {
        return;
      }
      assert fam.samples == a.value + b.value;
      out := EmitRun(fam, runs[2]);
      if out.Fail? {
        return;
      }
      assert fam.samples == a.value + b.value + c.value;
    }

    /** `get_metrics`: latency, then iops; the first failing method aborts. Only the
      * per-protocol caches are touched. */
    method GetMetrics() returns (r: Result<seq<Snapshot>>)
      requires fb.Valid() && |latencyRuns| == 3 && |iopsRuns| == 3
      modifies this`latency, this`iops, fb`arraySpecificPerf, fb`fetches
      ensures fb.Valid() && (old(fb.Settled()) ==> fb.Settled())
      ensures r == SpecificPair(fb.api, latencyRuns, iopsRuns)
    {
      r := BothMethods();
      fb.ProtocolsRefilled();
    }

    method BothMethods() returns (r: Result<seq<Snapshot>>)
      requires fb.ProtocolsValid() && |latencyRuns| == 3 && |iopsRuns| == 3
      modifies this`latency, this`iops, fb`arraySpecificPerf, fb`fetches
      ensures fb.ProtocolsValid()
      ensures r == SpecificPair(fb.api, latencyRuns, iopsRuns)
    {
      var o;
      latency, o := FreshFamily(SpecificLatencyName, latencyRuns);
      if o.Fail? {
        return Err(o.error);
      }
      ghost var l := latency.Snap();
      iops, o := FreshFamily(SpecificIopsName, iopsRuns);
      if o.Fail? {
        return Err(o.error);
      }
      assert latency.Snap() == l;
      r := Ok([latency.Snap(), iops.Snap()]);
      assert [l] + [iops.Snap()] == r.value;
    }
  }
}
