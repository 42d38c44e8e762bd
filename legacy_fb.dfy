/** The first-generation FlashBlade collector: generators over one PurityFb session that yield
  * gauge families, the bucket and filesystem ones once per loop iteration. The helpers and
  * reference functions here also serve the single-array collector that adds the array
  * name as a leading label. */
module LegacyFb {
  import opened Records
  import opened Families
  import FbArray
  import FbSource

  /** What the session's list calls return. */
  datatype FbSession = FbSession(
    arrays: Reply<seq<Record>>,             // arrays.list_arrays()
    hardware: Reply<seq<Record>>,           // hardware.list_hardware()
    openAlerts: Reply<seq<Record>>,         // alerts.list_alerts(filter="state='open'")
    arraysSpace: Reply<seq<Record>>,        // arrays.list_arrays_space()
    buckets: Reply<seq<Record>>,            // buckets.list_buckets()
    fileSystems: Reply<seq<Record>>,        // file_systems.list_file_systems()
    performance: Reply<seq<Record>>,        // arrays.list_arrays_performance()
    protocolPerformance: map<string, Reply<seq<Record>>>)  // the same call with `protocol=p`

  /** No family occurs twice in the list. */
  predicate Distinct(fams: seq<MetricFamily>)
  {
    forall i, j :: 0 <= i < |fams| && 0 <= j < |fams| && i != j ==> fams[i] != fams[j]
  }

  /** Fresh, empty families with the given names, in declaration order. */
  method NewFamilies(names: seq<string>, keys: seq<string>) returns (fams: seq<MetricFamily>)
    ensures |fams| == |names| && Distinct(fams)
    ensures forall k :: 0 <= k < |fams| ==> fresh(fams[k])
    ensures forall k :: 0 <= k < |fams| ==> fams[k].name == names[k] && fams[k].labelKeys == keys && fams[k].samples == []
  {
    fams := [];
    for k := 0 to |names|
      invariant |fams| == k && Distinct(fams)
      invariant forall j :: 0 <= j < k ==> fresh(fams[j])
      invariant forall j :: 0 <= j < k ==> fams[j].name == names[j] && fams[j].labelKeys == keys && fams[j].samples == []
    {
      var f := new MetricFamily(names[k], keys);
      fams := fams + [f];
    }
  }

  /** The `add_metric` calls of one record: family `k` receives attribute `fields[k]`, all
    * under the same label values. */
  method AddRow(fams: seq<MetricFamily>, labels: seq<string>, rec: Record, fields: seq<string>)
    requires |fams| == |fields| && Distinct(fams)
    modifies set f | f in fams
    ensures forall k :: 0 <= k < |fams| ==> fams[k].samples == old(fams[k].samples) + [Sample(labels, Attr(rec, fields[k]))]
  {
    for j := 0 to |fams|
      invariant forall k :: 0 <= k < j ==> fams[k].samples == old(fams[k].samples) + [Sample(labels, Attr(rec, fields[k]))]
      invariant forall k :: j <= k < |fams| ==> fams[k].samples == old(fams[k].samples)
    {
      fams[j].AddMetric(labels, Attr(rec, fields[j]));
    }
  }

  /** `yield` of each family in turn: what a consumer sees is each family as it stands. */
  method SnapAll(fams: seq<MetricFamily>) returns (snaps: seq<Snapshot>)
    ensures |snaps| == |fams|
    ensures forall k :: 0 <= k < |fams| ==> snaps[k] == fams[k].Snap()
  {
    snaps := [];
    for k := 0 to |fams|
      invariant |snaps| == k
      invariant forall j :: 0 <= j < k ==> snaps[j] == fams[j].Snap()
    {
      snaps := snaps + [fams[k].Snap()];
    }
  }

  // ---------------------------------------------------------------- array_hw

  /** `unused` and `not_installed` give -1, `healty` (sic) gives 1, any other status 0. */
  function HwState(h: Record): Value
  {
    var state := Attr(h, "status");
    if state == Str("unused") || state == Str("not_installed") then Num(-1)
    else if state == Str("healty") then Num(1)
    else Num(0)
  }

  /** The status samples of the listed components, each labelled `lead + [name]`. */
  function HwSamples(lead: seq<string>, hw: seq<Record>): (r: seq<Sample>)
    ensures |r| == |hw|
  {
    if |hw| == 0 then []
    else
      var n := |hw| - 1;
      HwSamples(lead, hw[..n]) + [Sample(lead + [Text(Attr(hw[n], "name"))], HwState(hw[n]))]
  }

  /** Every component is reported, in list order, under its own name, with -1, 0 or 1. */
  lemma {:induction false} HwSamplesAt(lead: seq<string>, hw: seq<Record>, i: nat)
    requires i < |hw|
    ensures HwSamples(lead, hw)[i] == Sample(lead + [Text(Attr(hw[i], "name"))], HwState(hw[i]))
    ensures HwState(hw[i]) == Num(-1) || HwState(hw[i]) == Num(0) || HwState(hw[i]) == Num(1)
  {
    var n := |hw| - 1;
    if i < n {
      assert hw[..n][i] == hw[i];
      HwSamplesAt(lead, hw[..n], i);
    }
  }

  /** With a leading label, every sample is the unlabelled-collector sample with that label
    * put in front. */
  lemma {:induction false} HwSamplesLead(lead: seq<string>, hw: seq<Record>, i: nat)
    requires i < |hw|
    ensures HwSamples(lead, hw)[i] == Sample(lead + HwSamples([], hw)[i].labels, HwSamples([], hw)[i].value)
  {
    HwSamplesAt(lead, hw, i);
    HwSamplesAt([], hw, i);
    assert [] + [Text(Attr(hw[i], "name"))] == [Text(Attr(hw[i], "name"))];
  }

  /** Unlike the current FlashBlade builder, which drops unused components and reports
    * `healthy` as 1, the legacy loop reports unused ones as -1 and, because of the `healty`
    * spelling, a healthy one as 0. */
  lemma StatusDisagreement(h: Record)
    ensures FbArray.Unused(h) <==> HwState(h) == Num(-1)
    ensures Attr(h, "status") == Str("healthy") ==> HwState(h) == Num(0) && FbArray.StatusSample(h).value == Num(1)
    ensures Attr(h, "status") == Str("healty") ==> HwState(h) == Num(1) && FbArray.StatusSample(h).value == Num(0)
  {
  }

  /** Over a whole listing of healthy components, both builders report every component under
    * the same label, in the same order, with opposite values: 0 here, 1 in the current one. */
  lemma {:induction false} HealthyListingReversed(hw: seq<Record>)
    requires forall i :: 0 <= i < |hw| ==> Attr(hw[i], "status") == Str("healthy")
    ensures |FbArray.HardwareSamples(hw)| == |HwSamples([], hw)| == |hw|
    ensures forall i :: 0 <= i < |hw| ==>
              FbArray.HardwareSamples(hw)[i].labels == HwSamples([], hw)[i].labels &&
              HwSamples([], hw)[i].value == Num(0) && FbArray.HardwareSamples(hw)[i].value == Num(1)
  {
    if |hw| > 0 {
      var n := |hw| - 1;
      HealthyListingReversed(hw[..n]);
      assert !FbArray.Unused(hw[n]);
      assert [] + [Text(Attr(hw[n], "name"))] == [Text(Attr(hw[n], "name"))];
    }
  }

  /** The hardware family. */
  function HwFamily(keys: seq<string>, lead: seq<string>, hw: seq<Record>): Snapshot
  {
    Snapshot("pure_fb_hw_status", keys + ["hw_id"], HwSamples(lead, hw))
  }

  // ---------------------------------------------------------------- array_events

  /** The critical, warning and info counts, in that order, each labelled `lead + [severity]`. */
  function EventSamples(lead: seq<string>, alerts: seq<Record>): seq<Sample>
  {
    [Sample(lead + ["critical"], Num(FbArray.SeverityCount(alerts, "critical"))),
     Sample(lead + ["warning"], Num(FbArray.SeverityCount(alerts, "warning"))),
     Sample(lead + ["info"], Num(FbArray.SeverityCount(alerts, "info")))]
  }

  /** Without a leading label the legacy counts are the current builder's. */
  lemma EventsAsCurrent(alerts: seq<Record>)
    ensures EventSamples([], alerts) == FbArray.EventSamples(alerts)
  {
    assert [] + ["critical"] == ["critical"] && [] + ["warning"] == ["warning"] && [] + ["info"] == ["info"];
  }

  /** The counting loop of `array_events`: three independent tests per alert. */
  method CountSeverities(alerts: seq<Record>) returns (critical: nat, warning: nat, info: nat)
    ensures critical == FbArray.SeverityCount(alerts, "critical")
    ensures warning == FbArray.SeverityCount(alerts, "warning")
    ensures info == FbArray.SeverityCount(alerts, "info")
  {
    critical, warning, info := 0, 0, 0;
    for i := 0 to |alerts|
      invariant critical == FbArray.SeverityCount(alerts[..i], "critical")
      invariant warning == FbArray.SeverityCount(alerts[..i], "warning")
      invariant info == FbArray.SeverityCount(alerts[..i], "info")
    {
      assert alerts[..i + 1][..i] == alerts[..i];
      var severity := Attr(alerts[i], "severity");
      if severity == Str("critical") {
        critical := critical + 1;
      }
      if severity == Str("warning") {
        warning := warning + 1;
      }
      if severity == Str("info") {
        info := info + 1;
      }
    }
    assert alerts[..|alerts|] == alerts;
  }

  /** The events family. */
  function EventsFamily(keys: seq<string>, lead: seq<string>, alerts: seq<Record>): Snapshot
  {
    Snapshot("pure_fb_open_events_total", keys + ["severity"], EventSamples(lead, alerts))
  }

  // ---------------------------------------------------------------- array_space

  const SpaceNames: seq<string> := ["pure_fb_space_tot_capacity_bytes", "pure_fb_space_data_reduction",
                                    "pure_fb_space_tot_physical_bytes", "pure_fb_space_tot_snapshot_bytes"]
  const SpaceFields: seq<string> := ["capacity", "space.data_reduction", "space.total_physical", "space.snapshots"]

  /** The four array space families, one sample each, read from the first space record. */
  function SpaceFamilies(keys: seq<string>, lead: seq<string>, rec: Record): (r: seq<Snapshot>)
  {
    seq(|SpaceNames|, k requires 0 <= k < |SpaceNames| => Snapshot(SpaceNames[k], keys, [Sample(lead, Attr(rec, SpaceFields[k]))]))
  }

  /** Capacity, data reduction, physical and snapshot space, each passed on as read: unlike
    * the bucket and filesystem loops, a `None` data reduction is not replaced. */
  lemma SpaceValues(keys: seq<string>, lead: seq<string>, rec: Record)
    ensures |SpaceFamilies(keys, lead, rec)| == 4
    ensures SpaceFamilies(keys, lead, rec)[0] == Snapshot("pure_fb_space_tot_capacity_bytes", keys, [Sample(lead, Attr(rec, "capacity"))])
    ensures SpaceFamilies(keys, lead, rec)[1] == Snapshot("pure_fb_space_data_reduction", keys, [Sample(lead, Attr(rec, "space.data_reduction"))])
    ensures SpaceFamilies(keys, lead, rec)[2] == Snapshot("pure_fb_space_tot_physical_bytes", keys, [Sample(lead, Attr(rec, "space.total_physical"))])
    ensures SpaceFamilies(keys, lead, rec)[3] == Snapshot("pure_fb_space_tot_snapshot_bytes", keys, [Sample(lead, Attr(rec, "space.snapshots"))])
  {
  }

  // ---------------------------------------------------------------- buckets_space, filesystems_space

  /** A loop over listed items: one family per attribute, label values read from `labelAttrs`. */
  datatype Table = Table(names: seq<string>, keys: seq<string>, labelAttrs: seq<string>, fields: seq<string>)

  predicate WellFormed(t: Table)
  {
    |t.names| == |t.fields|
  }

  /** `buckets_space`, under the given leading label keys. */
  function BucketsTable(keys: seq<string>): Table
  {
    Table(["pure_fb_buckets_data_reduction", "pure_fb_buckets_object_count", "pure_fb_buckets_snapshots_bytes",
           "pure_fb_buckets_total_bytes", "pure_fb_buckets_virtual_bytes", "pure_fb_buckets_unique_bytes"],
          keys + ["account", "name"], ["account.name", "name"],
          ["space.data_reduction", "object_count", "space.snapshots", "space.total_physical", "space.virtual", "space.unique"])
  }

  /** `filesystems_space`. */
  const FilesystemsTable: Table :=
    Table(["pure_fb_filesystems_data_reduction", "pure_fb_filesystems_snapshots_bytes", "pure_fb_filesystems_total_bytes",
           "pure_fb_filesystems_virtual_bytes", "pure_fb_filesystems_unique_bytes"],
          ["name"], ["name"],
          ["space.data_reduction", "space.snapshots", "space.total_physical", "space.virtual", "space.unique"])

  /** The record after `if x.space.data_reduction is None: x.space.data_reduction = 0`. */
  function Cleared(rec: Record): (r: Record)
    ensures Attr(r, "space.data_reduction") == OrZero(Attr(rec, "space.data_reduction"))
    ensures forall f :: f != "space.data_reduction" ==> Attr(r, f) == Attr(rec, f)
  {
    if Attr(rec, "space.data_reduction") == Null then rec["space.data_reduction" := Num(0)] else rec
  }

  /** The label values an item contributes. */
  function RowLabels(t: Table, rec: Record): (r: seq<string>)
  {
    seq(|t.labelAttrs|, j requires 0 <= j < |t.labelAttrs| => Text(Attr(rec, t.labelAttrs[j])))
  }

  /** The samples family `k` holds after the loop has handled `items`. */
  function FieldSamples(lead: seq<string>, t: Table, k: nat, items: seq<Record>): (r: seq<Sample>)
    requires k < |t.fields|
    ensures |r| == |items|
  {
    if |items| == 0 then []
    else
      var b := Cleared(items[|items| - 1]);
      FieldSamples(lead, t, k, items[..|items| - 1]) + [Sample(lead + RowLabels(t, b), Attr(b, t.fields[k]))]
  }

  /** What one round of `yield`s hands out after the loop has handled `items`. */
  function Frame(lead: seq<string>, t: Table, items: seq<Record>): (r: seq<Snapshot>)
    requires WellFormed(t)
  {
    seq(|t.names|, k requires 0 <= k < |t.names| => Snapshot(t.names[k], t.keys, FieldSamples(lead, t, k, items)))
  }

  /** Everything the loop yields: after each item, every family as it then stands. */
  function Yields(lead: seq<string>, t: Table, items: seq<Record>): seq<Snapshot>
    requires WellFormed(t)
  {
    if |items| == 0 then [] else Yields(lead, t, items[..|items| - 1]) + Frame(lead, t, items)
  }

  /** Family `k` holds one sample per item, in item order, labelled by the item and carrying
    * its attribute after the data reduction overwrite. */
  lemma {:induction false} FieldSamplesAt(lead: seq<string>, t: Table, k: nat, items: seq<Record>, i: nat)
    requires k < |t.fields| && i < |items|
    ensures FieldSamples(lead, t, k, items)[i] == Sample(lead + RowLabels(t, Cleared(items[i])), Attr(Cleared(items[i]), t.fields[k]))
  {
    var n := |items| - 1;
    if i < n {
      assert items[..n][i] == items[i];
      FieldSamplesAt(lead, t, k, items[..n], i);
    }
  }

  /** With a leading label, every sample is the unlabelled-collector sample with that label
    * put in front. */
  lemma {:induction false} FieldSamplesLead(lead: seq<string>, t: Table, k: nat, items: seq<Record>, i: nat)
    requires k < |t.fields| && i < |items|
    ensures FieldSamples(lead, t, k, items)[i]
            == Sample(lead + FieldSamples([], t, k, items)[i].labels, FieldSamples([], t, k, items)[i].value)
  {
    FieldSamplesAt(lead, t, k, items, i);
    FieldSamplesAt([], t, k, items, i);
    assert [] + RowLabels(t, Cleared(items[i])) == RowLabels(t, Cleared(items[i]));
  }

  /** The loop yields every family once per item, and nothing at all for an empty listing. */
  lemma {:induction false} YieldsSize(lead: seq<string>, t: Table, items: seq<Record>)
    requires WellFormed(t)
    ensures |Yields(lead, t, items)| == |items| * |t.names|
  {
    if |items| > 0 {
      var n := |items| - 1;
      YieldsSize(lead, t, items[..n]);
      assert |items| * |t.names| == n * |t.names| + |t.names|;
    }
  }

  /** What was yielded for the first `i` items is never taken back. */
  lemma {:induction false} YieldsPrefix(lead: seq<string>, t: Table, items: seq<Record>, i: nat)
    requires WellFormed(t) && i <= |items|
    ensures Yields(lead, t, items[..i]) <= Yields(lead, t, items)
    decreases |items| - i
  {
    if i < |items| {
      YieldsPrefix(lead, t, items, i + 1);
      assert items[..i + 1][..i] == items[..i];
    } else {
      assert items[..i] == items;
    }
  }

  /** The round of yields for item `i` follows everything yielded for the items before it
    * (`i * m` families, by YieldsSize) and hands out each family holding the samples of
    * items `0..i`. */
  lemma {:induction false} YieldAt(lead: seq<string>, t: Table, items: seq<Record>, i: nat, k: nat)
    requires WellFormed(t) && i < |items| && k < |t.names|
    ensures |Yields(lead, t, items[..i])| + k < |Yields(lead, t, items)|
    ensures Yields(lead, t, items)[|Yields(lead, t, items[..i])| + k]
            == Snapshot(t.names[k], t.keys, FieldSamples(lead, t, k, items[..i + 1]))
  {
    var pre := Yields(lead, t, items[..i]);
    var frame := Frame(lead, t, items[..i + 1]);
    assert items[..i + 1][..i] == items[..i];
    assert Yields(lead, t, items[..i + 1]) == pre + frame;
    YieldsPrefix(lead, t, items, i + 1);
    assert (pre + frame)[|pre| + k] == frame[k];
  }

  /** The bucket data reduction is read after the overwrite: `None` becomes 0, and every other
    * column is the attribute as read. */
  lemma {:induction false} BucketValues(keys: seq<string>, lead: seq<string>, items: seq<Record>, i: nat)
    requires i < |items|
    ensures FieldSamples(lead, BucketsTable(keys), 0, items)[i].value == OrZero(Attr(items[i], "space.data_reduction"))
    ensures FieldSamples(lead, BucketsTable(keys), 1, items)[i].value == Attr(items[i], "object_count")
    ensures FieldSamples(lead, BucketsTable(keys), 0, items)[i].labels
            == lead + [Text(Attr(items[i], "account.name")), Text(Attr(items[i], "name"))]
  {
    FieldSamplesAt(lead, BucketsTable(keys), 0, items, i);
    FieldSamplesAt(lead, BucketsTable(keys), 1, items, i);
    var b := Cleared(items[i]);
    assert RowLabels(BucketsTable(keys), b) == [Text(Attr(b, "account.name")), Text(Attr(b, "name"))];
  }

  // ---------------------------------------------------------------- _array_perf

  /** One performance family: the metric part of its name, the attribute it is fed, and
    * whether `pure_fb_perf` is followed by `_` in its name. */
  datatype PerfColumn = PerfColumn(metric: string, field: string, underscore: bool)

  /** The thirteen families in declaration and yield order. The `others_ops` name lacks the
    * underscore, the input IOPS family is named `output_ops` like the output one, and
    * `bytes_per_write` is fed `bytes_per_read`. */
  const PerfColumns: seq<PerfColumn> := [
    PerfColumn("bytes_per_op", "bytes_per_op", true),
    PerfColumn("bytes_per_read", "bytes_per_read", true),
    PerfColumn("bytes_per_write", "bytes_per_read", true),
    PerfColumn("rd_latency_usec", "usec_per_read_op", true),
    PerfColumn("wr_latency_usec", "usec_per_write_op", true),
    PerfColumn("others_latency_usec", "usec_per_other_op", true),
    PerfColumn("rd_ops", "reads_per_sec", true),
    PerfColumn("others_ops", "others_per_sec", false),
    PerfColumn("output_ops", "input_per_sec", true),
    PerfColumn("output_ops", "output_per_sec", true),
    PerfColumn("wr_ops", "writes_per_sec", true),
    PerfColumn("rd_bps", "read_bytes_per_sec", true),
    PerfColumn("wr_bps", "write_bytes_per_sec", true)]

  /** `{proto}{l_sep}`: empty without a protocol, `p_` with one. */
  function ProtoPart(proto: Option<string>): string
  {
    if proto.None? then "" else proto.value + "_"
  }

  /** The family name the f-string builds. */
  function PerfName(proto: Option<string>, col: PerfColumn): string
  {
    (if col.underscore then "pure_fb_perf_" else "pure_fb_perf") + ProtoPart(proto) + col.metric
  }

  function PerfNames(proto: Option<string>): (r: seq<string>)
    ensures |r| == |PerfColumns|
  {
    seq(|PerfColumns|, k requires 0 <= k < |PerfColumns| => PerfName(proto, PerfColumns[k]))
  }

  function PerfFields(): (r: seq<string>)
    ensures |r| == |PerfColumns|
  {
    seq(|PerfColumns|, k requires 0 <= k < |PerfColumns| => PerfColumns[k].field)
  }

  /** The thirteen families of one `_array_perf` run, one unlabelled sample each. */
  function PerfSnapshots(proto: Option<string>, rec: Record): seq<Snapshot>
  {
    seq(|PerfColumns|, k requires 0 <= k < |PerfColumns| =>
      Snapshot(PerfNames(proto)[k], [], [Sample([], Attr(rec, PerfFields()[k]))]))
  }

  const Protocols: seq<string> := ["http", "nfs", "s3", "smb"]

  /** `_fb_perf`: the protocol is passed to the call only when it is one of the four. */
  function PerfListing(s: FbSession, proto: Option<string>): Reply<seq<Record>>
  {
    if proto.Some? && proto.value in Protocols then FbSource.CallWith(s.protocolPerformance, proto.value)
    else s.performance
  }

  /** With and without a protocol, every name but `others_ops` reads `pure_fb_perf_` followed
    * by the protocol part and the metric; `others_ops` follows `pure_fb_perf` directly. */
  lemma PerfNameForms(proto: Option<string>)
    ensures forall k :: 0 <= k < |PerfColumns| && k != 7 ==>
              PerfNames(proto)[k] == "pure_fb_perf_" + ProtoPart(proto) + PerfColumns[k].metric
    ensures PerfNames(proto)[7] == "pure_fb_perf" + ProtoPart(proto) + "others_ops"
    ensures proto == None ==> PerfNames(proto)[7] == "pure_fb_perfothers_ops"
  {
    forall k | 0 <= k < |PerfColumns| && k != 7
      ensures PerfNames(proto)[k] == "pure_fb_perf_" + ProtoPart(proto) + PerfColumns[k].metric
    {
      assert PerfColumns[k].underscore;
    }
    assert "pure_fb_perf" + "" + "others_ops" == "pure_fb_perfothers_ops";
  }

  /** `a + x == a + y` only when `x == y`. */
  lemma CancelPrefix(a: string, x: string, y: string)
    requires a + x == a + y
    ensures x == y
  {
    assert x == (a + x)[|a|..];
    assert y == (a + y)[|a|..];
  }

  /** The metric parts differ between any two columns except the input and output IOPS. */
  lemma MetricsDiffer(i: nat, j: nat)
    requires i < j < |PerfColumns| && i != 7 && j != 7
    ensures PerfColumns[i].metric == PerfColumns[j].metric <==> i == 8 && j == 9
  {
    var m := PerfColumns[i].metric;
    var n := PerfColumns[j].metric;
    if !(i == 8 && j == 9) {
      assert |m| != |n| || m[0] != n[0] || m[3] != n[3];
    }
  }

  /** Two families of one run share a name exactly when they are the input and output IOPS
    * ones, whatever the protocol. */
  lemma PerfNamesClash(proto: Option<string>, i: nat, j: nat)
    requires i < j < |PerfColumns|
    ensures PerfNames(proto)[i] == PerfNames(proto)[j] <==> i == 8 && j == 9
  {
    PerfNameForms(proto);
    var p := ProtoPart(proto);
    if i == 7 || j == 7 {
      var other := if i == 7 then j else i;
      assert |PerfColumns[other].metric| != 9;
      assert |PerfNames(proto)[i]| != |PerfNames(proto)[j]|;
    } else {
      MetricsDiffer(i, j);
      if PerfNames(proto)[i] == PerfNames(proto)[j] {
        CancelPrefix("pure_fb_perf_" + p, PerfColumns[i].metric, PerfColumns[j].metric);
      }
    }
  }

  /** Every family gets one unlabelled sample; `bytes_per_write` repeats `bytes_per_read`,
    * and the two `output_ops` families carry the input and the output rate. */
  lemma PerfValues(proto: Option<string>, rec: Record)
    ensures |PerfSnapshots(proto, rec)| == 13
    ensures forall k :: 0 <= k < 13 ==> PerfSnapshots(proto, rec)[k].labelKeys == [] && |PerfSnapshots(proto, rec)[k].samples| == 1
    ensures PerfSnapshots(proto, rec)[2].samples == PerfSnapshots(proto, rec)[1].samples == [Sample([], Attr(rec, "bytes_per_read"))]
    ensures PerfSnapshots(proto, rec)[8].name == PerfSnapshots(proto, rec)[9].name
    ensures PerfSnapshots(proto, rec)[8].samples == [Sample([], Attr(rec, "input_per_sec"))]
    ensures PerfSnapshots(proto, rec)[9].samples == [Sample([], Attr(rec, "output_per_sec"))]
  {
  }

  /** A protocol outside the four reads the unfiltered performance but still names every
    * family after itself. */
  lemma UnknownProtocolUnfiltered(s: FbSession, p: string)
    requires p !in Protocols
    ensures PerfListing(s, Some(p)) == PerfListing(s, None)
    ensures PerfNames(Some(p))[0] == "pure_fb_perf_" + p + "_bytes_per_op"
    ensures PerfNames(None)[0] == "pure_fb_perf_bytes_per_op"
  {
    PerfNameForms(Some(p));
    PerfNameForms(None);
  }

  // ---------------------------------------------------------------- collect

  /** The generators `collect` runs. */
  datatype Generator = Hardware | Events | Space | BucketsSpace | FilesystemsSpace | Performance(proto: Option<string>)

  const CollectOrder: seq<Generator> := [
    Hardware, Events, Space, BucketsSpace, FilesystemsSpace, Performance(None), Performance(Some("http")),
    Performance(Some("nfs")), Performance(Some("smb")), Performance(Some("s3"))]

  /** What one generator yields, or the exception it raises. */
  function Output(s: FbSession, g: Generator): Result<seq<Snapshot>>
  {
    match g
    case Hardware => (match Listing(s.hardware) case Err(f) => Err(f) case Ok(hw) => Ok([HwFamily([], [], hw)]))
    case Events => (match Listing(s.openAlerts) case Err(f) => Err(f) case Ok(alerts) => Ok([EventsFamily([], [], alerts)]))
    case Space => (match First(s.arraysSpace) case Err(f) => Err(f) case Ok(rec) => Ok(SpaceFamilies([], [], rec)))
    case BucketsSpace => (match Listing(s.buckets) case Err(f) => Err(f) case Ok(items) => Ok(Yields([], BucketsTable([]), items)))
    case FilesystemsSpace =>
      (match Listing(s.fileSystems) case Err(f) => Err(f) case Ok(items) => Ok(Yields([], FilesystemsTable, items)))
    case Performance(proto) =>
      (match First(PerfListing(s, proto)) case Err(f) => Err(f) case Ok(rec) => Ok(PerfSnapshots(proto, rec)))
  }

  function Outputs(s: FbSession): (r: seq<Result<seq<Snapshot>>>)
    ensures |r| == |CollectOrder|
  {
    seq(|CollectOrder|, i requires 0 <= i < |CollectOrder| => Output(s, CollectOrder[i]))
  }

  /** Everything `collect` yields, or the first exception. */
  function Scrape(s: FbSession): Result<seq<Snapshot>>
  {
    Joined(Outputs(s))
  }

  /** A scrape succeeds exactly when every generator runs to the end. */
  lemma ScrapeSucceeds(s: FbSession)
    ensures Scrape(s).Ok? <==> forall i :: 0 <= i < |CollectOrder| ==> Output(s, CollectOrder[i]).Ok?
  {
    JoinedOk(Outputs(s));
    assert forall i :: 0 <= i < |CollectOrder| ==> Outputs(s)[i] == Output(s, CollectOrder[i]);
  }

  /** A generator fails exactly when its listing call raises or, for the array space and the
    * performance generators, when the listing is empty (`items[0]`). */
  lemma OutputSucceeds(s: FbSession, g: Generator)
    ensures g == Hardware ==> (Output(s, g).Ok? <==> s.hardware.Answered?)
    ensures g == Events ==> (Output(s, g).Ok? <==> s.openAlerts.Answered?)
    ensures g == Space ==> (Output(s, g).Ok? <==> s.arraysSpace.Answered? && |s.arraysSpace.data| > 0)
    ensures g == BucketsSpace ==> (Output(s, g).Ok? <==> s.buckets.Answered?)
    ensures g == FilesystemsSpace ==> (Output(s, g).Ok? <==> s.fileSystems.Answered?)
    ensures g.Performance? ==> (Output(s, g).Ok? <==> PerfListing(s, g.proto).Answered? && |PerfListing(s, g.proto).data| > 0)
  {
  }

  /** The first-generation FlashBlade collector. */
  class FlashbladeCollector {
    const session: FbSession

    constructor (session: FbSession)
      ensures this.session == session
    {
      this.session := session;
    }

    /** `array_hw`. */
    method ArrayHw() returns (r: Result<seq<Snapshot>>)
      ensures r == Output(session, Hardware)
    {
      var listed := Listing(session.hardware);
      if listed.Err? {
        return Err(listed.error);
      }
      var hw := listed.value;
      var status := new MetricFamily("pure_fb_hw_status", ["hw_id"]);
      for i := 0 to |hw|
        invariant status.samples == HwSamples([], hw[..i])
      {
        assert hw[..i + 1][..i] == hw[..i];
        var state := Attr(hw[i], "status");
        var name := Attr(hw[i], "name");
        assert [] + [Text(name)] == [Text(name)];
        if state == Str("unused") || state == Str("not_installed") {
          status.AddMetric([Text(name)], Num(-1));
        } else if state == Str("healty") {
          status.AddMetric([Text(name)], Num(1));
        } else {
          status.AddMetric([Text(name)], Num(0));
        }
      }
      assert hw[..|hw|] == hw;
      assert [] + ["hw_id"] == ["hw_id"];
      r := Ok([status.Snap()]);
    }

    /** `array_events`: three independent counters over the open alerts. */
    method ArrayEvents() returns (r: Result<seq<Snapshot>>)
      ensures r == Output(session, Events)
    {
      var listed := Listing(session.openAlerts);
      if listed.Err? {
        return Err(listed.error);
      }
      var alerts := listed.value;
      var events := new MetricFamily("pure_fb_open_events_total", ["severity"]);
      var critical, warning, info := CountSeverities(alerts);
      assert [] + ["critical"] == ["critical"] && [] + ["warning"] == ["warning"] && [] + ["info"] == ["info"];
      assert [] + ["severity"] == ["severity"];
      events.AddMetric(["critical"], Num(critical));
      events.AddMetric(["warning"], Num(warning));
      events.AddMetric(["info"], Num(info));
      assert events.samples == EventSamples([], alerts);
      r := Ok([events.Snap()]);
    }

    /** `array_space`. */
    method ArraySpace() returns (r: Result<seq<Snapshot>>)
      ensures r == Output(session, Space)
    {
      var got := First(session.arraysSpace);
      if got.Err? {
        return Err(got.error);
      }
      var fams := NewFamilies(SpaceNames, []);
      AddRow(fams, [], got.value, SpaceFields);
      var snaps := SnapAll(fams);
      forall k | 0 <= k < |snaps|
        ensures snaps[k] == SpaceFamilies([], [], got.value)[k]
      {
        assert fams[k].samples == [] + [Sample([], Attr(got.value, SpaceFields[k]))];
      }
      assert snaps == SpaceFamilies([], [], got.value);
      r := Ok(snaps);
    }

    /** `buckets_space` and `filesystems_space`. */
    method TableSpace(g: Generator) returns (r: Result<seq<Snapshot>>)
      requires g == BucketsSpace || g == FilesystemsSpace
      ensures r == Output(session, g)
    {
      var listed := Listing(if g == BucketsSpace then session.buckets else session.fileSystems);
      if listed.Err? {
        return Err(listed.error);
      }
      var t := if g == BucketsSpace then BucketsTable([]) else FilesystemsTable;
      var fams := NewFamilies(t.names, t.keys);
      var yielded := WalkTable(t, listed.value, fams);
      r := Ok(yielded);
    }

    /** `_array_perf(proto)`: thirteen families declared, fed, then yielded in order. */
    method ArrayPerf(proto: Option<string>) returns (r: Result<seq<Snapshot>>)
      ensures r == Output(session, Performance(proto))
    {
      var got := First(PerfListing(session, proto));
      if got.Err? {
        return Err(got.error);
      }
      var metrics := NewFamilies(PerfNames(proto), []);
      AddRow(metrics, [], got.value, PerfFields());
      var snaps := SnapAll(metrics);
      forall k | 0 <= k < |snaps|
        ensures snaps[k] == PerfSnapshots(proto, got.value)[k]
      {
        assert metrics[k].samples == [] + [Sample([], Attr(got.value, PerfFields()[k]))];
      }
      assert snaps == PerfSnapshots(proto, got.value);
      r := Ok(snaps);
    }

    method Run(g: Generator) returns (r: Result<seq<Snapshot>>)
      ensures r == Output(session, g)
    {
      match g
      case Hardware => r := ArrayHw();
      case Events => r := ArrayEvents();
      case Space => r := ArraySpace();
      case BucketsSpace => r := TableSpace(g);
      case FilesystemsSpace => r := TableSpace(g);
      case Performance(proto) => r := ArrayPerf(proto);
    }

    /** `collect`: the generators in order; the first exception ends the scrape. */
    method Collect() returns (r: Result<seq<Snapshot>>)
      ensures r == Scrape(session)
    {
      ghost var outs := Outputs(session);
      var out: seq<Snapshot> := [];
      for i := 0 to |CollectOrder|
        invariant Joined(outs[..i]) == Ok(out)
      {
        assert outs[..i + 1][..i] == outs[..i];
        var part := Run(CollectOrder[i]);
        if part.Err? {
          JoinedPrefixFailure(outs, i + 1);
          return Err(part.error);
        }
        out := out + part.value;
      }
      assert outs[..|CollectOrder|] == outs;
      r := Ok(out);
    }
  }

  /** The per-item loop of `buckets_space` / `filesystems_space` over fresh families: the
    * data reduction overwrite, one `add_metric` per family, then a `yield` of every family. */
  method WalkTable(t: Table, items: seq<Record>, fams: seq<MetricFamily>) returns (yielded: seq<Snapshot>)
    requires WellFormed(t) && |fams| == |t.names| && Distinct(fams)
    requires forall k :: 0 <= k < |fams| ==> fams[k].name == t.names[k] && fams[k].labelKeys == t.keys && fams[k].samples == []
    modifies set f | f in fams
    ensures yielded == Yields([], t, items)
  {
    yielded := [];
    for i := 0 to |items|
      invariant forall k :: 0 <= k < |fams| ==> fams[k].samples == FieldSamples([], t, k, items[..i])
      invariant yielded == Yields([], t, items[..i])
    {
      assert items[..i + 1][..i] == items[..i];
      var b := items[i];
      if Attr(b, "space.data_reduction") == Null {
        b := b["space.data_reduction" := Num(0)];
      }
      assert b == Cleared(items[i]) && items[..i + 1][i] == items[i];
      assert [] + RowLabels(t, b) == RowLabels(t, b);
      AddRow(fams, RowLabels(t, b), b, t.fields);
      var frame := SnapAll(fams);
      forall k | 0 <= k < |frame|
        ensures frame[k] == Frame([], t, items[..i + 1])[k]
      {
        assert fams[k].samples == FieldSamples([], t, k, items[..i + 1]);
      }
      yielded := yielded + frame;
    }
    assert items[..|items|] == items;
  }
}
