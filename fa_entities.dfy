/** The FlashArray per-entity builders: volume, host and pod space (null reads as 0, families
  * created once and filled again on every run) and performance (values passed through, a
  * fresh family per run), all read from the merged, cached entity lists. */
module FaEntities {
  import opened Records
  import opened Families
  import opened FaMappings
  import opened FaSource
  import opened FaArray

  /** Which cached list of the data source a builder walks. */
  datatype EntityKind = Volumes | Hosts | Pods

  /** The merged list of that kind, or the failure that stops it. */
  function Listed(api: FaApi, kind: EntityKind): Result<seq<Record>>
  {
    match kind
    case Volumes => MergedVolumes(api)
    case Hosts => MergedHosts(api)
    case Pods => MergedPods(api)
  }

  /** `fa.get_volumes()`, `fa.get_hosts()` or `fa.get_pods()`. */
  method Entities(fa: FlashArray, kind: EntityKind) returns (r: Result<seq<Record>>)
    requires fa.Valid()
    modifies fa`volumes, fa`hosts, fa`pods, fa`fetches
    ensures fa.Valid() && r == Listed(fa.api, kind)
  {
    match kind
    case Volumes => r := fa.GetVolumes();
    case Hosts => r := fa.GetHosts();
    case Pods => r := fa.GetPods();
  }

  // ---------------------------------------------------------------- layouts

  function Noun(kind: EntityKind): string
  {
    match kind
    case Volumes => "volume"
    case Hosts => "host"
    case Pods => "pod"
  }

  /** The label fields of an entity: a volume is named by its name and NAA id, hosts and pods by their name. */
  function EntityKeys(kind: EntityKind): seq<Key>
  {
    if kind == Volumes then [Field("name"), Field("naaid")] else [Field("name")]
  }

  /** The declared label keys of the space families; the volume families call their first label `pod`. */
  function SpaceLabelKeys(kind: EntityKind): seq<string>
  {
    match kind
    case Volumes => ["pod", "naaid"]
    case Hosts => ["host"]
    case Pods => ["pod"]
  }

  function PerfLabelKeys(kind: EntityKind): seq<string>
  {
    match kind
    case Volumes => ["volume", "naaid", "dimension"]
    case Hosts => ["host", "dimension"]
    case Pods => ["pod", "dimension"]
  }

  /** `v[field]` for every label field and column. */
  function EntityLayout(kind: EntityKind, cols: seq<Column>): Layout
  {
    Layout([], EntityKeys(kind), cols, ByKey)
  }

  const DataReductionColumns := [Column([], "data_reduction", ZeroFill)]
  const SizeColumns := [Column([], "size", ZeroFill)]

  /** The three `allocated` lines. */
  const AllocatedColumns := [
    Column(["volumes"], "volumes", ZeroFill),
    Column(["snapshots"], "snapshots", ZeroFill),
    Column(["total"], "total", ZeroFill)]

  /** The families of `VolumeSpaceMetrics`, `HostSpaceMetrics` and `PodSpaceMetrics`, in yield order. */
  function SpaceSpecs(kind: EntityKind): seq<FamilySpec>
  {
    [FamilySpec("purefa_" + Noun(kind) + "_space_datareduction_ratio", SpaceLabelKeys(kind),
                EntityLayout(kind, DataReductionColumns)),
     FamilySpec("purefa_" + Noun(kind) + "_space_size_bytes", SpaceLabelKeys(kind),
                EntityLayout(kind, SizeColumns)),
     FamilySpec("purefa_" + Noun(kind) + "_space_bytes", SpaceLabelKeys(kind) + ["dimension"],
                EntityLayout(kind, AllocatedColumns))]
  }

  /** The twelve latency lines of the entity builders: the array's, without `local_queue`. */
  const EntityLatencyColumns := [
    Column(["read"], "usec_per_read_op", PassThrough),
    Column(["write"], "usec_per_write_op", PassThrough),
    Column(["mirrored_write"], "usec_per_mirrored_write_op", PassThrough),
    Column(["san_read"], "san_usec_per_read_op", PassThrough),
    Column(["san_write"], "san_usec_per_write_op", PassThrough),
    Column(["san_mirrored_write"], "san_usec_per_mirrored_write_op", PassThrough),
    Column(["queue_read"], "queue_usec_per_read_op", PassThrough),
    Column(["queue_write"], "queue_usec_per_write_op", PassThrough),
    Column(["queue_mirrored_write"], "queue_usec_per_mirrored_write_op", PassThrough),
    Column(["qos_read"], "qos_rate_limit_usec_per_read_op", PassThrough),
    Column(["qos_write"], "qos_rate_limit_usec_per_write_op", PassThrough),
    Column(["qos_mirrored"], "qos_rate_limit_usec_per_mirrored_write_op", PassThrough)]

  /** The bandwidth family of volumes is called throughput. */
  function BandwidthName(kind: EntityKind): string
  {
    if kind == Volumes then "purefa_volume_performance_throughput_bytes"
    else "purefa_" + Noun(kind) + "_performance_bandwidth_bytes"
  }

  /** The families of `VolumePerformanceMetrics`, `HostPerformanceMetrics` and `PodPerformanceMetrics`, in yield order. */
  function PerfSpecs(kind: EntityKind): seq<FamilySpec>
  {
    [FamilySpec("purefa_" + Noun(kind) + "_performance_latency_usec", PerfLabelKeys(kind), EntityLayout(kind, EntityLatencyColumns)),
     FamilySpec(BandwidthName(kind), PerfLabelKeys(kind), EntityLayout(kind, ArrayBandwidthColumns)),
     FamilySpec("purefa_" + Noun(kind) + "_performance_iops", PerfLabelKeys(kind), EntityLayout(kind, ArrayIopsColumns))]
  }

  // ---------------------------------------------------------------- space builders

  /** `VolumeSpaceMetrics`, `HostSpaceMetrics`, `PodSpaceMetrics`: the families are made by the
    * constructor, so every run of `get_metrics` appends to what earlier runs left. */
  class EntitySpaceMetrics {
    const fa: FlashArray
    const kind: EntityKind
    const dataReduction: MetricFamily
    const size: MetricFamily
    const bytes: MetricFamily

    /** The three families are distinct and declared with the names, help texts and labels the collector gives them. */
    predicate Declared()
    {
      var specs := SpaceSpecs(kind);
      dataReduction != size && dataReduction != bytes && size != bytes &&
      dataReduction.name == specs[0].name && dataReduction.labelKeys == specs[0].labelKeys &&
      size.name == specs[1].name && size.labelKeys == specs[1].labelKeys &&
      bytes.name == specs[2].name && bytes.labelKeys == specs[2].labelKeys
    }

    function Samples(): seq<seq<Sample>>
      reads dataReduction, size, bytes
    {
      [dataReduction.samples, size.samples, bytes.samples]
    }

    constructor (fa: FlashArray, kind: EntityKind)
      ensures this.fa == fa && this.kind == kind && Declared()
      ensures fresh(dataReduction) && fresh(size) && fresh(bytes)
      ensures Samples() == [[], [], []]
    {
      this.fa := fa;
      this.kind := kind;
      var specs := SpaceSpecs(kind);
      dataReduction := new MetricFamily(specs[0].name, specs[0].labelKeys);
      size := new MetricFamily(specs[1].name, specs[1].labelKeys);
      bytes := new MetricFamily(specs[2].name, specs[2].labelKeys);
    }

    /** One of `_data_reduction`, `_size`, `_allocated`: fetch the list, append one run of samples. */
    method Fill(fam: MetricFamily, spec: FamilySpec) returns (out: Outcome)
      requires fa.Valid()
      modifies fam, fa`volumes, fa`hosts, fa`pods, fa`fetches
      ensures fa.Valid()
      ensures out.Pass? <==> FamilyOver(spec, Listed(fa.api, kind)).Ok?
      ensures out.Fail? ==> out.error == FamilyOver(spec, Listed(fa.api, kind)).error
      ensures out.Pass? ==> fam.samples == old(fam.samples) + FamilyOver(spec, Listed(fa.api, kind)).value.samples
    {
      var l := Entities(fa, kind);
      if l.Err? {
        return Fail(l.error);
      }
      out := EmitRows(fam, spec.layout, l.value);
    }

    /** `get_metrics`: data reduction, size, bytes; the first failing method aborts. */
    method GetMetrics() returns (r: Result<seq<Snapshot>>)
      requires fa.Valid() && Declared()
      modifies dataReduction, size, bytes, fa`volumes, fa`hosts, fa`pods, fa`fetches
      ensures fa.Valid()
      ensures r.Ok? <==> OverEntities(SpaceSpecs(kind), Listed(fa.api, kind)).Ok?
      ensures r.Err? ==> r.error == OverEntities(SpaceSpecs(kind), Listed(fa.api, kind)).error
      ensures r.Ok? ==> r.value == Grown(old(Samples()), OverEntities(SpaceSpecs(kind), Listed(fa.api, kind)).value)
      ensures r.Ok? ==> r.value == [dataReduction.Snap(), size.Snap(), bytes.Snap()]
    {
      var specs := SpaceSpecs(kind);
      ghost var listed := Listed(fa.api, kind);
      ghost var before := Samples();
      var o := Fill(dataReduction, specs[0]);
      if o.Fail? {
        if listed.Ok? {
          ThreeFamilies(specs, listed.value);
        }
        return Err(o.error);
      }
      r := AfterDataReduction(before);
    }

    /** The size and bytes methods, once the data reduction samples are in. */
    method AfterDataReduction(ghost before: seq<seq<Sample>>) returns (r: Result<seq<Snapshot>>)
      requires fa.Valid() && Declared() && |before| == 3 && Listed(fa.api, kind).Ok?
      requires Family(SpaceSpecs(kind)[0], Listed(fa.api, kind).value).Ok?
      requires dataReduction.samples == before[0] + Family(SpaceSpecs(kind)[0], Listed(fa.api, kind).value).value.samples
      requires size.samples == before[1] && bytes.samples == before[2]
      modifies size, bytes, fa`volumes, fa`hosts, fa`pods, fa`fetches
      ensures fa.Valid()
      ensures r.Ok? <==> OverEntities(SpaceSpecs(kind), Listed(fa.api, kind)).Ok?
      ensures r.Err? ==> r.error == OverEntities(SpaceSpecs(kind), Listed(fa.api, kind)).error
      ensures r.Ok? ==> r.value == Grown(before, OverEntities(SpaceSpecs(kind), Listed(fa.api, kind)).value)
      ensures r.Ok? ==> r.value == [dataReduction.Snap(), size.Snap(), bytes.Snap()]
    {
      var specs := SpaceSpecs(kind);
      ghost var ents := Listed(fa.api, kind).value;
      ThreeFamilies(specs, ents);
      var o := Fill(size, specs[1]);
      if o.Fail? {
        return Err(o.error);
      }
      o := Fill(bytes, specs[2]);
      if o.Fail? {
        return Err(o.error);
      }
      r := Ok([dataReduction.Snap(), size.Snap(), bytes.Snap()]);
      GrownThree(before, FamiliesOf(specs, ents).value, r.value);
    }
  }

  /** Three families that each kept their earlier samples and gained one run's. */
  lemma GrownThree(before: seq<seq<Sample>>, fs: seq<Snapshot>, snaps: seq<Snapshot>)
    requires |before| == 3 && |fs| == 3 && |snaps| == 3
    requires forall k :: 0 <= k < 3 ==> snaps[k] == Snapshot(fs[k].name, fs[k].labelKeys, before[k] + fs[k].samples)
    ensures snaps == Grown(before, fs)
  {
  }

  // ---------------------------------------------------------------- performance builders

  /** `VolumePerformanceMetrics`, `HostPerformanceMetrics`, `PodPerformanceMetrics`: each method
    * declares a fresh family and fills it from the list. */
  class EntityPerformanceMetrics {
    const fa: FlashArray
    const kind: EntityKind
    var latency: MetricFamily?
    var bandwidth: MetricFamily?
    var iops: MetricFamily?

    constructor (fa: FlashArray, kind: EntityKind)
      ensures this.fa == fa && this.kind == kind && latency == null && bandwidth == null && iops == null
    {
      this.fa := fa;
      this.kind := kind;
      latency, bandwidth, iops := null, null, null;
    }

    /** One of `_latency`, `_bandwidth`, `_iops`. */
    method FromList(spec: FamilySpec) returns (fam: MetricFamily, out: Outcome)
      requires fa.Valid()
      modifies fa`volumes, fa`hosts, fa`pods, fa`fetches
      ensures fa.Valid() && fresh(fam) && fam.name == spec.name && fam.labelKeys == spec.labelKeys
      ensures out.Pass? <==> FamilyOver(spec, Listed(fa.api, kind)).Ok?
      ensures out.Fail? ==> out.error == FamilyOver(spec, Listed(fa.api, kind)).error
      ensures out.Pass? ==> Ok(fam.Snap()) == FamilyOver(spec, Listed(fa.api, kind))
    {
      var l := Entities(fa, kind);
      if l.Err? {
        fam := new MetricFamily(spec.name, spec.labelKeys);
        return fam, Fail(l.error);
      }
      fam, out := BuildFamily(spec, l.value);
    }

    /** `get_metrics`: latency, bandwidth, iops; the first failing method aborts. */
    method GetMetrics() returns (r: Result<seq<Snapshot>>)
      requires fa.Valid()
      modifies this, fa`volumes, fa`hosts, fa`pods, fa`fetches
      ensures fa.Valid()
      ensures r == OverEntities(PerfSpecs(kind), Listed(fa.api, kind))
    {
      var specs := PerfSpecs(kind);
      var o;
      latency, o := FromList(specs[0]);
      if o.Fail? {
        ghost var listed := Listed(fa.api, kind);
        if listed.Ok? {
          ThreeFamilies(specs, listed.value);
        }
        return Err(o.error);
      }
      r := AfterLatency();
    }

    /** The methods after `_latency`, which has filled from the listing. */
    method AfterLatency() returns (r: Result<seq<Snapshot>>)
      requires fa.Valid()
      requires latency != null && Ok(latency.Snap()) == FamilyOver(PerfSpecs(kind)[0], Listed(fa.api, kind))
      modifies this`bandwidth, this`iops, fa`volumes, fa`hosts, fa`pods, fa`fetches
      ensures fa.Valid()
      ensures r == OverEntities(PerfSpecs(kind), Listed(fa.api, kind))
    {
      var specs := PerfSpecs(kind);
      ThreeFamilies(specs, Listed(fa.api, kind).value);
      var o;
      bandwidth, o := FromList(specs[1]);
      if o.Fail? {
        return Err(o.error);
      }
      iops, o := FromList(specs[2]);
      if o.Fail? {
        return Err(o.error);
      }
      r := Ok([latency.Snap(), bandwidth.Snap(), iops.Snap()]);
    }
  }

  // ---------------------------------------------------------------- what the entity families hold

  /** The twelve latency lines are the array latency table in its order without its fourth
    * entry, `local_queue`. */
  lemma EntityLatencyFollowsTable()
    ensures ArrayLatencyMapping[3] == Entry("local_queue_usec_per_op", "local_queue")
    ensures EntityLatencyColumns == ColumnsOf(VolumeLatencyMapping[..3] + VolumeLatencyMapping[4..], PassThrough)
  {
    var m := VolumeLatencyMapping[..3] + VolumeLatencyMapping[4..];
    assert |m| == 12;
    assert forall j :: 0 <= j < 12 ==> EntityLatencyColumns[j] == Column([m[j].dim], m[j].field, PassThrough);
  }

  /** The label fields an entity needs: its name, and for a volume its NAA id. */
  predicate KeysPresent(kind: EntityKind, e: Record)
  {
    "name" in e && (kind == Volumes ==> "naaid" in e)
  }

  /** The leading label values of an entity's samples. */
  function EntityLabels(kind: EntityKind, e: Record): seq<string>
    requires KeysPresent(kind, e)
  {
    if kind == Volumes then [Text(e["name"]), Text(e["naaid"])] else [Text(e["name"])]
  }

  /** Reading the label fields fails on the first one missing, with a `KeyError` naming it. */
  lemma EntityKeyLabels(kind: EntityKind, e: Record)
    ensures KeyLabels(e, EntityKeys(kind), ByKey).Ok? <==> KeysPresent(kind, e)
    ensures KeysPresent(kind, e) ==> KeyLabels(e, EntityKeys(kind), ByKey).value == EntityLabels(kind, e)
    ensures "name" !in e ==> KeyLabels(e, EntityKeys(kind), ByKey) == Err(KeyError(Str("name")))
    ensures "name" in e && kind == Volumes && "naaid" !in e ==> KeyLabels(e, EntityKeys(kind), ByKey) == Err(KeyError(Str("naaid")))
  {
    var keys := EntityKeys(kind);
    var nolabels: seq<string> := [];
    assert keys[..1][..0] == [] && keys[..1] == [Field("name")];
    assert KeyLabels(e, [], ByKey) == Ok(nolabels);
    if "name" in e {
      assert nolabels + [Text(e["name"])] == [Text(e["name"])];
      assert KeyLabels(e, keys[..1], ByKey) == Ok([Text(e["name"])]);
    }
  }

  /** A loop of an entity builder fails exactly when some entity lacks a label field or a
    * column field. */
  lemma EntityRowsSucceed(kind: EntityKind, cols: seq<Column>, ents: seq<Record>)
    requires |cols| > 0
    ensures Rows(EntityLayout(kind, cols), ents).Ok? <==>
              forall i :: 0 <= i < |ents| ==>
                KeysPresent(kind, ents[i]) && forall j :: 0 <= j < |cols| ==> cols[j].field in ents[i]
  {
    var layout := EntityLayout(kind, cols);
    RowsSucceed(layout, ents);
    forall i | 0 <= i < |ents|
      ensures EntityRows(layout, ents[i]).Ok? <==>
                KeysPresent(kind, ents[i]) && forall j :: 0 <= j < |cols| ==> cols[j].field in ents[i]
    {
      EntitySucceeds(kind, cols, ents[i]);
    }
  }

  lemma EntitySucceeds(kind: EntityKind, cols: seq<Column>, e: Record)
    requires |cols| > 0
    ensures EntityRows(EntityLayout(kind, cols), e).Ok? <==>
              KeysPresent(kind, e) && forall j :: 0 <= j < |cols| ==> cols[j].field in e
  {
    var layout := EntityLayout(kind, cols);
    EntityKeyLabels(kind, e);
    var lead := KeyLabels(e, layout.keys, ByKey);
    if lead.Ok? {
      CellsSucceed(e, lead.value, cols, ByKey);
      assert layout.prefix + lead.value == lead.value;
      assert EntityRows(layout, e) == Cells(e, lead.value, cols, ByKey);
    }
  }

  /** Sample `k = i * |cols| + j`: entity `i`'s labels, line `j`'s dimension, its field under the line's policy. */
  lemma EntityCell(kind: EntityKind, cols: seq<Column>, ents: seq<Record>, i: nat, j: nat, k: nat)
    requires Rows(EntityLayout(kind, cols), ents).Ok? && i < |ents| && j < |cols| && k == i * |cols| + j
    ensures KeysPresent(kind, ents[i]) && cols[j].field in ents[i] && k < |Rows(EntityLayout(kind, cols), ents).value|
    ensures Rows(EntityLayout(kind, cols), ents).value[k]
              == Sample(EntityLabels(kind, ents[i]) + cols[j].extra, ApplyPolicy(ents[i][cols[j].field], cols[j].policy))
  {
    RowAt(EntityLayout(kind, cols), ents, i, j);
    EntityKeyLabels(kind, ents[i]);
    var nolabels: seq<string> := [];
    assert nolabels + EntityLabels(kind, ents[i]) == EntityLabels(kind, ents[i]);
  }

  /** Every line of a builder passes `None` through or every line zero-fills it. */
  lemma LinePolicies()
    ensures forall j :: 0 <= j < |EntityLatencyColumns| ==> EntityLatencyColumns[j].policy == PassThrough
    ensures forall j :: 0 <= j < |ArrayBandwidthColumns| ==> ArrayBandwidthColumns[j].policy == PassThrough
    ensures forall j :: 0 <= j < |ArrayIopsColumns| ==> ArrayIopsColumns[j].policy == PassThrough
    ensures forall j :: 0 <= j < |AllocatedColumns| ==> AllocatedColumns[j].policy == ZeroFill
    ensures forall j :: 0 <= j < |AllocatedColumns| ==> AllocatedColumns[j].extra == [AllocatedColumns[j].field]
  {
  }

  /** The fields a space builder subscripts on every entity. */
  const SpaceFields := {"data_reduction", "size", "volumes", "snapshots", "total"}

  /** One entity passes the three space loops exactly when it carries its label fields and the space fields. */
  lemma SpaceEntitySucceeds(kind: EntityKind, e: Record)
    ensures PassesThree(SpaceSpecs(kind), e) <==> KeysPresent(kind, e) && SpaceFields <= e.Keys
  {
    EntitySucceeds(kind, DataReductionColumns, e);
    EntitySucceeds(kind, SizeColumns, e);
    EntitySucceeds(kind, AllocatedColumns, e);
    assert DataReductionColumns[0].field == "data_reduction" && SizeColumns[0].field == "size";
    assert AllocatedColumns[0].field == "volumes" && AllocatedColumns[1].field == "snapshots" && AllocatedColumns[2].field == "total";
    assert (forall j :: 0 <= j < 3 ==> AllocatedColumns[j].field in e) <==> "volumes" in e && "snapshots" in e && "total" in e by {
      if "volumes" in e && "snapshots" in e && "total" in e {
        forall j | 0 <= j < 3 ensures AllocatedColumns[j].field in e {
          if j == 0 {} else if j == 1 {} else {}
        }
      }
    }
    assert SpaceFields <= e.Keys <==> "data_reduction" in e && "size" in e && "volumes" in e && "snapshots" in e && "total" in e;
  }

  /** A space builder fills its families exactly when every entity carries its label fields and the space fields. */
  lemma {:induction false} EntitySpaceSucceeds(kind: EntityKind, ents: seq<Record>)
    ensures FamiliesOf(SpaceSpecs(kind), ents).Ok? <==>
              forall i :: 0 <= i < |ents| ==> KeysPresent(kind, ents[i]) && SpaceFields <= ents[i].Keys
  {
    ThreeFamiliesSucceed(SpaceSpecs(kind), ents);
    forall i | 0 <= i < |ents|
      ensures PassesThree(SpaceSpecs(kind), ents[i]) <==> KeysPresent(kind, ents[i]) && SpaceFields <= ents[i].Keys
    {
      SpaceEntitySucceeds(kind, ents[i]);
    }
  }

  /** The families of a space run are its three loops' rows. */
  lemma SpaceFamiliesAreRows(kind: EntityKind, ents: seq<Record>)
    requires FamiliesOf(SpaceSpecs(kind), ents).Ok?
    ensures var fs := FamiliesOf(SpaceSpecs(kind), ents).value;
      |fs| == 3 &&
      Rows(EntityLayout(kind, DataReductionColumns), ents).Ok? && fs[0].samples == Rows(EntityLayout(kind, DataReductionColumns), ents).value &&
      Rows(EntityLayout(kind, SizeColumns), ents).Ok? && fs[1].samples == Rows(EntityLayout(kind, SizeColumns), ents).value &&
      Rows(EntityLayout(kind, AllocatedColumns), ents).Ok? && fs[2].samples == Rows(EntityLayout(kind, AllocatedColumns), ents).value
  {
    ThreeFamiliesRows(SpaceSpecs(kind), ents);
  }

  /** The space families are made once, so a second run without a restart reports every
    * sample of the first run again, followed by the new ones. */
  lemma SpaceRunsAccumulate(first: seq<Snapshot>, second: seq<Snapshot>)
    requires |first| == 3 && |second| == 3
    ensures var after := Grown([[], [], []], first);
      Grown([after[0].samples, after[1].samples, after[2].samples], second)
        == seq(3, k requires 0 <= k < 3 => Snapshot(second[k].name, second[k].labelKeys, first[k].samples + second[k].samples))
  {
    var empty: seq<Sample> := [];
    assert forall k :: 0 <= k < 3 ==> empty + first[k].samples == first[k].samples;
  }

  /** The fields a list of lines subscripts. */
  function ColumnFields(cols: seq<Column>): set<string>
  {
    set j | 0 <= j < |cols| :: cols[j].field
  }

  /** An entity holds a list's fields exactly when every line's field is among its keys. */
  lemma ColumnFieldsHeld(cols: seq<Column>, e: Record)
    ensures ColumnFields(cols) <= e.Keys <==> forall j :: 0 <= j < |cols| ==> cols[j].field in e
  {
    if forall j :: 0 <= j < |cols| ==> cols[j].field in e {
      forall f | f in ColumnFields(cols) ensures f in e.Keys {
        var j :| 0 <= j < |cols| && cols[j].field == f;
      }
    }
  }

  /** The fields a performance builder subscripts on every entity. */
  function PerfFields(): set<string>
  {
    ColumnFields(EntityLatencyColumns) + ColumnFields(ArrayBandwidthColumns) + ColumnFields(ArrayIopsColumns)
  }

  /** One entity passes the three performance loops exactly when it carries its label fields and the performance fields. */
  lemma PerfEntitySucceeds(kind: EntityKind, e: Record)
    ensures PassesThree(PerfSpecs(kind), e) <==> KeysPresent(kind, e) && PerfFields() <= e.Keys
  {
    EntitySucceeds(kind, EntityLatencyColumns, e);
    EntitySucceeds(kind, ArrayBandwidthColumns, e);
    EntitySucceeds(kind, ArrayIopsColumns, e);
    ColumnFieldsHeld(EntityLatencyColumns, e);
    ColumnFieldsHeld(ArrayBandwidthColumns, e);
    ColumnFieldsHeld(ArrayIopsColumns, e);
  }

  /** A performance builder fills its families exactly when every entity carries its label
    * fields and the eighteen performance fields. */
  lemma {:induction false} EntityPerformanceSucceeds(kind: EntityKind, ents: seq<Record>)
    ensures FamiliesOf(PerfSpecs(kind), ents).Ok? <==>
              forall i :: 0 <= i < |ents| ==> KeysPresent(kind, ents[i]) && PerfFields() <= ents[i].Keys
  {
    ThreeFamiliesSucceed(PerfSpecs(kind), ents);
    forall i | 0 <= i < |ents|
      ensures PassesThree(PerfSpecs(kind), ents[i]) <==> KeysPresent(kind, ents[i]) && PerfFields() <= ents[i].Keys
    {
      PerfEntitySucceeds(kind, ents[i]);
    }
  }

  /** The families of a performance run are its three loops' rows. */
  lemma PerfFamiliesAreRows(kind: EntityKind, ents: seq<Record>)
    requires FamiliesOf(PerfSpecs(kind), ents).Ok?
    ensures var fs := FamiliesOf(PerfSpecs(kind), ents).value;
      |fs| == 3 &&
      Rows(EntityLayout(kind, EntityLatencyColumns), ents).Ok? && fs[0].samples == Rows(EntityLayout(kind, EntityLatencyColumns), ents).value &&
      Rows(EntityLayout(kind, ArrayBandwidthColumns), ents).Ok? && fs[1].samples == Rows(EntityLayout(kind, ArrayBandwidthColumns), ents).value &&
      Rows(EntityLayout(kind, ArrayIopsColumns), ents).Ok? && fs[2].samples == Rows(EntityLayout(kind, ArrayIopsColumns), ents).value
  {
    ThreeFamiliesRows(PerfSpecs(kind), ents);
  }

  /** A space run adds one data-reduction and one size sample per entity and three allocated
    * samples per entity. */
  lemma {:induction false} SpaceSampleCounts(kind: EntityKind, ents: seq<Record>)
    requires FamiliesOf(SpaceSpecs(kind), ents).Ok?
    ensures var fs := FamiliesOf(SpaceSpecs(kind), ents).value;
      |fs| == 3 && |fs[0].samples| == |ents| && |fs[1].samples| == |ents| && |fs[2].samples| == 3 * |ents|
  {
    var specs := SpaceSpecs(kind);
    ThreeFamilies(specs, ents);
    RowsLength(specs[0].layout, ents);
    RowsLength(specs[1].layout, ents);
    RowsLength(specs[2].layout, ents);
  }

  /** A performance run yields twelve latency, three bandwidth and three iops samples per entity. */
  lemma {:induction false} PerfSampleCounts(kind: EntityKind, ents: seq<Record>)
    requires FamiliesOf(PerfSpecs(kind), ents).Ok?
    ensures var fs := FamiliesOf(PerfSpecs(kind), ents).value;
      |fs| == 3 && |fs[0].samples| == 12 * |ents| && |fs[1].samples| == 3 * |ents| && |fs[2].samples| == 3 * |ents|
  {
    var specs := PerfSpecs(kind);
    ThreeFamilies(specs, ents);
    RowsLength(specs[0].layout, ents);
    RowsLength(specs[1].layout, ents);
    RowsLength(specs[2].layout, ents);
  }
}
