/** The FlashArray array-level builders: space (null or absent reads as 0), performance
  * (fixed field lists, values passed through) and the generic mapped-dimension builder
  * of the network-interface family. */
module FaArray {
  import opened Records
  import opened Families
  import opened FaMappings
  import opened FaSource

  // ---------------------------------------------------------------- space

  /** `get_array_elem(k) if get_array_elem(k) is not None else 0`: an attribute-style read with zero fill. */
  function SpaceLayout(cols: seq<Column>): Layout { Layout([], [], cols, ByAttr) }

  const DrrSpec := FamilySpec("purefa_array_space_datareduction_ratio", [], SpaceLayout([Column([], "data_reduction", ZeroFill)]))
  const CapacitySpec := FamilySpec("purefa_array_space_capacity_bytes", [], SpaceLayout([Column([], "capacity", ZeroFill)]))
  const ProvisionedSpec := FamilySpec("purefa_array_space_provisioned_bytes", [], SpaceLayout([Column([], "provisioned", ZeroFill)]))

  /** The five `used` lines, in source order. */
  const UsedColumns := [
    Column(["shared"], "shared_space", ZeroFill),
    Column(["system"], "system", ZeroFill),
    Column(["volumes"], "volumes", ZeroFill),
    Column(["snapshots"], "snapshots", ZeroFill),
    Column(["replication"], "replication", ZeroFill)]

  const UsedSpec := FamilySpec("purefa_array_space_used_bytes", ["dimension"], SpaceLayout(UsedColumns))

  /** The families `ArraySpaceMetrics.get_metrics` yields, in order. */
  const ArraySpaceSpecs := [DrrSpec, CapacitySpec, ProvisionedSpec, UsedSpec]

  /** What a builder reading the merged array record yields, given the cache it starts from. */
  function OverArray(specs: seq<FamilySpec>, api: FaApi, cached: Option<Record>): Result<seq<Snapshot>>
  {
    match ArrayResult(api, cached)
    case Err(f) => Err(f)
    case Ok(rec) => FamiliesOf(specs, [rec])
  }

  /** One family read from the merged array record, given the cache it starts from. */
  function FamilyOverArray(spec: FamilySpec, api: FaApi, cached: Option<Record>): Result<Snapshot>
  {
    match ArrayResult(api, cached)
    case Err(f) => Err(f)
    case Ok(rec) => Family(spec, [rec])
  }

  class ArraySpaceMetrics {
    const fa: FlashArray
    var dataReduction: MetricFamily?
    var capacity: MetricFamily?
    var provisioned: MetricFamily?
    var used: MetricFamily?

    constructor (fa: FlashArray)
      ensures this.fa == fa && dataReduction == null && capacity == null && provisioned == null && used == null
    {
      this.fa := fa;
      dataReduction, capacity, provisioned, used := null, null, null, null;
    }

    /** The conditional expression of every space line: the element is fetched once for the
      * test and, when it is not `None`, once more for the value. */
    method ElemOrZero(elem: string) returns (r: Result<Value>)
      requires fa.Valid()
      modifies fa`arrayRecord, fa`fetches
      ensures fa.Valid()
      ensures r.Ok? <==> ArrayResult(fa.api, old(fa.arrayRecord)).Ok?
      ensures r.Err? ==> r.error == ArrayResult(fa.api, old(fa.arrayRecord)).error
      ensures r.Ok? ==> fa.arrayRecord == Some(ArrayResult(fa.api, old(fa.arrayRecord)).value)
      ensures r.Ok? ==> r.value == OrZero(Attr(ArrayResult(fa.api, old(fa.arrayRecord)).value, elem))
    {
      var test := fa.GetArrayElem(elem);
      if test.Err? {
        return Err(test.error);
      }
      if test.value == Null {
        return Ok(Num(0));
      }
      var v := fa.GetArrayElem(elem);
      r := Ok(v.value);
    }

    /** One single-sample method (`_data_reduction`, `_capacity`, `_provisioned`). */
    method Single(spec: FamilySpec, elem: string) returns (fam: MetricFamily, out: Outcome)
      requires fa.Valid() && spec.layout == SpaceLayout([Column([], elem, ZeroFill)])
      modifies fa`arrayRecord, fa`fetches
      ensures fa.Valid() && fresh(fam) && fam.name == spec.name && fam.labelKeys == spec.labelKeys
      ensures out.Pass? <==> ArrayResult(fa.api, old(fa.arrayRecord)).Ok?
      ensures out.Fail? ==> out.error == ArrayResult(fa.api, old(fa.arrayRecord)).error
      ensures out.Pass? ==> fa.arrayRecord == Some(ArrayResult(fa.api, old(fa.arrayRecord)).value)
      ensures out.Pass? ==> Ok(fam.Snap()) == Family(spec, [fa.arrayRecord.value])
    {
      fam := new MetricFamily(spec.name, spec.labelKeys);
      var v := ElemOrZero(elem);
      if v.Err? {
        return fam, Fail(v.error);
      }
      fam.AddMetric([], v.value);
      ghost var rec := fa.arrayRecord.value;
      KeylessRows(spec.layout, rec);
      SingleCell(rec, [], Column([], elem, ZeroFill), ByAttr);
      var nolabels: seq<string> := [];
      assert nolabels + nolabels == nolabels;
      assert Cell(rec, [], Column([], elem, ZeroFill), ByAttr) == Ok(Sample([], OrZero(Attr(rec, elem))));
      out := Pass;
    }

    method DataReduction() returns (out: Outcome)
      requires fa.Valid()
      modifies this`dataReduction, fa`arrayRecord, fa`fetches
      ensures fa.Valid() && dataReduction != null && fresh(dataReduction)
      ensures out.Pass? <==> ArrayResult(fa.api, old(fa.arrayRecord)).Ok?
      ensures out.Fail? ==> out.error == ArrayResult(fa.api, old(fa.arrayRecord)).error
      ensures out.Pass? ==> fa.arrayRecord == Some(ArrayResult(fa.api, old(fa.arrayRecord)).value)
      ensures out.Pass? ==> Ok(dataReduction.Snap()) == Family(DrrSpec, [fa.arrayRecord.value])
    {
      dataReduction, out := Single(DrrSpec, "data_reduction");
    }

    method Capacity() returns (out: Outcome)
      requires fa.Valid()
      modifies this`capacity, fa`arrayRecord, fa`fetches
      ensures fa.Valid() && capacity != null && fresh(capacity)
      ensures out.Pass? <==> ArrayResult(fa.api, old(fa.arrayRecord)).Ok?
      ensures out.Fail? ==> out.error == ArrayResult(fa.api, old(fa.arrayRecord)).error
      ensures out.Pass? ==> fa.arrayRecord == Some(ArrayResult(fa.api, old(fa.arrayRecord)).value)
      ensures out.Pass? ==> Ok(capacity.Snap()) == Family(CapacitySpec, [fa.arrayRecord.value])
    {
      capacity, out := Single(CapacitySpec, "capacity");
    }

    method Provisioned() returns (out: Outcome)
      requires fa.Valid()
      modifies this`provisioned, fa`arrayRecord, fa`fetches
      ensures fa.Valid() && provisioned != null && fresh(provisioned)
      ensures out.Pass? <==> ArrayResult(fa.api, old(fa.arrayRecord)).Ok?
      ensures out.Fail? ==> out.error == ArrayResult(fa.api, old(fa.arrayRecord)).error
      ensures out.Pass? ==> fa.arrayRecord == Some(ArrayResult(fa.api, old(fa.arrayRecord)).value)
      ensures out.Pass? ==> Ok(provisioned.Snap()) == Family(ProvisionedSpec, [fa.arrayRecord.value])
    {
      provisioned, out := Single(ProvisionedSpec, "provisioned");
    }

    /** `_used`: five lines, shared first. */
    method Used() returns (out: Outcome)
      requires fa.Valid()
      modifies this`used, fa`arrayRecord, fa`fetches
      ensures fa.Valid() && used != null && fresh(used)
      ensures out.Pass? <==> ArrayResult(fa.api, old(fa.arrayRecord)).Ok?
      ensures out.Fail? ==> out.error == ArrayResult(fa.api, old(fa.arrayRecord)).error
      ensures out.Pass? ==> fa.arrayRecord == Some(ArrayResult(fa.api, old(fa.arrayRecord)).value)
      ensures out.Pass? ==> Ok(used.Snap()) == Family(UsedSpec, [fa.arrayRecord.value])
    {
      var fam := new MetricFamily(UsedSpec.name, UsedSpec.labelKeys);
      used := fam;
      ghost var res := ArrayResult(fa.api, fa.arrayRecord);
      var k := 0;
      while k < |UsedColumns|
        invariant 0 <= k <= |UsedColumns| && fa.Valid() && used == fam
        invariant res == ArrayResult(fa.api, fa.arrayRecord)
        invariant k > 0 ==> res.Ok? && fa.arrayRecord == Some(res.value)
        invariant res.Ok? ==> Cells(res.value, [], UsedColumns[..k], ByAttr) == Ok(fam.samples)
      {
        out := UsedLine(fam, k, res);
        if out.Fail? {
          return;
        }
        k := k + 1;
      }
      assert UsedColumns[..k] == UsedColumns;
      KeylessRows(UsedSpec.layout, res.value);
      out := Pass;
    }

    /** Line `k` of `_used`: the element fetched (or read from the cache) and appended. */
    method UsedLine(fam: MetricFamily, k: nat, ghost res: Result<Record>) returns (out: Outcome)
      requires fa.Valid() && k < |UsedColumns| && res == ArrayResult(fa.api, fa.arrayRecord)
      requires res.Ok? ==> Cells(res.value, [], UsedColumns[..k], ByAttr) == Ok(fam.samples)
      modifies fam, fa`arrayRecord, fa`fetches
      ensures fa.Valid()
      ensures out.Pass? <==> res.Ok?
      ensures out.Fail? ==> out.error == res.error
      ensures out.Pass? ==> fa.arrayRecord == Some(res.value)
      ensures out.Pass? ==> Cells(res.value, [], UsedColumns[..k + 1], ByAttr) == Ok(fam.samples)
    {
      var col := UsedColumns[k];
      var v := ElemOrZero(col.field);
      if v.Err? {
        return Fail(v.error);
      }
      CellsNext(res.value, [], UsedColumns, ByAttr, k, fam.samples);
      assert [] + col.extra == col.extra;
      fam.AddMetric(col.extra, v.value);
      out := Pass;
    }

    /** `get_metrics`: data reduction, capacity, provisioned, used. */
    method GetMetrics() returns (r: Result<seq<Snapshot>>)
      requires fa.Valid()
      modifies this, fa`arrayRecord, fa`fetches
      ensures fa.Valid()
      ensures r == OverArray(ArraySpaceSpecs, fa.api, old(fa.arrayRecord))
      ensures r.Ok? ==> fa.arrayRecord.Some?
    {
      var o := DataReduction();
      if o.Fail? {
        return Err(o.error);
      }
      r := AfterDataReduction(fa.arrayRecord.value);
    }

    /** The methods after `_data_reduction`, which has filled from the cached record `rec`. */
    method AfterDataReduction(ghost rec: Record) returns (r: Result<seq<Snapshot>>)
      requires fa.Valid() && fa.arrayRecord == Some(rec)
      requires dataReduction != null && Ok(dataReduction.Snap()) == Family(DrrSpec, [rec])
      modifies this`capacity, this`provisioned, this`used, fa`arrayRecord, fa`fetches
      ensures fa.Valid() && fa.arrayRecord == Some(rec)
      ensures r == FamiliesOf(ArraySpaceSpecs, [rec])
    {
      var o := Capacity();
      o := Provisioned();
      o := Used();
      var snaps := [dataReduction.Snap(), capacity.Snap(), provisioned.Snap(), used.Snap()];
      forall k | 0 <= k < 4 ensures Family(ArraySpaceSpecs[k], [rec]) == Ok(snaps[k]) {
        if k == 0 {} else if k == 1 {} else if k == 2 {} else {}
      }
      FamiliesOfAll(ArraySpaceSpecs, [rec], snaps);
      r := Ok(snaps);
    }
  }

  /** Every space sample is the merged array field, or 0 when that field is absent or `None`;
    * the three single families hold one unlabelled sample, the used family five samples in
    * the order shared (from `shared_space`), system, volumes, snapshots, replication. */
  lemma ArraySpaceValues(rec: Record)
    ensures FamiliesOf(ArraySpaceSpecs, [rec]).Ok?
    ensures var fs := FamiliesOf(ArraySpaceSpecs, [rec]).value;
            |fs| == 4 &&
            fs[0] == Snapshot("purefa_array_space_datareduction_ratio", [], [Sample([], OrZero(Attr(rec, "data_reduction")))]) &&
            fs[1] == Snapshot("purefa_array_space_capacity_bytes", [], [Sample([], OrZero(Attr(rec, "capacity")))]) &&
            fs[2] == Snapshot("purefa_array_space_provisioned_bytes", [], [Sample([], OrZero(Attr(rec, "provisioned")))]) &&
            fs[3].name == "purefa_array_space_used_bytes" && fs[3].labelKeys == ["dimension"] &&
            |fs[3].samples| == |ArrayUsedMapping| &&
            forall j :: 0 <= j < |ArrayUsedMapping| ==>
              fs[3].samples[j] == Sample([ArrayUsedMapping[j].dim], OrZero(Attr(rec, ArrayUsedMapping[j].field)))
  {
    SingleSpaceValue(DrrSpec, "data_reduction", rec);
    SingleSpaceValue(CapacitySpec, "capacity", rec);
    SingleSpaceValue(ProvisionedSpec, "provisioned", rec);
    UsedValues(rec);
    var snaps := [Snapshot("purefa_array_space_datareduction_ratio", [], [Sample([], OrZero(Attr(rec, "data_reduction")))]),
                  Snapshot("purefa_array_space_capacity_bytes", [], [Sample([], OrZero(Attr(rec, "capacity")))]),
                  Snapshot("purefa_array_space_provisioned_bytes", [], [Sample([], OrZero(Attr(rec, "provisioned")))]),
                  Snapshot("purefa_array_space_used_bytes", ["dimension"], Cells(rec, [], UsedColumns, ByAttr).value)];
    forall k | 0 <= k < 4 ensures Family(ArraySpaceSpecs[k], [rec]) == Ok(snaps[k]) {
      if k == 0 {} else if k == 1 {} else if k == 2 {} else {}
    }
    FamiliesOfAll(ArraySpaceSpecs, [rec], snaps);
  }

  /** A single space line: one unlabelled sample, the field or 0. */
  lemma SingleSpaceValue(spec: FamilySpec, field: string, rec: Record)
    requires spec.layout == SpaceLayout([Column([], field, ZeroFill)])
    ensures Family(spec, [rec]) == Ok(Snapshot(spec.name, spec.labelKeys, [Sample([], OrZero(Attr(rec, field)))]))
  {
    KeylessRows(spec.layout, rec);
    SingleCell(rec, [], Column([], field, ZeroFill), ByAttr);
    var nolabels: seq<string> := [];
    assert nolabels + nolabels == nolabels;
  }

  /** The used lines: one sample per row of `array_used_mapping`, labelled by its dimension. */
  lemma UsedValues(rec: Record)
    ensures Cells(rec, [], UsedColumns, ByAttr).Ok?
    ensures Family(UsedSpec, [rec]) == Ok(Snapshot(UsedSpec.name, UsedSpec.labelKeys, Cells(rec, [], UsedColumns, ByAttr).value))
    ensures |Cells(rec, [], UsedColumns, ByAttr).value| == |ArrayUsedMapping|
    ensures forall j :: 0 <= j < |ArrayUsedMapping| ==>
              Cells(rec, [], UsedColumns, ByAttr).value[j] == Sample([ArrayUsedMapping[j].dim], OrZero(Attr(rec, ArrayUsedMapping[j].field)))
  {
    KeylessRows(UsedSpec.layout, rec);
    CellsSucceed(rec, [], UsedColumns, ByAttr);
    CellsShape(rec, [], UsedColumns, ByAttr);
    UsedColumnsFollowTable();
    var nolabels: seq<string> := [];
    assert forall l: seq<string> :: nolabels + l == l;
  }

  // ---------------------------------------------------------------- performance

  /** `array[field]` on the merged array record. */
  function PerfLayout(cols: seq<Column>): Layout { Layout([], [], cols, ByKey) }

  /** The thirteen `_latency` lines, in source order. */
  const ArrayLatencyColumns := [
    Column(["read"], "usec_per_read_op", PassThrough),
    Column(["write"], "usec_per_write_op", PassThrough),
    Column(["mirrored_write"], "usec_per_mirrored_write_op", PassThrough),
    Column(["local_queue"], "local_queue_usec_per_op", PassThrough),
    Column(["san_read"], "san_usec_per_read_op", PassThrough),
    Column(["san_write"], "san_usec_per_write_op", PassThrough),
    Column(["san_mirrored_write"], "san_usec_per_mirrored_write_op", PassThrough),
    Column(["queue_read"], "queue_usec_per_read_op", PassThrough),
    Column(["queue_write"], "queue_usec_per_write_op", PassThrough),
    Column(["queue_mirrored_write"], "queue_usec_per_mirrored_write_op", PassThrough),
    Column(["qos_read"], "qos_rate_limit_usec_per_read_op", PassThrough),
    Column(["qos_write"], "qos_rate_limit_usec_per_write_op", PassThrough),
    Column(["qos_mirrored"], "qos_rate_limit_usec_per_mirrored_write_op", PassThrough)]

  const ArrayBandwidthColumns := [
    Column(["read"], "output_per_sec", PassThrough),
    Column(["write"], "input_per_sec", PassThrough),
    Column(["mirrored_write"], "mirrored_input_per_sec", PassThrough)]

  const ArrayIopsColumns := [
    Column(["read"], "reads_per_sec", PassThrough),
    Column(["write"], "writes_per_sec", PassThrough),
    Column(["mirrored_write"], "mirrored_writes_per_sec", PassThrough)]

  const ArrayBsizeColumns := [
    Column(["read"], "bytes_per_read", PassThrough),
    Column(["write"], "bytes_per_write", PassThrough),
    Column(["mirrored_write"], "bytes_per_mirrored_write", PassThrough)]

  const LatencySpec := FamilySpec("purefa_array_performance_latency_usec", ["dimension"], PerfLayout(ArrayLatencyColumns))
  const BandwidthSpec := FamilySpec("purefa_array_performance_bandwidth_bytes", ["dimension"], PerfLayout(ArrayBandwidthColumns))
  const IopsSpec := FamilySpec("purefa_array_performance_iops", ["dimension"], PerfLayout(ArrayIopsColumns))
  const BsizeSpec := FamilySpec("purefa_array_performance_avg_block_bytes", ["dimension"], PerfLayout(ArrayBsizeColumns))
  const QdepthSpec := FamilySpec("purefa_array_performance_qdepth", [], PerfLayout([Column([], "queue_depth", ZeroFill)]))

  /** The families `ArrayPerformanceMetrics.get_metrics` yields, in order. */
  const ArrayPerformanceSpecs := [LatencySpec, BandwidthSpec, IopsSpec, BsizeSpec, QdepthSpec]

  /** The hand-written lines agree with the tables: latency is `array_latency_mapping` in
    * its order, bandwidth, iops and block size their tables, all passed through. */
  lemma PerformanceColumnsFollowTables()
    ensures ArrayLatencyColumns == ColumnsOf(ArrayLatencyMapping, PassThrough)
    ensures ArrayBandwidthColumns == ColumnsOf(ArrayBandwidthMapping, PassThrough)
    ensures ArrayIopsColumns == ColumnsOf(ArrayIopsMapping, PassThrough)
    ensures ArrayBsizeColumns == ColumnsOf(ArrayBsizeMapping, PassThrough)
  {
  }

  /** The used lines agree with `array_used_mapping`, zero-filled. */
  lemma UsedColumnsFollowTable()
    ensures UsedColumns == ColumnsOf(ArrayUsedMapping, ZeroFill)
  {
  }

  class ArrayPerformanceMetrics {
    const fa: FlashArray
    var latency: MetricFamily?
    var bandwidth: MetricFamily?
    var iops: MetricFamily?
    var avgBsz: MetricFamily?
    var qdepth: MetricFamily?

    constructor (fa: FlashArray)
      ensures this.fa == fa && latency == null && bandwidth == null && iops == null && avgBsz == null && qdepth == null
    {
      this.fa := fa;
      latency, bandwidth, iops, avgBsz, qdepth := null, null, null, null, null;
    }

    /** One of `_latency`, `_bandwidth`, `_iops`, `_avg_block_size`, `_qdepth`: fetch the merged
      * array record, declare the family, subscript the record once per line. */
    method FromArray(spec: FamilySpec) returns (fam: MetricFamily?, out: Outcome)
      requires fa.Valid()
      modifies fa`arrayRecord, fa`fetches
      ensures fa.Valid()
      ensures out.Pass? <==> FamilyOverArray(spec, fa.api, old(fa.arrayRecord)).Ok?
      ensures out.Fail? ==> out.error == FamilyOverArray(spec, fa.api, old(fa.arrayRecord)).error
      ensures ArrayResult(fa.api, old(fa.arrayRecord)).Ok? ==> fa.arrayRecord == Some(ArrayResult(fa.api, old(fa.arrayRecord)).value)
      ensures out.Pass? ==> fam != null && fresh(fam) && Ok(fam.Snap()) == FamilyOverArray(spec, fa.api, old(fa.arrayRecord))
    {
      var a := fa.GetArray();
      if a.Err? {
        return null, Fail(a.error);
      }
      var f;
      f, out := BuildFamily(spec, [a.value]);
      fam := f;
    }

    /** `get_metrics`: latency, bandwidth, iops, average block size, queue depth; the first
      * failing method aborts. */
    method GetMetrics() returns (r: Result<seq<Snapshot>>)
      requires fa.Valid()
      modifies this, fa`arrayRecord, fa`fetches
      ensures fa.Valid()
      ensures r == OverArray(ArrayPerformanceSpecs, fa.api, old(fa.arrayRecord))
      ensures r.Ok? ==> fa.arrayRecord.Some?
    {
      r := FiveMethods(LatencySpec, BandwidthSpec, IopsSpec, BsizeSpec, QdepthSpec);
    }

    /** One of the later methods of `get_metrics`: the merged record is cached by now. */
    method FromCached(spec: FamilySpec, ghost rec: Record) returns (fam: MetricFamily?, out: Outcome)
      requires fa.Valid() && fa.arrayRecord == Some(rec)
      modifies fa`arrayRecord, fa`fetches
      ensures fa.Valid() && fa.arrayRecord == Some(rec)
      ensures out.Pass? <==> Family(spec, [rec]).Ok?
      ensures out.Fail? ==> out.error == Family(spec, [rec]).error
      ensures out.Pass? ==> fam != null && fresh(fam) && Ok(fam.Snap()) == Family(spec, [rec])
    {
      var a := fa.GetArray();
      var f;
      f, out := BuildFamily(spec, [a.value]);
      fam := f;
    }

    /** The five methods of `get_metrics` in order, the first fetching (or reusing) the merged
      * array record, each filling its own family from it. */
    method FiveMethods(s0: FamilySpec, s1: FamilySpec, s2: FamilySpec, s3: FamilySpec, s4: FamilySpec) returns (r: Result<seq<Snapshot>>)
      requires fa.Valid()
      modifies this, fa`arrayRecord, fa`fetches
      ensures fa.Valid()
      ensures r == OverArray([s0, s1, s2, s3, s4], fa.api, old(fa.arrayRecord))
      ensures r.Ok? ==> fa.arrayRecord.Some?
    {
      var o;
      latency, o := FromArray(s0);
      if o.Fail? {
        if ArrayResult(fa.api, old(fa.arrayRecord)).Ok? {
          FiveFamilies([s0, s1, s2, s3, s4], [fa.arrayRecord.value]);
        }
        return Err(o.error);
      }
      r := AfterLatency(s0, s1, s2, s3, s4, fa.arrayRecord.value);
    }

    /** The methods after `latency`, which has filled from the cached record `rec`. */
    method AfterLatency(s0: FamilySpec, s1: FamilySpec, s2: FamilySpec, s3: FamilySpec, s4: FamilySpec, ghost rec: Record) returns (r: Result<seq<Snapshot>>)
      requires fa.Valid() && fa.arrayRecord == Some(rec)
      requires latency != null && Ok(latency.Snap()) == Family(s0, [rec])
      modifies this`bandwidth, this`iops, this`avgBsz, this`qdepth, fa`arrayRecord, fa`fetches
      ensures fa.Valid() && fa.arrayRecord == Some(rec)
      ensures r == FamiliesOf([s0, s1, s2, s3, s4], [rec])
    {
      FiveFamilies([s0, s1, s2, s3, s4], [rec]);
      var o;
      bandwidth, o := FromCached(s1, rec);
      if o.Fail? {
        return Err(o.error);
      }
      r := AfterBandwidth(s0, s1, s2, s3, s4, rec);
    }

    /** The methods after `bandwidth`. */
    method AfterBandwidth(s0: FamilySpec, s1: FamilySpec, s2: FamilySpec, s3: FamilySpec, s4: FamilySpec, ghost rec: Record) returns (r: Result<seq<Snapshot>>)
      requires fa.Valid() && fa.arrayRecord == Some(rec)
      requires latency != null && Ok(latency.Snap()) == Family(s0, [rec])
      requires bandwidth != null && Ok(bandwidth.Snap()) == Family(s1, [rec])
      modifies this`iops, this`avgBsz, this`qdepth, fa`arrayRecord, fa`fetches
      ensures fa.Valid() && fa.arrayRecord == Some(rec)
      ensures r == FamiliesOf([s0, s1, s2, s3, s4], [rec])
    {
      FiveFamilies([s0, s1, s2, s3, s4], [rec]);
      var o;
      iops, o := FromCached(s2, rec);
      if o.Fail? {
        return Err(o.error);
      }
      r := AfterIops(s0, s1, s2, s3, s4, rec);
    }

    /** The last two methods, average block size and queue depth. */
    method AfterIops(s0: FamilySpec, s1: FamilySpec, s2: FamilySpec, s3: FamilySpec, s4: FamilySpec, ghost rec: Record) returns (r: Result<seq<Snapshot>>)
      requires fa.Valid() && fa.arrayRecord == Some(rec)
      requires latency != null && Ok(latency.Snap()) == Family(s0, [rec])
      requires bandwidth != null && Ok(bandwidth.Snap()) == Family(s1, [rec])
      requires iops != null && Ok(iops.Snap()) == Family(s2, [rec])
      modifies this`avgBsz, this`qdepth, fa`arrayRecord, fa`fetches
      ensures fa.Valid() && fa.arrayRecord == Some(rec)
      ensures r == FamiliesOf([s0, s1, s2, s3, s4], [rec])
    {
      FiveFamilies([s0, s1, s2, s3, s4], [rec]);
      var o;
      avgBsz, o := FromCached(s3, rec);
      if o.Fail? {
        return Err(o.error);
      }
      qdepth, o := FromCached(s4, rec);
      if o.Fail? {
        return Err(o.error);
      }
      r := Ok([latency.Snap(), bandwidth.Snap(), iops.Snap(), avgBsz.Snap(), qdepth.Snap()]);
    }
  }

  /** Array performance values pass through unchanged except the queue depth, whose `None`
    * becomes 0; a field missing from the merged record makes the builder fail with its name. */
  lemma {:induction false} ArrayPerformanceValues(rec: Record)
    requires FamiliesOf(ArrayPerformanceSpecs, [rec]).Ok?
    ensures var fs := FamiliesOf(ArrayPerformanceSpecs, [rec]).value;
            |fs| == 5 &&
            FollowsTable(fs[0].samples, ArrayLatencyMapping, rec) &&
            FollowsTable(fs[1].samples, ArrayBandwidthMapping, rec) &&
            FollowsTable(fs[2].samples, ArrayIopsMapping, rec) &&
            FollowsTable(fs[3].samples, ArrayBsizeMapping, rec) &&
            "queue_depth" in rec && fs[4].samples == [Sample([], OrZero(rec["queue_depth"]))]
  {
    FiveFamilies(ArrayPerformanceSpecs, [rec]);
    LatencyFollowsTable(rec);
    BandwidthFollowsTable(rec);
    IopsFollowsTable(rec);
    BsizeFollowsTable(rec);
    QdepthValue(rec);
  }

  lemma LatencyFollowsTable(rec: Record)
    requires Family(LatencySpec, [rec]).Ok?
    ensures FollowsTable(Family(LatencySpec, [rec]).value.samples, ArrayLatencyMapping, rec)
  {
    PerformanceColumnsFollowTables();
    TableValues(LatencySpec, ArrayLatencyMapping, rec);
  }

  lemma BandwidthFollowsTable(rec: Record)
    requires Family(BandwidthSpec, [rec]).Ok?
    ensures FollowsTable(Family(BandwidthSpec, [rec]).value.samples, ArrayBandwidthMapping, rec)
  {
    PerformanceColumnsFollowTables();
    TableValues(BandwidthSpec, ArrayBandwidthMapping, rec);
  }

  lemma IopsFollowsTable(rec: Record)
    requires Family(IopsSpec, [rec]).Ok?
    ensures FollowsTable(Family(IopsSpec, [rec]).value.samples, ArrayIopsMapping, rec)
  {
    PerformanceColumnsFollowTables();
    TableValues(IopsSpec, ArrayIopsMapping, rec);
  }

  lemma BsizeFollowsTable(rec: Record)
    requires Family(BsizeSpec, [rec]).Ok?
    ensures FollowsTable(Family(BsizeSpec, [rec]).value.samples, ArrayBsizeMapping, rec)
  {
    PerformanceColumnsFollowTables();
    TableValues(BsizeSpec, ArrayBsizeMapping, rec);
  }

  /** The queue depth is the one performance value that reads `None` as 0. */
  lemma QdepthValue(rec: Record)
    requires Family(QdepthSpec, [rec]).Ok?
    ensures "queue_depth" in rec && Family(QdepthSpec, [rec]).value.samples == [Sample([], OrZero(rec["queue_depth"]))]
  {
    KeylessRows(QdepthSpec.layout, rec);
    SingleCell(rec, [], Column([], "queue_depth", ZeroFill), ByKey);
    var nolabels: seq<string> := [];
    assert nolabels + nolabels == nolabels;
  }

  /** One sample per row of the table `m`, in its order, labelled by the row's dimension
    * and carrying the raw value of the row's field, which the record holds. */
  predicate FollowsTable(samples: seq<Sample>, m: Mapping, rec: Record)
  {
    |samples| == |m| &&
    forall j :: 0 <= j < |m| ==> m[j].field in rec && samples[j] == Sample([m[j].dim], rec[m[j].field])
  }

  /** A keyless family that follows a table fills only when every field of the table is
    * present, and then follows the table. */
  lemma {:induction false} TableValues(spec: FamilySpec, m: Mapping, rec: Record)
    requires spec.layout == PerfLayout(ColumnsOf(m, PassThrough)) && Family(spec, [rec]).Ok?
    ensures FollowsTable(Family(spec, [rec]).value.samples, m, rec)
  {
    KeylessRows(spec.layout, rec);
    var cols := ColumnsOf(m, PassThrough);
    CellsShape(rec, [], cols, ByKey);
    forall j | 0 <= j < |m|
      ensures m[j].field in rec && Family(spec, [rec]).value.samples[j] == Sample([m[j].dim], rec[m[j].field])
    {
      CellAt(rec, cols, j, m[j].dim, m[j].field);
    }
  }

  /** Cell `j` of a record whose column `j` reads `field` raw under the one label `dim` is
    * that field's value under that label. */
  lemma CellAt(rec: Record, cols: seq<Column>, j: nat, dim: string, field: string)
    requires Cells(rec, [], cols, ByKey).Ok? && j < |cols| && cols[j] == Column([dim], field, PassThrough)
    ensures field in rec
    ensures j < |Cells(rec, [], cols, ByKey).value|
    ensures Cells(rec, [], cols, ByKey).value[j] == Sample([dim], rec[field])
  {
    CellsShape(rec, [], cols, ByKey);
    var nolabels: seq<string> := [];
    assert nolabels + [dim] == [dim];
  }

  lemma MissingPerformanceFieldFails(rec: Record)
    requires "usec_per_read_op" !in rec
    ensures FamiliesOf(ArrayPerformanceSpecs, [rec]) == Err(KeyError(Str("usec_per_read_op")))
  {
    assert ArrayLatencyColumns[..1] == [Column(["read"], "usec_per_read_op", PassThrough)];
    CellsPrefixFailure(rec, [], ArrayLatencyColumns, ByKey, 1);
    KeylessRows(LatencySpec.layout, rec);
    FamiliesOfFirstFailure(ArrayPerformanceSpecs, [rec], 0);
  }

  // ---------------------------------------------------------------- mapped dimensions

  /** The samples `_mk_metric` adds for one entity: one per mapping key present in it, in
    * mapping order, labelled by the entity's name and the key's dimension, carrying the raw value. */
  function EntityMapped(e: Record, mapping: Mapping): Result<seq<Sample>>
  {
    if |mapping| == 0 then Ok([])
    else
      match EntityMapped(e, mapping[..|mapping| - 1])
      case Err(f) => Err(f)
      case Ok(front) =>
        var entry := mapping[|mapping| - 1];
        if entry.field !in e then Ok(front)
        else if "name" !in e then Err(KeyError(Str("name")))
        else Ok(front + [Sample([Text(e["name"]), entry.dim], e[entry.field])])
  }

  /** `_mk_metric` over an entity list: entity order first, then mapping order. */
  function Mapped(ents: seq<Record>, mapping: Mapping): Result<seq<Sample>>
  {
    if |ents| == 0 then Ok([])
    else
      match Mapped(ents[..|ents| - 1], mapping)
      case Err(f) => Err(f)
      case Ok(front) =>
        match EntityMapped(ents[|ents| - 1], mapping)
        case Err(f) => Err(f)
        case Ok(rows) => Ok(front + rows)
  }

  /** Number of mapping keys present in an entity. */
  function Present(e: Record, mapping: Mapping): nat
  {
    if |mapping| == 0 then 0 else Present(e, mapping[..|mapping| - 1]) + (if mapping[|mapping| - 1].field in e then 1 else 0)
  }

  function TotalPresent(ents: seq<Record>, mapping: Mapping): nat
  {
    if |ents| == 0 then 0 else TotalPresent(ents[..|ents| - 1], mapping) + Present(ents[|ents| - 1], mapping)
  }

  /** One sample per present key, each `[name, dimension]` with the raw value of its key,
    * and nothing for absent keys. */
  lemma {:induction false} EntityMappedShape(e: Record, mapping: Mapping)
    requires EntityMapped(e, mapping).Ok?
    ensures |EntityMapped(e, mapping).value| == Present(e, mapping)
    ensures |EntityMapped(e, mapping).value| > 0 ==> "name" in e
    ensures forall s :: s in EntityMapped(e, mapping).value ==>
              "name" in e && exists i :: 0 <= i < |mapping| && mapping[i].field in e && s == Sample([Text(e["name"]), mapping[i].dim], e[mapping[i].field])
    ensures forall i :: 0 <= i < |mapping| && mapping[i].field in e ==>
              "name" in e && Sample([Text(e["name"]), mapping[i].dim], e[mapping[i].field]) in EntityMapped(e, mapping).value
  {
    if |mapping| > 0 {
      var init := mapping[..|mapping| - 1];
      EntityMappedShape(e, init);
      forall i | 0 <= i < |mapping| - 1 ensures init[i] == mapping[i] {}
    }
  }

  /** The sample count is the sum over entities of the mapping keys present in each. */
  lemma {:induction false} MappedCount(ents: seq<Record>, mapping: Mapping)
    requires Mapped(ents, mapping).Ok?
    ensures |Mapped(ents, mapping).value| == TotalPresent(ents, mapping)
  {
    if |ents| > 0 {
      MappedCount(ents[..|ents| - 1], mapping);
      EntityMappedShape(ents[|ents| - 1], mapping);
    }
  }

  /** An entity whose keys miss the mapping entirely needs no name and adds nothing. */
  lemma {:induction false} UnmappedEntitySilent(e: Record, mapping: Mapping)
    requires forall i :: 0 <= i < |mapping| ==> mapping[i].field !in e
    ensures EntityMapped(e, mapping) == Ok([])
  {
    if |mapping| > 0 {
      UnmappedEntitySilent(e, mapping[..|mapping| - 1]);
    }
  }

  const NetworkFamily := "purefa_network_interface_performance"

  class NetworkInterfacePerformanceMetrics {
    const fa: FlashArray
    const performance: MetricFamily

    constructor (fa: FlashArray)
      ensures this.fa == fa && fresh(performance)
      ensures performance.name == NetworkFamily && performance.labelKeys == ["interface", "dimension"] && performance.samples == []
    {
      this.fa := fa;
      performance := new MetricFamily(NetworkFamily, ["interface", "dimension"]);
    }

    /** `_mk_metric`: for each entity, for each mapping key it holds, one sample. */
    method MkMetric(metric: MetricFamily, ents: seq<Record>, mapping: Mapping) returns (out: Outcome)
      modifies metric
      ensures out.Pass? <==> Mapped(ents, mapping).Ok?
      ensures out.Pass? ==> metric.samples == old(metric.samples) + Mapped(ents, mapping).value
      ensures out.Fail? ==> out.error == Mapped(ents, mapping).error
    {
      var i := 0;
      while i < |ents|
        invariant 0 <= i <= |ents|
        invariant Mapped(ents[..i], mapping).Ok?
        invariant metric.samples == old(metric.samples) + Mapped(ents[..i], mapping).value
      {
        var e := ents[i];
        assert ents[..i + 1][..i] == ents[..i];
        var k := 0;
        while k < |mapping|
          invariant 0 <= k <= |mapping|
          invariant EntityMapped(e, mapping[..k]).Ok?
          invariant metric.samples == old(metric.samples) + Mapped(ents[..i], mapping).value + EntityMapped(e, mapping[..k]).value
        {
          assert mapping[..k + 1][..k] == mapping[..k];
          var entry := mapping[k];
          if entry.field in e {
            var name := Subscript(e, "name");
            if name.Err? {
              MappedEntityFailure(e, mapping, k + 1);
              MappedPrefixFailure(ents, mapping, i + 1);
              return Fail(name.error);
            }
            metric.AddMetric([Text(name.value), entry.dim], e[entry.field]);
          }
          k := k + 1;
        }
        assert mapping[..k] == mapping;
        i := i + 1;
      }
      assert ents[..i] == ents;
      out := Pass;
    }

    /** `_performance` over the interfaces and the interface table, both given. */
    method Performance(interfaces: seq<Record>, mapping: Mapping) returns (out: Outcome)
      modifies performance
      ensures out.Pass? <==> Mapped(interfaces, mapping).Ok?
      ensures out.Pass? ==> performance.samples == old(performance.samples) + Mapped(interfaces, mapping).value
      ensures out.Fail? ==> out.error == Mapped(interfaces, mapping).error
    {
      out := MkMetric(performance, interfaces, mapping);
    }

    /** The family's name and label keys as the constructor sets them. */
    predicate Declared()
    {
      performance.name == NetworkFamily && performance.labelKeys == ["interface", "dimension"]
    }

    /** `get_metrics`: the family object lives as long as the builder, so a second call
      * yields the first call's samples followed by the new ones. */
    method GetMetrics(interfaces: seq<Record>, mapping: Mapping) returns (r: Result<seq<Snapshot>>)
      requires Declared()
      modifies performance
      ensures r.Ok? <==> Mapped(interfaces, mapping).Ok?
      ensures r.Err? ==> r.error == Mapped(interfaces, mapping).error
      ensures r.Ok? ==> r.value == [Snapshot(NetworkFamily, ["interface", "dimension"], old(performance.samples) + Mapped(interfaces, mapping).value)]
    {
      var out := Performance(interfaces, mapping);
      if out.Fail? {
        return Err(out.error);
      }
      r := Ok([performance.Snap()]);
    }
  }

  lemma {:induction false} MappedEntityFailure(e: Record, mapping: Mapping, k: nat)
    requires k <= |mapping| && EntityMapped(e, mapping[..k]).Err?
    ensures EntityMapped(e, mapping) == EntityMapped(e, mapping[..k])
    decreases |mapping|
  {
    if k < |mapping| {
      assert mapping[..|mapping| - 1][..k] == mapping[..k];
      MappedEntityFailure(e, mapping[..|mapping| - 1], k);
    } else {
      assert mapping[..k] == mapping;
    }
  }

  lemma {:induction false} MappedPrefixFailure(ents: seq<Record>, mapping: Mapping, k: nat)
    requires k <= |ents| && k > 0 && Mapped(ents[..k - 1], mapping).Ok? && EntityMapped(ents[k - 1], mapping).Err?
    ensures Mapped(ents, mapping) == Err(EntityMapped(ents[k - 1], mapping).error)
    decreases |ents|
  {
    if k < |ents| {
      assert ents[..|ents| - 1][..k - 1] == ents[..k - 1];
      MappedPrefixFailure(ents[..|ents| - 1], mapping, k);
    } else {
      assert ents[..k - 1] == ents[..|ents| - 1];
    }
  }
}
