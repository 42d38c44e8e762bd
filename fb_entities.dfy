/** The FlashBlade per-entity builders: filesystem and bucket space and performance, bucket
  * and filesystem replica links, user and group quota usage, and client performance. Every
  * field is an SDK attribute, so once its list is in, only the client builder, which splits
  * the client name, can fail. */
module FbEntities {
  import opened Records
  import opened Families
  import opened Strings
  import opened FbSource
  import opened FbArray

  // ---------------------------------------------------------------- loops that cannot fail

  /** A loop that reads attributes only and takes every label from a field's text. */
  predicate Plain(spec: FamilySpec)
  {
    spec.layout.access == ByAttr && forall k :: 0 <= k < |spec.layout.keys| ==> !spec.layout.keys[k].SplitField?
  }

  /** Nothing in a plain loop raises, whatever the entities. */
  lemma {:induction false} PlainRows(spec: FamilySpec, ents: seq<Record>)
    requires Plain(spec)
    ensures Rows(spec.layout, ents).Ok?
  {
    forall i | 0 <= i < |ents| ensures KeyLabels(ents[i], spec.layout.keys, ByAttr).Ok? {
      PlainKeysReadable(ents[i], spec.layout.keys);
    }
    AttributeRowsFailOnlyOnKeys(spec.layout, ents);
  }

  /** A builder made of plain loops yields one family per loop, each holding its loop's rows. */
  lemma {:induction false} PlainFamilies(specs: seq<FamilySpec>, ents: seq<Record>)
    requires forall k :: 0 <= k < |specs| ==> Plain(specs[k])
    ensures FamiliesOf(specs, ents).Ok? && |FamiliesOf(specs, ents).value| == |specs|
    ensures forall k :: 0 <= k < |specs| ==>
              Rows(specs[k].layout, ents).Ok? &&
              FamiliesOf(specs, ents).value[k] == Snapshot(specs[k].name, specs[k].labelKeys, Rows(specs[k].layout, ents).value)
  {
    forall k | 0 <= k < |specs| ensures Rows(specs[k].layout, ents).Ok? {
      PlainRows(specs[k], ents);
    }
    FamiliesOfSucceed(specs, ents);
    FamiliesOfShape(specs, ents);
  }

  /** Family `k` of plain loops is a snapshot of that loop's rows. */
  lemma {:induction false} PlainFamilyAt(specs: seq<FamilySpec>, ents: seq<Record>, k: nat)
    requires forall k :: 0 <= k < |specs| ==> Plain(specs[k])
    requires k < |specs|
    ensures FamiliesOf(specs, ents).Ok? && |FamiliesOf(specs, ents).value| == |specs|
    ensures Rows(specs[k].layout, ents).Ok?
    ensures FamiliesOf(specs, ents).value[k] == Snapshot(specs[k].name, specs[k].labelKeys, Rows(specs[k].layout, ents).value)
  {
    PlainFamilies(specs, ents);
  }

  /** One plain loop: appends its rows to `fam`. */
  method Extend(fam: MetricFamily, spec: FamilySpec, ents: seq<Record>)
    requires Plain(spec)
    modifies fam
    ensures Rows(spec.layout, ents).Ok? && fam.samples == old(fam.samples) + Rows(spec.layout, ents).value
  {
    PlainRows(spec, ents);
    var o := EmitRows(fam, spec.layout, ents);
  }

  /** Families that kept their earlier samples and gained their plain loops' rows are the
    * builder's families grown by one run. */
  lemma {:induction false} GrownPlain(specs: seq<FamilySpec>, ents: seq<Record>, before: seq<seq<Sample>>, snaps: seq<Snapshot>)
    requires forall k :: 0 <= k < |specs| ==> Plain(specs[k])
    requires |before| == |specs| && |snaps| == |specs|
    requires forall k :: 0 <= k < |specs| ==>
               Rows(specs[k].layout, ents).Ok? &&
               snaps[k] == Snapshot(specs[k].name, specs[k].labelKeys, before[k] + Rows(specs[k].layout, ents).value)
    ensures Grow(before, OverEntities(specs, Ok(ents))) == Ok(snaps)
  {
    PlainFamilies(specs, ents);
    var fs := FamiliesOf(specs, ents).value;
    var g := Grown(before, fs);
    forall k | 0 <= k < |snaps| ensures g[k] == snaps[k] {
      assert fs[k] == Snapshot(specs[k].name, specs[k].labelKeys, Rows(specs[k].layout, ents).value);
    }
    assert g == snaps;
  }

  /** A family declared by the method that fills it, from one plain loop. */
  lemma {:induction false} FreshPlain(spec: FamilySpec, ents: seq<Record>, snap: Snapshot)
    requires Plain(spec) && Rows(spec.layout, ents).Ok?
    requires snap == Snapshot(spec.name, spec.labelKeys, [] + Rows(spec.layout, ents).value)
    ensures OverEntities([spec], Ok(ents)) == Ok([snap])
  {
    PlainFamilies([spec], ents);
    assert [] + Rows(spec.layout, ents).value == Rows(spec.layout, ents).value;
    assert FamiliesOf([spec], ents).value == [snap];
  }

  /** `[f.name]`: an entity labelled by one attribute. */
  lemma {:induction false} OneFieldLabel(e: Record, field: string)
    ensures KeyLabels(e, [Field(field)], ByAttr) == Ok([Text(Attr(e, field))])
  {
    assert [Field(field)][..0] == [];
    var none: seq<string> := [];
    assert none + [Text(Attr(e, field))] == [Text(Attr(e, field))];
  }

  /** Sample `i * |cols| + j` of a loop labelled by one attribute: the prefix, the entity's
    * field text, the line's dimension, and the line's attribute under its null policy. */
  lemma {:induction false} OneFieldRowAt(prefix: seq<string>, field: string, cols: seq<Column>, ents: seq<Record>, i: nat, j: nat)
    requires i < |ents| && j < |cols|
    ensures Rows(Layout(prefix, [Field(field)], cols, ByAttr), ents).Ok?
    ensures i * |cols| + j < |Rows(Layout(prefix, [Field(field)], cols, ByAttr), ents).value|
    ensures Rows(Layout(prefix, [Field(field)], cols, ByAttr), ents).value[i * |cols| + j]
              == Sample(prefix + [Text(Attr(ents[i], field))] + cols[j].extra, ApplyPolicy(Attr(ents[i], cols[j].field), cols[j].policy))
  {
    var layout := Layout(prefix, [Field(field)], cols, ByAttr);
    PlainRows(FamilySpec("", [], layout), ents);
    RowAt(layout, ents, i, j);
    OneFieldLabel(ents[i], field);
  }

  // ---------------------------------------------------------------- filesystems space

  /** The five lines of `_space`. */
  const FilesystemSpaceLines := [
    Column(["provisioned"], "provisioned", PassThrough),
    Column(["snapshots"], "space.snapshots", PassThrough),
    Column(["total_physical"], "space.total_physical", PassThrough),
    Column(["virtual"], "space.virtual", PassThrough),
    Column(["unique"], "space.unique", PassThrough)]

  /** `space.data_reduction`, 0 when `None`. */
  const DataReductionLines := [Column([], "space.data_reduction", ZeroFill)]

  const FilesystemsSpaceSpecs := [
    FamilySpec("purefb_filesystems_data_reduction", ["name"], Layout([], [Field("name")], DataReductionLines, ByAttr)),
    FamilySpec("purefb_filesystems_space_bytes", ["name", "dimension"], Layout([], [Field("name")], FilesystemSpaceLines, ByAttr))]

  /** `FilesystemsSpaceMetrics`: the constructor declares both families and lists the filesystems. */
  class FilesystemsSpaceMetrics {
    const fb: FlashBlade
    const dataReduction: MetricFamily
    const space: MetricFamily
    /** The filesystem list, or the failure that aborts construction. */
    const filesystems: Result<seq<Record>>

    predicate Declared()
    {
      dataReduction != space &&
      dataReduction.name == FilesystemsSpaceSpecs[0].name && dataReduction.labelKeys == FilesystemsSpaceSpecs[0].labelKeys &&
      space.name == FilesystemsSpaceSpecs[1].name && space.labelKeys == FilesystemsSpaceSpecs[1].labelKeys
    }

    function Samples(): seq<seq<Sample>>
      reads dataReduction, space
    {
      [dataReduction.samples, space.samples]
    }

    constructor (fb: FlashBlade)
      requires fb.Valid()
      modifies fb`filesystems, fb`fetches
      ensures fb.Valid() && this.fb == fb && filesystems == Listing(fb.api.fileSystems)
      ensures Declared() && fresh(dataReduction) && fresh(space) && Samples() == [[], []]
    {
      this.fb := fb;
      dataReduction := new MetricFamily(FilesystemsSpaceSpecs[0].name, FilesystemsSpaceSpecs[0].labelKeys);
      space := new MetricFamily(FilesystemsSpaceSpecs[1].name, FilesystemsSpaceSpecs[1].labelKeys);
      var l := fb.GetFilesystems();
      filesystems := l;
    }

    /** `get_metrics`: `_data_reduction`, then `_space`. */
    method GetMetrics() returns (r: Result<seq<Snapshot>>)
      requires Declared()
      modifies dataReduction, space
      ensures r == Grow(old(Samples()), OverEntities(FilesystemsSpaceSpecs, filesystems))
    {
      if filesystems.Err? {
        return Err(filesystems.error);
      }
      var specs := FilesystemsSpaceSpecs;
      ghost var before := Samples();
      Extend(dataReduction, specs[0], filesystems.value);
      Extend(space, specs[1], filesystems.value);
      r := Ok([dataReduction.Snap(), space.Snap()]);
      forall k | 0 <= k < 2
        ensures Plain(specs[k]) && Rows(specs[k].layout, filesystems.value).Ok? &&
                r.value[k] == Snapshot(specs[k].name, specs[k].labelKeys, before[k] + Rows(specs[k].layout, filesystems.value).value)
      {
        if k == 0 {} else {}
      }
      GrownPlain(specs, filesystems.value, before, r.value);
    }
  }

  /** Per filesystem: one data-reduction sample (0 for `None`) and five space samples, the
    * filesystem's name first and the dimension last. */
  lemma {:induction false} FilesystemsSpaceSamples(fss: seq<Record>, i: nat, j: nat)
    requires i < |fss| && j < 5
    ensures var fs := FamiliesOf(FilesystemsSpaceSpecs, fss);
      fs.Ok? && |fs.value| == 2 && i < |fs.value[0].samples| && i * 5 + j < |fs.value[1].samples| &&
      fs.value[0].samples[i] == Sample([Text(Attr(fss[i], "name"))], OrZero(Attr(fss[i], "space.data_reduction"))) &&
      fs.value[1].samples[i * 5 + j] ==
        Sample([Text(Attr(fss[i], "name"))] + FilesystemSpaceLines[j].extra, Attr(fss[i], FilesystemSpaceLines[j].field))
  {
    var specs := FilesystemsSpaceSpecs;
    assert Plain(specs[0]) && Plain(specs[1]);
    PlainFamilyAt(specs, fss, 0);
    PlainFamilyAt(specs, fss, 1);
    assert |DataReductionLines| == 1 && |FilesystemSpaceLines| == 5;
    OneFieldRowAt([], "name", DataReductionLines, fss, i, 0);
    OneFieldRowAt([], "name", FilesystemSpaceLines, fss, i, j);
    assert [] + [Text(Attr(fss[i], "name"))] + [] == [Text(Attr(fss[i], "name"))];
  }

  /** A run yields one data-reduction and five space samples per filesystem. */
  lemma {:induction false} FilesystemsSpaceCounts(fss: seq<Record>)
    ensures var fs := FamiliesOf(FilesystemsSpaceSpecs, fss);
      fs.Ok? && |fs.value| == 2 && |fs.value[0].samples| == |fss| && |fs.value[1].samples| == 5 * |fss|
  {
    var specs := FilesystemsSpaceSpecs;
    assert Plain(specs[0]) && Plain(specs[1]);
    PlainFamilies(specs, fss);
    RowsLength(specs[0].layout, fss);
    RowsLength(specs[1].layout, fss);
  }

  // ---------------------------------------------------------------- buckets space

  /** Buckets are labelled by their account's name and their own. */
  const BucketKeys := [Field("account.name"), Field("name")]

  const BucketSpaceLines := [
    Column(["snapshots"], "space.snapshots", PassThrough),
    Column(["total_physical"], "space.total_physical", PassThrough),
    Column(["virtual"], "space.virtual", PassThrough),
    Column(["unique"], "space.unique", PassThrough)]

  const ObjectCountLines := [Column([], "object_count", PassThrough)]

  const BucketsSpaceSpecs := [
    FamilySpec("purefb_buckets_data_reduction", ["account", "name"], Layout([], BucketKeys, DataReductionLines, ByAttr)),
    FamilySpec("purefb_buckets_object_count", ["account", "name"], Layout([], BucketKeys, ObjectCountLines, ByAttr)),
    FamilySpec("purefb_buckets_space_bytes", ["account", "name", "dimension"], Layout([], BucketKeys, BucketSpaceLines, ByAttr))]

  /** `BucketsSpaceMetrics`: the constructor declares the three families and lists the buckets. */
  class BucketsSpaceMetrics {
    const fb: FlashBlade
    const dataReduction: MetricFamily
    const objects: MetricFamily
    const space: MetricFamily
    /** The bucket list, or the failure that aborts construction. */
    const buckets: Result<seq<Record>>

    predicate Declared()
    {
      dataReduction != objects && dataReduction != space && objects != space &&
      dataReduction.name == BucketsSpaceSpecs[0].name && dataReduction.labelKeys == BucketsSpaceSpecs[0].labelKeys &&
      objects.name == BucketsSpaceSpecs[1].name && objects.labelKeys == BucketsSpaceSpecs[1].labelKeys &&
      space.name == BucketsSpaceSpecs[2].name && space.labelKeys == BucketsSpaceSpecs[2].labelKeys
    }

    function Samples(): seq<seq<Sample>>
      reads dataReduction, objects, space
    {
      [dataReduction.samples, objects.samples, space.samples]
    }

    constructor (fb: FlashBlade)
      requires fb.Valid()
      modifies fb`buckets, fb`fetches
      ensures fb.Valid() && this.fb == fb && buckets == Listing(fb.api.buckets)
      ensures Declared() && fresh(dataReduction) && fresh(objects) && fresh(space) && Samples() == [[], [], []]
    {
      this.fb := fb;
      dataReduction := new MetricFamily(BucketsSpaceSpecs[0].name, BucketsSpaceSpecs[0].labelKeys);
      objects := new MetricFamily(BucketsSpaceSpecs[1].name, BucketsSpaceSpecs[1].labelKeys);
      space := new MetricFamily(BucketsSpaceSpecs[2].name, BucketsSpaceSpecs[2].labelKeys);
      var l := fb.GetBuckets();
      buckets := l;
    }

    /** `get_metrics`: `_data_reduction`, `_objects`, `_space`. */
    method GetMetrics() returns (r: Result<seq<Snapshot>>)
      requires Declared()
      modifies dataReduction, objects, space
      ensures r == Grow(old(Samples()), OverEntities(BucketsSpaceSpecs, buckets))
    {
      if buckets.Err? {
        return Err(buckets.error);
      }
      var specs := BucketsSpaceSpecs;
      ghost var before := Samples();
      Extend(dataReduction, specs[0], buckets.value);
      Extend(objects, specs[1], buckets.value);
      Extend(space, specs[2], buckets.value);
      r := Ok([dataReduction.Snap(), objects.Snap(), space.Snap()]);
      forall k | 0 <= k < 3
        ensures Plain(specs[k]) && Rows(specs[k].layout, buckets.value).Ok? &&
                r.value[k] == Snapshot(specs[k].name, specs[k].labelKeys, before[k] + Rows(specs[k].layout, buckets.value).value)
      {
        if k == 0 {} else if k == 1 {} else {}
      }
      GrownPlain(specs, buckets.value, before, r.value);
    }
  }

  /** `[b.account.name, b.name]`. */
  lemma {:induction false} BucketLabels(e: Record)
    ensures KeyLabels(e, BucketKeys, ByAttr) == Ok([Text(Attr(e, "account.name")), Text(Attr(e, "name"))])
  {
    assert BucketKeys[..1] == [Field("account.name")] && BucketKeys[1] == Field("name");
    OneFieldLabel(e, "account.name");
    assert KeyText(e, BucketKeys[1], ByAttr) == Ok([Text(Attr(e, "name"))]);
    assert [Text(Attr(e, "account.name"))] + [Text(Attr(e, "name"))] == [Text(Attr(e, "account.name")), Text(Attr(e, "name"))];
  }

  /** Row `i * |cols| + j` of a loop over buckets, labelled by account and bucket name. */
  lemma {:induction false} BucketRowAt(cols: seq<Column>, bs: seq<Record>, i: nat, j: nat)
    requires i < |bs| && j < |cols|
    ensures Rows(Layout([], BucketKeys, cols, ByAttr), bs).Ok?
    ensures i * |cols| + j < |Rows(Layout([], BucketKeys, cols, ByAttr), bs).value|
    ensures Rows(Layout([], BucketKeys, cols, ByAttr), bs).value[i * |cols| + j]
              == Sample([Text(Attr(bs[i], "account.name")), Text(Attr(bs[i], "name"))] + cols[j].extra,
                        ApplyPolicy(Attr(bs[i], cols[j].field), cols[j].policy))
  {
    var layout := Layout([], BucketKeys, cols, ByAttr);
    PlainRows(FamilySpec("", [], layout), bs);
    RowAt(layout, bs, i, j);
    BucketLabels(bs[i]);
    var lead := [Text(Attr(bs[i], "account.name")), Text(Attr(bs[i], "name"))];
    assert [] + lead == lead;
  }

  /** Per bucket: one data-reduction sample (0 for `None`) and one object-count sample,
    * labelled by account and bucket name. */
  lemma {:induction false} BucketsCountSamples(bs: seq<Record>, i: nat)
    requires i < |bs|
    ensures var fs := FamiliesOf(BucketsSpaceSpecs, bs);
      var lead := [Text(Attr(bs[i], "account.name")), Text(Attr(bs[i], "name"))];
      fs.Ok? && |fs.value| == 3 && i < |fs.value[0].samples| && i < |fs.value[1].samples| &&
      fs.value[0].samples[i] == Sample(lead, OrZero(Attr(bs[i], "space.data_reduction"))) &&
      fs.value[1].samples[i] == Sample(lead, Attr(bs[i], "object_count"))
  {
    var specs := BucketsSpaceSpecs;
    assert Plain(specs[0]) && Plain(specs[1]) && Plain(specs[2]);
    PlainFamilyAt(specs, bs, 0);
    PlainFamilyAt(specs, bs, 1);
    assert |DataReductionLines| == 1 && |ObjectCountLines| == 1;
    BucketRowAt(DataReductionLines, bs, i, 0);
    BucketRowAt(ObjectCountLines, bs, i, 0);
    var lead := [Text(Attr(bs[i], "account.name")), Text(Attr(bs[i], "name"))];
    assert lead + [] == lead;
  }

  /** Per bucket: four space samples, labelled by account, bucket name and dimension. */
  lemma {:induction false} BucketsSpaceSamples(bs: seq<Record>, i: nat, j: nat)
    requires i < |bs| && j < 4
    ensures var fs := FamiliesOf(BucketsSpaceSpecs, bs);
      fs.Ok? && |fs.value| == 3 && i * 4 + j < |fs.value[2].samples| &&
      fs.value[2].samples[i * 4 + j] ==
        Sample([Text(Attr(bs[i], "account.name")), Text(Attr(bs[i], "name"))] + BucketSpaceLines[j].extra,
               Attr(bs[i], BucketSpaceLines[j].field))
  {
    var specs := BucketsSpaceSpecs;
    assert Plain(specs[0]) && Plain(specs[1]) && Plain(specs[2]);
    PlainFamilyAt(specs, bs, 2);
    assert |BucketSpaceLines| == 4;
    BucketRowAt(BucketSpaceLines, bs, i, j);
  }

  /** A run yields one data-reduction, one object-count and four space samples per bucket. */
  lemma {:induction false} BucketsSpaceCounts(bs: seq<Record>)
    ensures var fs := FamiliesOf(BucketsSpaceSpecs, bs);
      fs.Ok? && |fs.value| == 3 &&
      |fs.value[0].samples| == |bs| && |fs.value[1].samples| == |bs| && |fs.value[2].samples| == 4 * |bs|
  {
    var specs := BucketsSpaceSpecs;
    assert Plain(specs[0]) && Plain(specs[1]) && Plain(specs[2]);
    PlainFamilies(specs, bs);
    RowsLength(specs[0].layout, bs);
    RowsLength(specs[1].layout, bs);
    RowsLength(specs[2].layout, bs);
  }

  // ---------------------------------------------------------------- filesystems performance

  /** The nfs performance loops: `['nfs', f.name, dimension]`, with the array's lines. */
  function NfsLayout(cols: seq<Column>): Layout
  {
    Layout(["nfs"], [Field("name")], cols, ByAttr)
  }

  const FilesystemsPerformanceSpecs := [
    FamilySpec("purefb_filesystem_performance_latency_usec", ["protocol", "name", "dimension"], NfsLayout(LatencyLines)),
    FamilySpec("purefb_filesystem_performance_iops", ["protocol", "name", "dimension"], NfsLayout(IopsLines)),
    FamilySpec("purefb_filesystem_performance_opns_bytes", ["protocol", "name", "dimension"], NfsLayout(OpsSizeLines)),
    FamilySpec("purefb_filesystem_performance_throughput_bytes", ["protocol", "name", "dimension"], NfsLayout(ThroughputLines))]

  /** `FilesystemsPerformanceMetrics`: the constructor declares the four families and gathers the
    * nfs performance of every filesystem. */
  class FilesystemsPerformanceMetrics {
    const fb: FlashBlade
    const latency: MetricFamily
    const iops: MetricFamily
    const opsSize: MetricFamily
    const throughput: MetricFamily
    /** The nfs performance records, or the failure that aborts construction. */
    const nfsPerformance: Result<seq<Record>>

    predicate Declared()
    {
      latency != iops && latency != opsSize && latency != throughput &&
      iops != opsSize && iops != throughput && opsSize != throughput &&
      latency.name == FilesystemsPerformanceSpecs[0].name && latency.labelKeys == FilesystemsPerformanceSpecs[0].labelKeys &&
      iops.name == FilesystemsPerformanceSpecs[1].name && iops.labelKeys == FilesystemsPerformanceSpecs[1].labelKeys &&
      opsSize.name == FilesystemsPerformanceSpecs[2].name && opsSize.labelKeys == FilesystemsPerformanceSpecs[2].labelKeys &&
      throughput.name == FilesystemsPerformanceSpecs[3].name && throughput.labelKeys == FilesystemsPerformanceSpecs[3].labelKeys
    }

    function Samples(): seq<seq<Sample>>
      reads latency, iops, opsSize, throughput
    {
      [latency.samples, iops.samples, opsSize.samples, throughput.samples]
    }

    constructor (fb: FlashBlade)
      requires fb.Valid()
      modifies fb`nfsFilesystemsPerformance, fb`filesystems, fb`fetches
      ensures fb.Valid() && this.fb == fb
      ensures old(fb.Settled()) ==> nfsPerformance == NfsResult(fb.api)
      ensures old(fb.Settled()) && nfsPerformance.Ok? ==> fb.Settled()
      ensures Declared() && fresh(latency) && fresh(iops) && fresh(opsSize) && fresh(throughput)
      ensures Samples() == [[], [], [], []]
    {
      var l := fb.GetNfsFilesystemsPerformance();
      this.fb := fb;
      var specs := FilesystemsPerformanceSpecs;
      latency := new MetricFamily(specs[0].name, specs[0].labelKeys);
      iops := new MetricFamily(specs[1].name, specs[1].labelKeys);
      opsSize := new MetricFamily(specs[2].name, specs[2].labelKeys);
      throughput := new MetricFamily(specs[3].name, specs[3].labelKeys);
      nfsPerformance := l;
    }

    /** `get_metrics`: `_latency`, `_iops`, `_ops_size`, `_throughput`. */
    method GetMetrics() returns (r: Result<seq<Snapshot>>)
      requires Declared()
      modifies latency, iops, opsSize, throughput
      ensures r == Grow(old(Samples()), OverEntities(FilesystemsPerformanceSpecs, nfsPerformance))
    {
      if nfsPerformance.Err? {
        return Err(nfsPerformance.error);
      }
      var specs := FilesystemsPerformanceSpecs;
      var ps := nfsPerformance.value;
      ghost var before := Samples();
      Extend(latency, specs[0], ps);
      Extend(iops, specs[1], ps);
      Extend(opsSize, specs[2], ps);
      Extend(throughput, specs[3], ps);
      r := Ok([latency.Snap(), iops.Snap(), opsSize.Snap(), throughput.Snap()]);
      forall k | 0 <= k < 4
        ensures Plain(specs[k]) && Rows(specs[k].layout, ps).Ok? &&
                r.value[k] == Snapshot(specs[k].name, specs[k].labelKeys, before[k] + Rows(specs[k].layout, ps).value)
      {
        if k == 0 {} else if k == 1 {} else if k == 2 {} else {}
      }
      GrownPlain(specs, ps, before, r.value);
    }
  }

  /** Every nfs performance sample is labelled `nfs`, the filesystem's name and the line's
    * dimension, and carries the line's attribute as read. */
  lemma {:induction false} FilesystemsPerformanceSamples(ps: seq<Record>, k: nat, i: nat, j: nat)
    requires k < 4 && i < |ps| && j < |FilesystemsPerformanceSpecs[k].layout.cols|
    ensures var fs := FamiliesOf(FilesystemsPerformanceSpecs, ps);
      var cols := FilesystemsPerformanceSpecs[k].layout.cols;
      fs.Ok? && |fs.value| == 4 && i * |cols| + j < |fs.value[k].samples| &&
      fs.value[k].samples[i * |cols| + j] == Sample(["nfs", Text(Attr(ps[i], "name"))] + cols[j].extra, Attr(ps[i], cols[j].field))
  {
    var specs := FilesystemsPerformanceSpecs;
    assert Plain(specs[0]) && Plain(specs[1]) && Plain(specs[2]) && Plain(specs[3]);
    PlainFamilyAt(specs, ps, k);
    OneFieldRowAt(["nfs"], "name", specs[k].layout.cols, ps, i, j);
    assert ["nfs"] + [Text(Attr(ps[i], "name"))] == ["nfs", Text(Attr(ps[i], "name"))];
  }

  /** A run yields three latency, three iops, three size and two throughput samples per filesystem. */
  lemma {:induction false} FilesystemsPerformanceCounts(ps: seq<Record>)
    ensures var fs := FamiliesOf(FilesystemsPerformanceSpecs, ps);
      fs.Ok? && |fs.value| == 4 &&
      |fs.value[0].samples| == 3 * |ps| && |fs.value[1].samples| == 3 * |ps| &&
      |fs.value[2].samples| == 3 * |ps| && |fs.value[3].samples| == 2 * |ps|
  {
    var specs := FilesystemsPerformanceSpecs;
    assert Plain(specs[0]) && Plain(specs[1]) && Plain(specs[2]) && Plain(specs[3]);
    PlainFamilies(specs, ps);
    RowsLength(specs[0].layout, ps);
    RowsLength(specs[1].layout, ps);
    RowsLength(specs[2].layout, ps);
    RowsLength(specs[3].layout, ps);
  }

  // ---------------------------------------------------------------- buckets performance

  const BucketLatencyLines := [
    Column(["read_buckets"], "usec_per_read_bucket_op", PassThrough),
    Column(["read_objects"], "usec_per_read_object_op", PassThrough),
    Column(["write_buckets"], "usec_per_write_bucket_op", PassThrough),
    Column(["write_objects"], "usec_per_write_object_op", PassThrough),
    Column(["other"], "usec_per_other_op", PassThrough)]

  /** The lines of the bucket throughput family read operation rates, not byte rates. */
  const BucketThroughputLines := [
    Column(["read_buckets"], "read_buckets_per_sec", PassThrough),
    Column(["read_objects"], "read_objects_per_sec", PassThrough),
    Column(["write_buckets"], "write_buckets_per_sec", PassThrough),
    Column(["write_objects"], "write_objects_per_sec", PassThrough),
    Column(["other"], "others_per_sec", PassThrough)]

  const BucketsPerformanceSpecs := [
    FamilySpec("purefb_bucket_performance_latency_usec", ["name", "dimension"], Layout([], [Field("name")], BucketLatencyLines, ByAttr)),
    FamilySpec("purefb_bucket_performance_throughput_bytes", ["name", "dimension"], Layout([], [Field("name")], BucketThroughputLines, ByAttr))]

  /** `BucketsPerformanceMetrics`: the constructor declares both families and gathers the
    * performance of every bucket. */
  class BucketsPerformanceMetrics {
    const fb: FlashBlade
    const latency: MetricFamily
    const throughput: MetricFamily
    /** The bucket performance records, or the failure that aborts construction. */
    const bucketsPerformance: Result<seq<Record>>

    predicate Declared()
    {
      latency != throughput &&
      latency.name == BucketsPerformanceSpecs[0].name && latency.labelKeys == BucketsPerformanceSpecs[0].labelKeys &&
      throughput.name == BucketsPerformanceSpecs[1].name && throughput.labelKeys == BucketsPerformanceSpecs[1].labelKeys
    }

    function Samples(): seq<seq<Sample>>
      reads latency, throughput
    {
      [latency.samples, throughput.samples]
    }

    constructor (fb: FlashBlade)
      requires fb.Valid()
      modifies fb`bucketsPerformance, fb`buckets, fb`fetches
      ensures fb.Valid() && this.fb == fb
      ensures old(fb.Settled()) ==> bucketsPerformance == Settle(BucketsGathered(fb.api))
      ensures old(fb.Settled()) && bucketsPerformance.Ok? ==> fb.Settled()
      ensures Declared() && fresh(latency) && fresh(throughput) && Samples() == [[], []]
    {
      this.fb := fb;
      latency := new MetricFamily(BucketsPerformanceSpecs[0].name, BucketsPerformanceSpecs[0].labelKeys);
      throughput := new MetricFamily(BucketsPerformanceSpecs[1].name, BucketsPerformanceSpecs[1].labelKeys);
      var l := fb.GetBucketsPerformance();
      bucketsPerformance := l;
    }

    /** `get_metrics`: `_latency`, then `_throughput`. */
    method GetMetrics() returns (r: Result<seq<Snapshot>>)
      requires Declared()
      modifies latency, throughput
      ensures r == Grow(old(Samples()), OverEntities(BucketsPerformanceSpecs, bucketsPerformance))
    {
      if bucketsPerformance.Err? {
        return Err(bucketsPerformance.error);
      }
      var specs := BucketsPerformanceSpecs;
      var ps := bucketsPerformance.value;
      ghost var before := Samples();
      Extend(latency, specs[0], ps);
      Extend(throughput, specs[1], ps);
      r := Ok([latency.Snap(), throughput.Snap()]);
      forall k | 0 <= k < 2
        ensures Plain(specs[k]) && Rows(specs[k].layout, ps).Ok? &&
                r.value[k] == Snapshot(specs[k].name, specs[k].labelKeys, before[k] + Rows(specs[k].layout, ps).value)
      {
        if k == 0 {} else {}
      }
      GrownPlain(specs, ps, before, r.value);
    }
  }

  /** Five latency and five throughput samples per bucket, labelled by its name; throughput
    * line `j` has the dimension of latency line `j` and reads that operation's rate per second. */
  lemma {:induction false} BucketsPerformanceSamples(ps: seq<Record>, i: nat, j: nat)
    requires i < |ps| && j < 5
    ensures var fs := FamiliesOf(BucketsPerformanceSpecs, ps);
      fs.Ok? && |fs.value| == 2 && i * 5 + j < |fs.value[0].samples| && i * 5 + j < |fs.value[1].samples| &&
      fs.value[0].samples[i * 5 + j] == Sample([Text(Attr(ps[i], "name"))] + BucketLatencyLines[j].extra, Attr(ps[i], BucketLatencyLines[j].field)) &&
      fs.value[1].samples[i * 5 + j] == Sample([Text(Attr(ps[i], "name"))] + BucketThroughputLines[j].extra, Attr(ps[i], BucketThroughputLines[j].field)) &&
      BucketLatencyLines[j].extra == BucketThroughputLines[j].extra
  {
    var specs := BucketsPerformanceSpecs;
    assert Plain(specs[0]) && Plain(specs[1]);
    PlainFamilyAt(specs, ps, 0);
    PlainFamilyAt(specs, ps, 1);
    assert |BucketLatencyLines| == 5 && |BucketThroughputLines| == 5;
    OneFieldRowAt([], "name", BucketLatencyLines, ps, i, j);
    OneFieldRowAt([], "name", BucketThroughputLines, ps, i, j);
    assert [] + [Text(Attr(ps[i], "name"))] == [Text(Attr(ps[i], "name"))];
  }

  /** A run yields five latency and five throughput samples per bucket. */
  lemma {:induction false} BucketsPerformanceCounts(ps: seq<Record>)
    ensures var fs := FamiliesOf(BucketsPerformanceSpecs, ps);
      fs.Ok? && |fs.value| == 2 && |fs.value[0].samples| == 5 * |ps| && |fs.value[1].samples| == 5 * |ps|
  {
    var specs := BucketsPerformanceSpecs;
    assert Plain(specs[0]) && Plain(specs[1]);
    PlainFamilies(specs, ps);
    RowsLength(specs[0].layout, ps);
    RowsLength(specs[1].layout, ps);
  }

  // ---------------------------------------------------------------- replica links

  const LagLines := [Column([], "lag", PassThrough)]

  const BucketsReplicaSpec := FamilySpec("purefb_bucket_replica_links_lag_msec",
    ["name", "direction", "remote_name", "remote_bucket_name", "remote_account", "status"],
    Layout([], [Field("local_bucket.name"), Field("direction"), Field("remote.name"), Field("remote_bucket.name"),
                Field("remote_credentials.name"), Field("status")], LagLines, ByAttr))

  const FilesystemsReplicaSpec := FamilySpec("purefb_bucket_filesystems_links_lag_msec",
    ["name", "direction", "remote_name", "remote_filesystem_name", "status"],
    Layout([], [Field("local_file_system.name"), Field("direction"), Field("remote.name"), Field("remote_file_system.name"),
                Field("status")], LagLines, ByAttr))

  /** `BucketsReplicaMetrics`: the constructor declares the family and lists the bucket replica links. */
  class BucketsReplicaMetrics {
    const fb: FlashBlade
    const replicaLinks: MetricFamily
    /** The replica links, or the failure that aborts construction. */
    const links: Result<seq<Record>>

    constructor (fb: FlashBlade)
      requires fb.Valid()
      modifies fb`bucketsReplicaLinks, fb`fetches
      ensures fb.Valid() && this.fb == fb && links == Listing(fb.api.bucketReplicaLinks)
      ensures fresh(replicaLinks) && replicaLinks.name == BucketsReplicaSpec.name
      ensures replicaLinks.labelKeys == BucketsReplicaSpec.labelKeys && replicaLinks.samples == []
    {
      this.fb := fb;
      replicaLinks := new MetricFamily(BucketsReplicaSpec.name, BucketsReplicaSpec.labelKeys);
      var l := fb.GetBucketReplicaLinks();
      links := l;
    }

    /** `get_metrics`: `_replica_links`. */
    method GetMetrics() returns (r: Result<seq<Snapshot>>)
      requires replicaLinks.name == BucketsReplicaSpec.name && replicaLinks.labelKeys == BucketsReplicaSpec.labelKeys
      modifies replicaLinks
      ensures r == Grow([old(replicaLinks.samples)], OverEntities([BucketsReplicaSpec], links))
    {
      if links.Err? {
        return Err(links.error);
      }
      ghost var before := [replicaLinks.samples];
      Extend(replicaLinks, BucketsReplicaSpec, links.value);
      r := Ok([replicaLinks.Snap()]);
      GrownPlain([BucketsReplicaSpec], links.value, before, r.value);
    }
  }

  /** `FilesystemsReplicaMetrics`: its method declares the family, then lists the filesystem
    * replica links. */
  class FilesystemsReplicaMetrics {
    const fb: FlashBlade
    var replicaLinksLag: MetricFamily?

    constructor (fb: FlashBlade)
      ensures this.fb == fb && replicaLinksLag == null
    {
      this.fb := fb;
      replicaLinksLag := null;
    }

    /** `get_metrics`: `_replica_links_lag`. */
    method GetMetrics() returns (r: Result<seq<Snapshot>>)
      requires fb.Valid()
      modifies this`replicaLinksLag, fb`filesystemsReplicaLinks, fb`fetches
      ensures fb.Valid()
      ensures r == OverEntities([FilesystemsReplicaSpec], Listing(fb.api.fileSystemReplicaLinks))
    {
      var fam := new MetricFamily(FilesystemsReplicaSpec.name, FilesystemsReplicaSpec.labelKeys);
      replicaLinksLag := fam;
      var l := fb.GetFilesystemReplicaLinks();
      if l.Err? {
        return Err(l.error);
      }
      Extend(fam, FilesystemsReplicaSpec, l.value);
      r := Ok([fam.Snap()]);
      FreshPlain(FilesystemsReplicaSpec, l.value, r.value[0]);
    }
  }

  /** The label fields of a replica link, in the order of the family's label keys. */
  function LinkLabels(keys: seq<Key>, e: Record): (labels: seq<string>)
    ensures |labels| == |keys|
  {
    if |keys| == 0 then [] else LinkLabels(keys[..|keys| - 1], e) + [Text(Attr(e, keys[|keys| - 1].field))]
  }

  /** A link's labels are the texts of its attributes, whatever they hold. */
  lemma {:induction false} LinkLabelsRead(keys: seq<Key>, e: Record)
    requires forall k :: 0 <= k < |keys| ==> keys[k].Field?
    ensures KeyLabels(e, keys, ByAttr) == Ok(LinkLabels(keys, e))
  {
    if |keys| > 0 {
      LinkLabelsRead(keys[..|keys| - 1], e);
    }
  }

  /** Both replica loops: no prefix, one label key per plain attribute key, and the lag alone. */
  lemma {:induction false} ReplicaShape(spec: FamilySpec)
    requires spec == BucketsReplicaSpec || spec == FilesystemsReplicaSpec
    ensures Plain(spec) && spec.layout.prefix == [] && spec.layout.cols == LagLines
    ensures |spec.layout.keys| == |spec.labelKeys|
    ensures forall k :: 0 <= k < |spec.layout.keys| ==> spec.layout.keys[k].Field?
  {
  }

  /** One lag sample per link, labelled by the link's attributes and carrying its lag; both
    * replica families have one label value per label key. */
  lemma {:induction false} ReplicaSamples(spec: FamilySpec, links: seq<Record>, i: nat)
    requires spec == BucketsReplicaSpec || spec == FilesystemsReplicaSpec
    requires i < |links|
    ensures var fs := FamiliesOf([spec], links);
      fs.Ok? && |fs.value| == 1 && |fs.value[0].samples| == |links| &&
      fs.value[0].samples[i] == Sample(LinkLabels(spec.layout.keys, links[i]), Attr(links[i], "lag")) &&
      |fs.value[0].samples[i].labels| == |spec.labelKeys|
  {
    ReplicaShape(spec);
    PlainFamilyAt([spec], links, 0);
    RowsLength(spec.layout, links);
    RowAt(spec.layout, links, i, 0);
    LinkLabelsRead(spec.layout.keys, links[i]);
    var labels := LinkLabels(spec.layout.keys, links[i]);
    assert [] + labels + [] == labels;
  }

  // ---------------------------------------------------------------- quota usage

  datatype UsageKind = Users | Groups

  /** `[file_system.name, name or '', str(id)]` of the user or the group. */
  function UsageKeys(kind: UsageKind): seq<Key>
  {
    var who := if kind == Users then "user" else "group";
    [Field("file_system.name"), FieldOrEmpty(who + ".name"), Field(who + ".id")]
  }

  /** The quota, 0 when `None`, then the usage as read. */
  const UsageLines := [Column(["quota"], "quota", ZeroFill), Column(["usage"], "usage", PassThrough)]

  function UsageSpec(kind: UsageKind): FamilySpec
  {
    match kind
    case Users => FamilySpec("purefb_filesystem_user_usage_bytes", ["name", "user_name", "uid", "dimension"],
                             Layout([], UsageKeys(Users), UsageLines, ByAttr))
    case Groups => FamilySpec("purefb_filesystem_group_usage_bytes", ["name", "group_name", "gid", "dimension"],
                              Layout([], UsageKeys(Groups), UsageLines, ByAttr))
  }

  /** `get_users_usage()` or `get_groups_usage()` on a settled data source. */
  function UsageListed(api: FbApi, kind: UsageKind): Result<seq<Record>>
  {
    Settle(UsageGathered(api, if kind == Users then api.userUsage else api.groupUsage))
  }

  /** `UsageUsersMetrics` and `UsageGroupsMetrics`: the method declares the family, then reads
    * the usage list. */
  class UsageMetrics {
    const fb: FlashBlade
    const kind: UsageKind
    var usage: MetricFamily?

    constructor (fb: FlashBlade, kind: UsageKind)
      ensures this.fb == fb && this.kind == kind && usage == null
    {
      this.fb := fb;
      this.kind := kind;
      usage := null;
    }

    /** The user or group usage listing, through the array's cache. */
    method Fetch() returns (l: Result<seq<Record>>)
      requires fb.Valid()
      modifies fb`usersUsage, fb`groupsUsage, fb`filesystems, fb`fetches
      ensures fb.Valid()
      ensures old(fb.Settled()) ==> l == UsageListed(fb.api, kind)
      ensures old(fb.Settled()) && l.Ok? ==> fb.Settled()
    {
      if kind == Users {
        l := fb.GetUsersUsage();
      } else {
        l := fb.GetGroupsUsage();
      }
    }

    /** `get_metrics`: `_usage`. */
    method GetMetrics() returns (r: Result<seq<Snapshot>>)
      requires fb.Valid()
      modifies this`usage, fb`usersUsage, fb`groupsUsage, fb`filesystems, fb`fetches
      ensures fb.Valid()
      ensures old(fb.Settled()) ==> r == OverEntities([UsageSpec(kind)], UsageListed(fb.api, kind))
      ensures old(fb.Settled()) && r.Ok? ==> fb.Settled()
    {
      var l := Fetch();
      r := Build(l);
    }

    /** A fresh usage family filled from the listing, or the listing's failure. */
    method Build(l: Result<seq<Record>>) returns (r: Result<seq<Snapshot>>)
      modifies this`usage
      ensures r == OverEntities([UsageSpec(kind)], l)
    {
      var spec := UsageSpec(kind);
      var fam := new MetricFamily(spec.name, spec.labelKeys);
      usage := fam;
      if l.Err? {
        return Err(l.error);
      }
      UsagePlain(kind);
      Extend(fam, spec, l.value);
      r := Ok([fam.Snap()]);
      FreshPlain(spec, l.value, r.value[0]);
    }
  }

  /** Both usage loops read plain attributes and never split. */
  lemma {:induction false} UsagePlain(kind: UsageKind)
    ensures Plain(UsageSpec(kind))
  {
    var keys := UsageKeys(kind);
    assert !keys[0].SplitField? && !keys[1].SplitField? && !keys[2].SplitField?;
  }

  /** The name of a user or group: empty when `None`. */
  function UsageName(e: Record, kind: UsageKind): string
  {
    var v := Attr(e, (if kind == Users then "user" else "group") + ".name");
    if v.Null? then "" else Text(v)
  }

  /** `[file_system.name, name or '', str(id)]`. */
  lemma {:induction false} UsageLabels(kind: UsageKind, e: Record)
    ensures var who := if kind == Users then "user" else "group";
      KeyLabels(e, UsageKeys(kind), ByAttr) == Ok([Text(Attr(e, "file_system.name")), UsageName(e, kind), Text(Attr(e, who + ".id"))])
  {
    var keys := UsageKeys(kind);
    var who := if kind == Users then "user" else "group";
    assert keys[..2][..1] == [keys[0]] && keys[..2][1] == keys[1] && keys[..3] == keys;
    OneFieldLabel(e, "file_system.name");
    var a, b, c := Text(Attr(e, "file_system.name")), UsageName(e, kind), Text(Attr(e, who + ".id"));
    assert KeyText(e, keys[1], ByAttr) == Ok([b]);
    assert KeyText(e, keys[2], ByAttr) == Ok([c]);
    assert KeyLabels(e, keys[..2], ByAttr) == Ok([a] + [b]);
    assert [a] + [b] + [c] == [a, b, c];
  }

  /** A quota and a usage sample per record, labelled by filesystem, name (empty for `None`),
    * the id's text and the dimension; a missing quota reads 0, a missing usage stays `None`. */
  lemma {:induction false} UsageSamples(kind: UsageKind, us: seq<Record>, i: nat)
    requires i < |us|
    ensures var fs := FamiliesOf([UsageSpec(kind)], us);
      var who := if kind == Users then "user" else "group";
      var lead := [Text(Attr(us[i], "file_system.name")), UsageName(us[i], kind), Text(Attr(us[i], who + ".id"))];
      fs.Ok? && |fs.value| == 1 && |fs.value[0].samples| == 2 * |us| &&
      fs.value[0].samples[2 * i] == Sample(lead + ["quota"], OrZero(Attr(us[i], "quota"))) &&
      fs.value[0].samples[2 * i + 1] == Sample(lead + ["usage"], Attr(us[i], "usage"))
  {
    var spec := UsageSpec(kind);
    assert Plain(spec);
    PlainFamilyAt([spec], us, 0);
    RowsLength(spec.layout, us);
    RowAt(spec.layout, us, i, 0);
    RowAt(spec.layout, us, i, 1);
    UsageLabels(kind, us[i]);
    var who := if kind == Users then "user" else "group";
    var lead := [Text(Attr(us[i], "file_system.name")), UsageName(us[i], kind), Text(Attr(us[i], who + ".id"))];
    assert [] + lead == lead;
  }

  // ---------------------------------------------------------------- clients performance

  /** `client, port = cperf.name.split(':')`. */
  const ClientKeys := [SplitField("name", ':')]

  function ClientLayout(cols: seq<Column>): Layout
  {
    Layout([], ClientKeys, cols, ByAttr)
  }

  const ClientSpecs := [
    FamilySpec("purefb_client_performance_latency_usec", ["name", "port", "dimension"], ClientLayout(LatencyLines)),
    FamilySpec("purefb_client_performance_iops", ["name", "port", "dimension"], ClientLayout(IopsLines)),
    FamilySpec("purefb_client_performance_opns_bytes", ["name", "port", "dimension"], ClientLayout(OpsSizeLines)),
    FamilySpec("purefb_client_performance_throughput_bytes", ["name", "port", "dimension"], ClientLayout(ThroughputLines))]

  /** `ClientsPerformanceMetrics`: each method declares a fresh family, then reads the client list. */
  class ClientsPerformanceMetrics {
    const fb: FlashBlade
    var latency: MetricFamily?
    var iops: MetricFamily?
    var opsSize: MetricFamily?
    var throughput: MetricFamily?

    constructor (fb: FlashBlade)
      ensures this.fb == fb && latency == null && iops == null && opsSize == null && throughput == null
    {
      this.fb := fb;
      latency, iops, opsSize, throughput := null, null, null, null;
    }

    /** One of `_latency`, `_iops`, `_ops_size`, `_throughput`. */
    method FromList(spec: FamilySpec) returns (fam: MetricFamily, out: Outcome)
      requires fb.ClientsValid()
      modifies fb`clientsPerformance, fb`fetches
      ensures fb.ClientsValid() && fresh(fam) && fam.name == spec.name && fam.labelKeys == spec.labelKeys
      ensures out.Pass? <==> FamilyOver(spec, Listing(fb.api.clients)).Ok?
      ensures out.Fail? ==> out.error == FamilyOver(spec, Listing(fb.api.clients)).error
      ensures out.Pass? ==> Ok(fam.Snap()) == FamilyOver(spec, Listing(fb.api.clients))
    {
      var l := fb.GetClientsPerformance();
      if l.Err? {
        fam := new MetricFamily(spec.name, spec.labelKeys);
        return fam, Fail(l.error);
      }
      fam, out := BuildFamily(spec, l.value);
    }

    /** `get_metrics`: latency, iops, operation size, throughput; the first failing method aborts. */
    method GetMetrics() returns (r: Result<seq<Snapshot>>)
      requires fb.Valid()
      modifies this`latency, this`iops, this`opsSize, this`throughput, fb`clientsPerformance, fb`fetches
      ensures fb.Valid() && (old(fb.Settled()) ==> fb.Settled())
      ensures r == OverEntities(ClientSpecs, Listing(fb.api.clients))
    {
      r := AllMethods();
      fb.ClientsRefilled();
    }

    method AllMethods() returns (r: Result<seq<Snapshot>>)
      requires fb.ClientsValid()
      modifies this`latency, this`iops, this`opsSize, this`throughput, fb`clientsPerformance, fb`fetches
      ensures fb.ClientsValid()
      ensures r == OverEntities(ClientSpecs, Listing(fb.api.clients))
    {
      var o;
      latency, o := FromList(ClientSpecs[0]);
      if o.Fail? {
        if fb.api.clients.Answered? {
          FourFamilies(ClientSpecs, fb.api.clients.data);
        }
        return Err(o.error);
      }
      r := AfterLatency();
    }

    /** The methods after `_latency`, which has filled from the client list. */
    method AfterLatency() returns (r: Result<seq<Snapshot>>)
      requires fb.ClientsValid()
      requires latency != null && Ok(latency.Snap()) == FamilyOver(ClientSpecs[0], Listing(fb.api.clients))
      modifies this`iops, this`opsSize, this`throughput, fb`clientsPerformance, fb`fetches
      ensures fb.ClientsValid()
      ensures r == OverEntities(ClientSpecs, Listing(fb.api.clients))
    {
      FourFamilies(ClientSpecs, fb.api.clients.data);
      var first := latency.Snap();
      var fam, o := FromList(ClientSpecs[1]);
      iops := fam;
      if o.Fail? {
        return Err(o.error);
      }
      var second := fam.Snap();
      fam, o := FromList(ClientSpecs[2]);
      opsSize := fam;
      if o.Fail? {
        return Err(o.error);
      }
      var third := fam.Snap();
      fam, o := FromList(ClientSpecs[3]);
      throughput := fam;
      if o.Fail? {
        return Err(o.error);
      }
      r := Ok([first, second, third, fam.Snap()]);
    }
  }

  /** A client name that unpacks into a client and a port: text with exactly one colon. */
  predicate ClientNamed(e: Record)
  {
    Attr(e, "name").Str? && Occurrences(Attr(e, "name").s, ':') == 1
  }

  /** Splitting the client name: `None` has no `split` (`AttributeError`), and a name with no
    * colon or several does not unpack into two (`ValueError`). */
  lemma {:induction false} ClientLabels(e: Record)
    ensures KeyLabels(e, ClientKeys, ByAttr) ==
              if !Attr(e, "name").Str? then Err(AttributeError)
              else if Occurrences(Attr(e, "name").s, ':') != 1 then Err(ValueError)
              else Ok(Split(Attr(e, "name").s, ':'))
  {
    assert ClientKeys[..0] == [];
    if Attr(e, "name").Str? {
      SplitCount(Attr(e, "name").s, ':');
      var none: seq<string> := [];
      assert none + Split(Attr(e, "name").s, ':') == Split(Attr(e, "name").s, ':');
    }
  }

  /** A name made of a client and a port, neither holding a colon, labels the samples with the
    * client and the port. */
  lemma {:induction false} ClientPortRoundTrip(e: Record, client: string, port: string)
    requires Attr(e, "name") == Str(client + ":" + port)
    requires forall i :: 0 <= i < |client| ==> client[i] != ':'
    requires forall i :: 0 <= i < |port| ==> port[i] != ':'
    ensures ClientNamed(e) && KeyLabels(e, ClientKeys, ByAttr) == Ok([client, port])
  {
    SplitJoin(client, port, ':');
    assert client + ":" + port == client + [':'] + port;
    SplitCount(client + ":" + port, ':');
    ClientLabels(e);
  }

  lemma {:induction false} ClientEntityRows(cols: seq<Column>, e: Record)
    requires |cols| > 0
    ensures EntityRows(ClientLayout(cols), e).Ok? <==> ClientNamed(e)
  {
    ClientLabels(e);
    var lead := KeyLabels(e, ClientKeys, ByAttr);
    if lead.Ok? {
      CellsSucceed(e, [] + lead.value, cols, ByAttr);
    }
  }

  /** The client builder yields its four families exactly when every client name holds exactly
    * one colon. */
  lemma {:induction false} ClientsSucceed(cs: seq<Record>)
    ensures FamiliesOf(ClientSpecs, cs).Ok? <==> forall i :: 0 <= i < |cs| ==> ClientNamed(cs[i])
  {
    FamiliesOfSucceed(ClientSpecs, cs);
    forall k | 0 <= k < 4
      ensures Rows(ClientSpecs[k].layout, cs).Ok? <==> forall i :: 0 <= i < |cs| ==> ClientNamed(cs[i])
    {
      var layout := ClientSpecs[k].layout;
      RowsSucceed(layout, cs);
      forall i | 0 <= i < |cs| ensures EntityRows(layout, cs[i]).Ok? <==> ClientNamed(cs[i]) {
        ClientEntityRows(layout.cols, cs[i]);
      }
    }
  }

  /** When the names split, every sample is labelled by the client, the port and the dimension. */
  lemma {:induction false} ClientsSamples(cs: seq<Record>, k: nat, i: nat, j: nat)
    requires forall i :: 0 <= i < |cs| ==> ClientNamed(cs[i])
    requires k < 4 && i < |cs| && j < |ClientSpecs[k].layout.cols|
    ensures var fs := FamiliesOf(ClientSpecs, cs);
      var cols := ClientSpecs[k].layout.cols;
      fs.Ok? && |fs.value| == 4 && i * |cols| + j < |fs.value[k].samples| &&
      fs.value[k].samples[i * |cols| + j] == Sample(Split(Text(Attr(cs[i], "name")), ':') + cols[j].extra, Attr(cs[i], cols[j].field))
  {
    ClientsSucceed(cs);
    FamilyAt(ClientSpecs, cs, k);
    RowAt(ClientSpecs[k].layout, cs, i, j);
    ClientLabels(cs[i]);
    assert [] + Split(Text(Attr(cs[i], "name")), ':') == Split(Text(Attr(cs[i], "name")), ':');
  }

  /** When the names split, the four families hold three, three, three and two samples per client. */
  lemma {:induction false} ClientsCounts(cs: seq<Record>)
    requires forall i :: 0 <= i < |cs| ==> ClientNamed(cs[i])
    ensures var fs := FamiliesOf(ClientSpecs, cs);
      fs.Ok? && |fs.value| == 4 &&
      |fs.value[0].samples| == 3 * |cs| && |fs.value[1].samples| == 3 * |cs| &&
      |fs.value[2].samples| == 3 * |cs| && |fs.value[3].samples| == 2 * |cs|
  {
    ClientsSucceed(cs);
    FamiliesOfShape(ClientSpecs, cs);
    RowsLength(ClientSpecs[0].layout, cs);
    RowsLength(ClientSpecs[1].layout, cs);
    RowsLength(ClientSpecs[2].layout, cs);
    RowsLength(ClientSpecs[3].layout, cs);
  }
}
