/** The single-array FlashBlade collector: the first-generation generators with the array
  * name as a leading `array` label. The name is looked up on first use and cached. */
module PureFb {
  import opened Records
  import opened Families
  import opened LegacyFb

  /** `list_arrays().items[0].name`. */
  function NameOf(s: FbSession): (r: Result<Value>)
    ensures r.Ok? <==> First(s.arrays).Ok?
  {
    match First(s.arrays)
    case Err(f) => Err(f)
    case Ok(a) => Ok(Attr(a, "name"))
  }

  /** The array has a name the cache can keep: `_name` stays `None` otherwise. */
  predicate Named(s: FbSession)
  {
    NameOf(s).Ok? && NameOf(s).value != Null
  }

  /** The leading label values: the array name, once it can be looked up. */
  function Lead(s: FbSession): seq<string>
  {
    match NameOf(s)
    case Err(_) => []
    case Ok(n) => [Text(n)]
  }

  /** `array_hw`: the name is only looked up for a component, so no components need no name. */
  function HwOutput(s: FbSession): Result<seq<Snapshot>>
  {
    match Listing(s.hardware)
    case Err(f) => Err(f)
    case Ok(hw) =>
      if |hw| == 0 then Ok([HwFamily(["array"], [], hw)])
      else if NameOf(s).Err? then Err(NameOf(s).error)
      else Ok([HwFamily(["array"], Lead(s), hw)])
  }

  /** `array_events`: the counts are always labelled, so the name is always looked up. */
  function EventsOutput(s: FbSession): Result<seq<Snapshot>>
  {
    match Listing(s.openAlerts)
    case Err(f) => Err(f)
    case Ok(alerts) =>
      if NameOf(s).Err? then Err(NameOf(s).error)
      else Ok([EventsFamily(["array"], Lead(s), alerts)])
  }

  /** `array_space`: the space record is fetched before the name. */
  function SpaceOutput(s: FbSession): Result<seq<Snapshot>>
  {
    match First(s.arraysSpace)
    case Err(f) => Err(f)
    case Ok(rec) =>
      if NameOf(s).Err? then Err(NameOf(s).error)
      else Ok(SpaceFamilies(["array"], Lead(s), rec))
  }

  /** `buckets_space`: no buckets, no families and no name lookup. */
  function BucketsOutput(s: FbSession): Result<seq<Snapshot>>
  {
    match Listing(s.buckets)
    case Err(f) => Err(f)
    case Ok(items) =>
      if |items| == 0 then Ok([])
      else if NameOf(s).Err? then Err(NameOf(s).error)
      else Ok(Yields(Lead(s), BucketsTable(["array"]), items))
  }

  function Parts(s: FbSession): seq<Result<seq<Snapshot>>>
  {
    [HwOutput(s), EventsOutput(s), SpaceOutput(s), BucketsOutput(s)]
  }

  /** Everything `collect` yields, or the first exception. */
  function Collected(s: FbSession): Result<seq<Snapshot>>
  {
    Joined(Parts(s))
  }

  /** A scrape needs the hardware, alert and bucket listings, a space record and the array
    * record: the events family always asks for the name. */
  lemma CollectSucceeds(s: FbSession)
    ensures Collected(s).Ok? <==>
              s.hardware.Answered? && s.openAlerts.Answered? && First(s.arraysSpace).Ok? && s.buckets.Answered? &&
              First(s.arrays).Ok?
  {
    JoinedOk(Parts(s));
    assert Parts(s)[0] == HwOutput(s) && Parts(s)[1] == EventsOutput(s);
    assert Parts(s)[2] == SpaceOutput(s) && Parts(s)[3] == BucketsOutput(s);
    if !(forall i :: 0 <= i < 4 ==> Parts(s)[i].Ok?) {
      var i :| 0 <= i < 4 && Parts(s)[i].Err?;
      assert i == 0 || i == 1 || i == 2 || i == 3;
    }
  }

  /** Once the name is known, every hardware sample is the first-generation collector's
    * sample with the array name in front. */
  lemma NamedHwSamples(s: FbSession, i: nat)
    requires NameOf(s).Ok? && s.hardware.Answered? && i < |s.hardware.data|
    ensures HwOutput(s).Ok?
    ensures HwOutput(s).value[0].samples[i]
            == Sample([Text(NameOf(s).value)] + HwSamples([], s.hardware.data)[i].labels, HwSamples([], s.hardware.data)[i].value)
  {
    HwSamplesLead(Lead(s), s.hardware.data, i);
  }

  /** Once the name is known, every bucket sample is the first-generation collector's
    * sample with the array name in front. */
  lemma NamedBucketSamples(s: FbSession, k: nat, i: nat)
    requires NameOf(s).Ok? && s.buckets.Answered? && k < 6 && i < |s.buckets.data|
    ensures FieldSamples(Lead(s), BucketsTable(["array"]), k, s.buckets.data)[i]
            == Sample([Text(NameOf(s).value)] + FieldSamples([], BucketsTable([]), k, s.buckets.data)[i].labels,
                      FieldSamples([], BucketsTable([]), k, s.buckets.data)[i].value)
  {
    FieldSamplesLead(Lead(s), BucketsTable(["array"]), k, s.buckets.data, i);
    FieldSamplesAt([], BucketsTable(["array"]), k, s.buckets.data, i);
    FieldSamplesAt([], BucketsTable([]), k, s.buckets.data, i);
  }

  /** The single-array FlashBlade collector. */
  class PurestorageFBCollector {
    const session: FbSession
    /** `_name`: `Null` until a lookup has found a name. */
    var name: Value
    /** How many times `list_arrays` has been called. */
    var arrayFetches: nat

    /** The cache holds the array's own name, fetched once; while it is empty, no lookup has
      * happened yet or the array has no name to keep. */
    predicate Valid()
      reads this
    {
      (name != Null ==> NameOf(session) == Ok(name) && arrayFetches == 1) &&
      (name == Null && Named(session) ==> arrayFetches == 0)
    }

    constructor (session: FbSession)
      ensures this.session == session && name == Null && arrayFetches == 0 && Valid()
    {
      this.session := session;
      name := Null;
      arrayFetches := 0;
    }

    /** The `name` property. */
    method Name() returns (r: Result<Value>)
      requires Valid()
      modifies this
      ensures Valid() && r == NameOf(session)
      ensures old(name) != Null ==> name == old(name) && arrayFetches == old(arrayFetches)
      ensures old(name) == Null ==> arrayFetches == old(arrayFetches) + 1
    {
      if name == Null {
        arrayFetches := arrayFetches + 1;
        var got := First(session.arrays);
        if got.Err? {
          return Err(got.error);
        }
        name := Attr(got.value, "name");
      }
      r := Ok(name);
    }

    /** With the array named, the array record is fetched at most once however many
      * collections run. */
    lemma FetchedOnce()
      requires Valid() && Named(session)
      ensures arrayFetches <= 1
    {
    }

    /** One `add_metric` per family, each evaluating `self.name` first. */
    method AddNamed(fams: seq<MetricFamily>, labels: seq<string>, rec: Record, fields: seq<string>) returns (o: Outcome)
      requires Valid() && 0 < |fams| == |fields| && Distinct(fams)
      modifies this, set f | f in fams
      ensures Valid()
      ensures o.Pass? <==> NameOf(session).Ok?
      ensures o.Fail? ==> o.error == NameOf(session).error
      ensures o.Pass? ==> forall k :: 0 <= k < |fams| ==>
                fams[k].samples == old(fams[k].samples) + [Sample(Lead(session) + labels, Attr(rec, fields[k]))]
    {
      for j := 0 to |fams|
        invariant Valid()
        invariant j > 0 ==> NameOf(session).Ok?
        invariant forall k :: 0 <= k < j ==> fams[k].samples == old(fams[k].samples) + [Sample(Lead(session) + labels, Attr(rec, fields[k]))]
        invariant forall k :: j <= k < |fams| ==> fams[k].samples == old(fams[k].samples)
      {
        var n := Name();
        if n.Err? {
          return Fail(n.error);
        }
        fams[j].AddMetric([Text(n.value)] + labels, Attr(rec, fields[j]));
      }
      o := Pass;
    }

    /** `array_hw`. */
    method ArrayHw() returns (r: Result<seq<Snapshot>>)
      requires Valid()
      modifies this
      ensures Valid() && r == HwOutput(session)
    {
      var listed := Listing(session.hardware);
      if listed.Err? {
        return Err(listed.error);
      }
      var hw := listed.value;
      var status := new MetricFamily("pure_fb_hw_status", ["array", "hw_id"]);
      for i := 0 to |hw|
        invariant Valid()
        invariant i > 0 ==> NameOf(session).Ok?
        invariant status.samples == HwSamples(Lead(session), hw[..i])
      {
        assert hw[..i + 1][..i] == hw[..i];
        var state := Attr(hw[i], "status");
        var hwName := Attr(hw[i], "name");
        var n := Name();
        if n.Err? {
          return Err(n.error);
        }
        var labels := [Text(n.value), Text(hwName)];
        assert labels == Lead(session) + [Text(hwName)];
        if state == Str("unused") || state == Str("not_installed") {
          status.AddMetric(labels, Num(-1));
        } else if state == Str("healty") {
          status.AddMetric(labels, Num(1));
        } else {
          status.AddMetric(labels, Num(0));
        }
      }
      assert hw[..|hw|] == hw;
      assert ["array"] + ["hw_id"] == ["array", "hw_id"];
      r := Ok([status.Snap()]);
    }

    /** `array_events`. */
    method ArrayEvents() returns (r: Result<seq<Snapshot>>)
      requires Valid()
      modifies this
      ensures Valid() && r == EventsOutput(session)
    {
      var listed := Listing(session.openAlerts);
      if listed.Err? {
        return Err(listed.error);
      }
      var alerts := listed.value;
      var events := new MetricFamily("pure_fb_open_events_total", ["array", "severity"]);
      var critical, warning, info := CountSeverities(alerts);
      var n := Name();
      if n.Err? {
        return Err(n.error);
      }
      events.AddMetric([Text(n.value), "critical"], Num(critical));
      n := Name();
      events.AddMetric([Text(n.value), "warning"], Num(warning));
      n := Name();
      events.AddMetric([Text(n.value), "info"], Num(info));
      assert ["array"] + ["severity"] == ["array", "severity"];
      assert Lead(session) == [Text(n.value)];
      assert [Text(n.value)] + ["critical"] == [Text(n.value), "critical"];
      assert [Text(n.value)] + ["warning"] == [Text(n.value), "warning"];
      assert [Text(n.value)] + ["info"] == [Text(n.value), "info"];
      assert events.samples == EventSamples(Lead(session), alerts);
      r := Ok([events.Snap()]);
    }

    /** `array_space`. */
    method ArraySpace() returns (r: Result<seq<Snapshot>>)
      requires Valid()
      modifies this
      ensures Valid() && r == SpaceOutput(session)
    {
      var got := First(session.arraysSpace);
      if got.Err? {
        return Err(got.error);
      }
      var fams := NewFamilies(SpaceNames, ["array"]);
      var o := AddNamed(fams, [], got.value, SpaceFields);
      if o.Fail? {
        return Err(o.error);
      }
      var snaps := SnapAll(fams);
      forall k | 0 <= k < |snaps|
        ensures snaps[k] == SpaceFamilies(["array"], Lead(session), got.value)[k]
      {
        assert Lead(session) + [] == Lead(session);
        assert fams[k].samples == [] + [Sample(Lead(session), Attr(got.value, SpaceFields[k]))];
      }
      assert snaps == SpaceFamilies(["array"], Lead(session), got.value);
      r := Ok(snaps);
    }

    /** `buckets_space`. */
    method BucketsSpace() returns (r: Result<seq<Snapshot>>)
      requires Valid()
      modifies this
      ensures Valid() && r == BucketsOutput(session)
    {
      var listed := Listing(session.buckets);
      if listed.Err? {
        return Err(listed.error);
      }
      var items := listed.value;
      var t := BucketsTable(["array"]);
      var fams := NewFamilies(t.names, t.keys);
      var yielded: seq<Snapshot> := [];
      for i := 0 to |items|
        invariant Valid()
        invariant i > 0 ==> NameOf(session).Ok?
        invariant forall k :: 0 <= k < |fams| ==> fams[k].samples == FieldSamples(Lead(session), t, k, items[..i])
        invariant yielded == Yields(Lead(session), t, items[..i])
      {
        var o := BucketRow(t, items, i, fams);
        if o.Fail? {
          return Err(o.error);
        }
        var frame := SnapAll(fams);
        assert frame == Frame(Lead(session), t, items[..i + 1]);
        assert items[..i + 1][..i] == items[..i];
        yielded := yielded + frame;
      }
      assert items[..|items|] == items;
      r := Ok(yielded);
    }

    /** The body of the bucket loop: the data reduction overwrite, then the six
      * `add_metric` calls. */
    method BucketRow(t: Table, items: seq<Record>, i: nat, fams: seq<MetricFamily>) returns (o: Outcome)
      requires Valid() && WellFormed(t) && 0 < |t.fields| && i < |items| && |fams| == |t.fields| && Distinct(fams)
      requires forall k :: 0 <= k < |fams| ==> fams[k].samples == FieldSamples(Lead(session), t, k, items[..i])
      modifies this, set f | f in fams
      ensures Valid()
      ensures o.Pass? <==> NameOf(session).Ok?
      ensures o.Fail? ==> o.error == NameOf(session).error
      ensures o.Pass? ==> forall k :: 0 <= k < |fams| ==> fams[k].samples == FieldSamples(Lead(session), t, k, items[..i + 1])
    {
      assert items[..i + 1][..i] == items[..i];
      var b := items[i];
      if Attr(b, "space.data_reduction") == Null {
        b := b["space.data_reduction" := Num(0)];
      }
      assert b == Cleared(items[i]) && items[..i + 1][i] == items[i];
      o := AddNamed(fams, RowLabels(t, b), b, t.fields);
    }

    /** `collect`: the four generators in order, sharing the cached name. */
    method Collect() returns (r: Result<seq<Snapshot>>)
      requires Valid()
      modifies this
      ensures Valid() && r == Collected(session)
      ensures Named(session) ==> arrayFetches <= 1
    {
      ghost var outs := Parts(session);
      var out: seq<Snapshot> := [];
      for i := 0 to 4
        invariant Valid()
        invariant Joined(outs[..i]) == Ok(out)
      {
        assert outs[..i + 1][..i] == outs[..i];
        var part := Run(i);
        if part.Err? {
          JoinedPrefixFailure(outs, i + 1);
          return Err(part.error);
        }
        out := out + part.value;
      }
      assert outs[..4] == outs;
      r := Ok(out);
    }

    /** The `i`-th generator `collect` runs. */
    method Run(i: nat) returns (r: Result<seq<Snapshot>>)
      requires Valid() && i < 4
      modifies this
      ensures Valid() && r == Parts(session)[i]
    {
      if i == 0 {
        r := ArrayHw();
      } else if i == 1 {
        r := ArrayEvents();
      } else if i == 2 {
        r := ArraySpace();
      } else {
        r := BucketsSpace();
      }
    }
  }
}
