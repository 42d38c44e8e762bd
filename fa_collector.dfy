/** The FlashArray collector: it opens one data source per scrape and runs the metric
  * builders of the requested scope over it, in a fixed order, so that every builder shares
  * the data source's caches. The first builder that raises ends the scrape. */
module FaCollector {
  import opened Records
  import opened Families
  import opened FaMappings
  import opened FaSource
  import opened FaArray
  import opened FaEntities
  import FaHardware
  import FaEvents
  import FaPodStatus

  // ---------------------------------------------------------------- the plan

  /** One builder that `collect` may run. */
  datatype Section =
    | Info | Hardware | Events | Space | Performance | NetworkInterface
    | VolumeSpace | VolumePerformance
    | HostSpace | HostPerformance
    | PodStatus | PodSpace | PodPerformance
    | HostVolume

  /** The request, other than `all`, whose block runs a section; the host-volume builder
    * runs for `all` only. */
  function Scope(s: Section): string
  {
    match s
    case Info | Hardware | Events | Space | Performance | NetworkInterface => "array"
    case VolumeSpace | VolumePerformance => "volumes"
    case HostSpace | HostPerformance => "hosts"
    case PodStatus | PodSpace | PodPerformance => "pods"
    case HostVolume => "all"
  }

  const ArraySections: seq<Section> := [Info, Hardware, Events, Space, Performance, NetworkInterface]
  const VolumeSections: seq<Section> := [VolumeSpace, VolumePerformance]
  const HostSections: seq<Section> := [HostSpace, HostPerformance]
  const PodSections: seq<Section> := [PodStatus, PodSpace, PodPerformance]

  /** One guarded block of `collect`: its sections when the request is `all` or the block's scope. */
  function Block(request: string, scope: string, sections: seq<Section>): seq<Section>
  {
    if request == "all" || request == scope then sections else []
  }

  /** The builders `collect` runs for a request: its five guarded blocks in order. */
  function Plan(request: string): seq<Section>
  {
    Block(request, "array", ArraySections) + Block(request, "volumes", VolumeSections) +
    Block(request, "hosts", HostSections) + Block(request, "pods", PodSections) + Block(request, "all", [HostVolume])
  }

  /** Each section belongs to the block of its scope. */
  lemma GroupOfScope(s: Section)
    ensures s in ArraySections <==> Scope(s) == "array"
    ensures s in VolumeSections <==> Scope(s) == "volumes"
    ensures s in HostSections <==> Scope(s) == "hosts"
    ensures s in PodSections <==> Scope(s) == "pods"
    ensures s in [HostVolume] <==> Scope(s) == "all"
  {
  }

  /** A section runs exactly when the request is `all` or the section's own scope. */
  lemma PlanSelects(request: string, s: Section)
    ensures s in Plan(request) <==> request == "all" || request == Scope(s)
  {
    GroupOfScope(s);
  }

  /** The plans of the five requests the exporter accepts, and of any other request. */
  lemma PlanByRequest(request: string)
    ensures Plan("all") == ArraySections + VolumeSections + HostSections + PodSections + [HostVolume]
    ensures Plan("array") == ArraySections
    ensures Plan("volumes") == VolumeSections
    ensures Plan("hosts") == HostSections
    ensures Plan("pods") == PodSections
    ensures request !in {"all", "array", "volumes", "hosts", "pods"} ==> Plan(request) == []
  {
  }

  // ---------------------------------------------------------------- what each section yields

  /** What the data source of this model does not define but two builders call: the network
    * interface listing with its mapping table, and the host-volume listing. */
  datatype Extras = Extras(interfaces: Result<seq<Record>>, interfaceMapping: Result<Mapping>, hostVolumes: Result<seq<Record>>)

  /** The three accessors are absent from the `FlashArray` class, so each raises `AttributeError`. */
  const Undefined := Extras(Err(AttributeError), Err(AttributeError), Err(AttributeError))

  const InfoFamilyName := "purefa"
  const InfoKeys: seq<string> := ["array_name", "system_id", "version", "hostname"]

  /** `ArrayInfoMetrics._info`: one info sample from four fields of the array record, read in
    * the order the dictionary display lists them. */
  function InfoFamily(rec: Record): (r: Result<Snapshot>)
    ensures r.Ok? <==> "array_name" in rec && "id" in rec && "version" in rec && "hostname" in rec
    ensures r.Ok? ==> r.value.name == InfoFamilyName && r.value.labelKeys == InfoKeys && |r.value.samples| == 1
    ensures r.Ok? ==> r.value.samples[0] == Sample([Text(rec["array_name"]), Text(rec["id"]), Text(rec["version"]), Text(rec["hostname"])], Num(1))
    ensures r.Err? ==> r.error == KeyError(Str(
      if "array_name" !in rec then "array_name" else if "id" !in rec then "id" else if "version" !in rec then "version" else "hostname"))
  {
    match Subscript(rec, "array_name")
    case Err(f) => Err(f)
    case Ok(name) =>
      match Subscript(rec, "id")
      case Err(f) => Err(f)
      case Ok(id) =>
        match Subscript(rec, "version")
        case Err(f) => Err(f)
        case Ok(version) =>
          match Subscript(rec, "hostname")
          case Err(f) => Err(f)
          case Ok(host) => Ok(Snapshot(InfoFamilyName, InfoKeys, [Sample([Text(name), Text(id), Text(version), Text(host)], Num(1))]))
  }

  const HostVolumeFamily := "purefa_host_volumes_info"

  /** `HostVolumeMetrics._map_host_vol`: one sample of value 1 per connection, labelled by its
    * host and the volume's NAA identifier. */
  function HostVolumeRows(hvs: seq<Record>): (r: Result<seq<Sample>>)
    ensures r.Ok? <==> forall i :: 0 <= i < |hvs| ==> "host" in hvs[i] && "naaid" in hvs[i]
    ensures r.Ok? ==> |r.value| == |hvs|
    ensures r.Ok? ==> forall i :: 0 <= i < |hvs| ==> r.value[i] == Sample([Text(hvs[i]["host"]), Text(hvs[i]["naaid"])], Num(1))
  {
    if |hvs| == 0 then Ok([])
    else
      var n := |hvs| - 1;
      match HostVolumeRows(hvs[..n])
      case Err(f) => Err(f)
      case Ok(front) =>
        match Subscript(hvs[n], "host")
        case Err(f) => Err(f)
        case Ok(h) =>
          match Subscript(hvs[n], "naaid")
          case Err(f) => Err(f)
          case Ok(id) => Ok(front + [Sample([Text(h), Text(id)], Num(1))])
  }

  /** The listing a volume, host or pod builder reads. */
  function ListingOf(s: Section): EntityKind
  {
    if Scope(s) == "volumes" then Volumes else if Scope(s) == "hosts" then Hosts else Pods
  }

  /** What a builder that reads the array record yields, given what `get_array` returns. */
  function RecordOutput(s: Section, got: Result<Record>): Result<seq<Snapshot>>
  {
    match got
    case Err(f) => Err(f)
    case Ok(rec) =>
      if s.Info? then (match InfoFamily(rec) case Err(f) => Err(f) case Ok(info) => Ok([info]))
      else if s.Space? then FamiliesOf(ArraySpaceSpecs, [rec])
      else FamiliesOf(ArrayPerformanceSpecs, [rec])
  }

  /** `NetworkInterfacePerformanceMetrics.get_metrics` on a fresh builder. */
  function NetworkOutput(x: Extras): Result<seq<Snapshot>>
  {
    match x.interfaces
    case Err(f) => Err(f)
    case Ok(ifs) =>
      match x.interfaceMapping
      case Err(f) => Err(f)
      case Ok(m) =>
        match Mapped(ifs, m)
        case Err(f) => Err(f)
        case Ok(ss) => Ok([Snapshot(NetworkFamily, ["interface", "dimension"], ss)])
  }

  /** `HostVolumeMetrics.get_metrics` on a fresh builder. */
  function HostVolumeOutput(x: Extras): Result<seq<Snapshot>>
  {
    match x.hostVolumes
    case Err(f) => Err(f)
    case Ok(hvs) =>
      match HostVolumeRows(hvs)
      case Err(f) => Err(f)
      case Ok(ss) => Ok([Snapshot(HostVolumeFamily, ["host", "naaid"], ss)])
  }

  /** What a builder that calls the storage array without a cache yields. */
  function SourceOutput(s: Section, api: FaApi, x: Extras): Result<seq<Snapshot>>
  {
    if s.Hardware? then FaHardware.HardwareFamilies(api)
    else if s.Events? then
      (match FaEvents.OpenEventSamples(api)
       case Err(f) => Err(f)
       case Ok(ss) => Ok([Snapshot(FaEvents.AlertsFamily, ["severity"], ss)]))
    else if s.NetworkInterface? then NetworkOutput(x)
    else HostVolumeOutput(x)
  }

  /** What a builder over the volume, host or pod listing yields. */
  function ListingOutput(s: Section, api: FaApi): Result<seq<Snapshot>>
  {
    if s.VolumeSpace? || s.HostSpace? || s.PodSpace? then OverEntities(SpaceSpecs(ListingOf(s)), Listed(api, ListingOf(s)))
    else if s.PodStatus? then FaPodStatus.PodStatusFamilies(Listed(api, Pods))
    else OverEntities(PerfSpecs(ListingOf(s)), Listed(api, ListingOf(s)))
  }

  /** The families one section yields, or what it raises, given what `get_array` returns. */
  function SectionOutput(s: Section, api: FaApi, got: Result<Record>, x: Extras): Result<seq<Snapshot>>
  {
    if s.Info? || s.Space? || s.Performance? then RecordOutput(s, got)
    else if s.Hardware? || s.Events? || s.NetworkInterface? || s.HostVolume? then SourceOutput(s, api, x)
    else ListingOutput(s, api)
  }

  /** What each section would yield on its own. */
  function Outputs(sections: seq<Section>, api: FaApi, got: Result<Record>, x: Extras): (r: seq<Result<seq<Snapshot>>>)
    ensures |r| == |sections|
    ensures forall i :: 0 <= i < |sections| ==> r[i] == SectionOutput(sections[i], api, got, x)
  {
    seq(|sections|, i requires 0 <= i < |sections| => SectionOutput(sections[i], api, got, x))
  }

  /** Everything one scrape yields, in order, or the first exception. */
  function Scrape(sections: seq<Section>, api: FaApi, got: Result<Record>, x: Extras): Result<seq<Snapshot>>
  {
    Joined(Outputs(sections, api, got, x))
  }

  lemma OutputsAppend(a: seq<Section>, b: seq<Section>, api: FaApi, got: Result<Record>, x: Extras)
    ensures Outputs(a + b, api, got, x) == Outputs(a, api, got, x) + Outputs(b, api, got, x)
  {
    var whole, parts := Outputs(a + b, api, got, x), Outputs(a, api, got, x) + Outputs(b, api, got, x);
    forall i | 0 <= i < |whole|
      ensures whole[i] == parts[i]
    {
      if i < |a| {
        assert (a + b)[i] == a[i];
      } else {
        assert (a + b)[i] == b[i - |a|];
      }
    }
  }

  /** Scraping two runs of sections is scraping the first, then the second. */
  lemma ScrapeAppend(a: seq<Section>, b: seq<Section>, api: FaApi, got: Result<Record>, x: Extras)
    ensures Scrape(a + b, api, got, x) == Chain(Scrape(a, api, got, x), Scrape(b, api, got, x))
  {
    OutputsAppend(a, b, api, got, x);
    JoinedAppend(Outputs(a, api, got, x), Outputs(b, api, got, x));
  }

  /** An `all` scrape yields the array, volume, host and pod scopes' output and then the
    * host-volume family, and fails with the first of them that fails. */
  lemma AllIsEveryScope(api: FaApi, got: Result<Record>, x: Extras)
    ensures Scrape(Plan("all"), api, got, x) ==
      Chain(Chain(Chain(Chain(Scrape(Plan("array"), api, got, x), Scrape(Plan("volumes"), api, got, x)),
                        Scrape(Plan("hosts"), api, got, x)),
                  Scrape(Plan("pods"), api, got, x)),
            Scrape([HostVolume], api, got, x))
  {
    PlanByRequest("");
    ScrapeAppend(ArraySections, VolumeSections, api, got, x);
    ScrapeAppend(ArraySections + VolumeSections, HostSections, api, got, x);
    ScrapeAppend(ArraySections + VolumeSections + HostSections, PodSections, api, got, x);
    ScrapeAppend(ArraySections + VolumeSections + HostSections + PodSections, [HostVolume], api, got, x);
  }

  /** A request outside the five scopes yields no family at all. */
  lemma UnknownRequestYieldsNothing(request: string, api: FaApi, got: Result<Record>, x: Extras)
    requires request !in {"all", "array", "volumes", "hosts", "pods"}
    ensures Scrape(Plan(request), api, got, x) == Ok([])
  {
    PlanByRequest(request);
  }

  /** With the network interface listing undefined, every `array` and `all` scrape raises. */
  lemma UndefinedInterfacesFail(api: FaApi, got: Result<Record>, x: Extras)
    requires x.interfaces.Err?
    ensures Scrape(Plan("array"), api, got, x).Err?
    ensures Scrape(Plan("all"), api, got, x).Err?
  {
    PlanByRequest("");
    JoinedFails(Outputs(ArraySections, api, got, x), 5);
    AllIsEveryScope(api, got, x);
  }

  /** Under the data source invariant, every successful `get_array` yields the same record:
    * the identity merged with the subsets. */
  lemma ArrayResultPinned(api: FaApi, cached: Option<Record>)
    requires cached.Some? ==> api.arrayIdentity.Answered? && cached.value == ArrayMerge(api.arrayIdentity.data, api.arraySubsets).0
    ensures ArrayResult(api, cached).Ok? ==>
              api.arrayIdentity.Answered? && ArrayResult(api, cached).value == ArrayMerge(api.arrayIdentity.data, api.arraySubsets).0
  {
  }

  /** The message the collector raises when the data source cannot be opened. */
  function ConnectionMessage(endpoint: string): string
  {
    "Connection for FlashArray " + endpoint + " not initialized. Check array name/address and api-token"
  }

  /** The message names the endpoint: distinct endpoints give distinct messages. */
  lemma ConnectionMessageNamesEndpoint(a: string, b: string)
    requires ConnectionMessage(a) == ConnectionMessage(b)
    ensures a == b
  {
    var p := |"Connection for FlashArray "|;
    assert |a| == |b|;
    assert a == ConnectionMessage(a)[p..p + |a|];
    assert b == ConnectionMessage(b)[p..p + |b|];
  }

  // ---------------------------------------------------------------- the builders of this file

  /** `ArrayInfoMetrics`: the array's info family. */
  class ArrayInfoMetrics {
    const fa: FlashArray
    var info: Option<Snapshot>

    constructor (fa: FlashArray)
      ensures this.fa == fa && info == None
    {
      this.fa := fa;
      info := None;
    }

    /** `get_metrics`: reads the (possibly cached) array record and builds the info family. */
    method GetMetrics() returns (r: Result<seq<Snapshot>>)
      requires fa.Valid()
      modifies this, fa`arrayRecord, fa`fetches
      ensures fa.Valid()
      ensures r == RecordOutput(Info, ArrayResult(fa.api, old(fa.arrayRecord)))
      ensures r.Ok? ==> fa.arrayRecord.Some?
    {
      var got := fa.GetArray();
      if got.Err? {
        return Err(got.error);
      }
      var fam := InfoFamily(got.value);
      if fam.Err? {
        return Err(fam.error);
      }
      info := Some(fam.value);
      r := Ok([fam.value]);
    }
  }

  /** `HostVolumeMetrics`: one gauge family of host-volume connections. */
  class HostVolumeMetrics {
    const fa: FlashArray
    const mapHostVol: MetricFamily

    constructor (fa: FlashArray)
      ensures this.fa == fa && fresh(mapHostVol)
      ensures mapHostVol.name == HostVolumeFamily && mapHostVol.labelKeys == ["host", "naaid"] && mapHostVol.samples == []
    {
      this.fa := fa;
      mapHostVol := new MetricFamily(HostVolumeFamily, ["host", "naaid"]);
    }

    /** The `for hv in ...` loop: one sample per connection, stopping at the first record
      * without a host or an identifier. */
    method MapHostVol(hvs: seq<Record>) returns (out: Outcome)
      modifies mapHostVol
      ensures out.Pass? <==> HostVolumeRows(hvs).Ok?
      ensures out.Fail? ==> out.error == HostVolumeRows(hvs).error
      ensures out.Pass? ==> mapHostVol.samples == old(mapHostVol.samples) + HostVolumeRows(hvs).value
    {
      var i := 0;
      while i < |hvs|
        invariant 0 <= i <= |hvs| && HostVolumeRows(hvs[..i]).Ok?
        invariant mapHostVol.samples == old(mapHostVol.samples) + HostVolumeRows(hvs[..i]).value
      {
        assert hvs[..i + 1][..i] == hvs[..i];
        var hv := hvs[i];
        if "host" !in hv || "naaid" !in hv {
          HostVolumePrefixFailure(hvs, i + 1);
          return Fail(if "host" !in hv then KeyError(Str("host")) else KeyError(Str("naaid")));
        }
        mapHostVol.AddMetric([Text(hv["host"]), Text(hv["naaid"])], Num(1));
        i := i + 1;
      }
      assert hvs[..i] == hvs;
      out := Pass;
    }

    /** `get_metrics`, given what `fa.get_host_volumes()` returns. */
    method GetMetrics(hostVolumes: Result<seq<Record>>) returns (r: Result<seq<Snapshot>>)
      requires mapHostVol.name == HostVolumeFamily && mapHostVol.labelKeys == ["host", "naaid"] && mapHostVol.samples == []
      modifies mapHostVol
      ensures r == HostVolumeOutput(Undefined.(hostVolumes := hostVolumes))
    {
      if hostVolumes.Err? {
        return Err(hostVolumes.error);
      }
      var out := MapHostVol(hostVolumes.value);
      if out.Fail? {
        return Err(out.error);
      }
      assert [] + HostVolumeRows(hostVolumes.value).value == HostVolumeRows(hostVolumes.value).value;
      r := Ok([mapHostVol.Snap()]);
    }
  }

  /** A failing record ends the host-volume loop with its own failure. */
  lemma {:induction false} HostVolumePrefixFailure(hvs: seq<Record>, k: nat)
    requires 0 < k <= |hvs| && HostVolumeRows(hvs[..k - 1]).Ok? && !("host" in hvs[k - 1] && "naaid" in hvs[k - 1])
    ensures HostVolumeRows(hvs) == Err(if "host" !in hvs[k - 1] then KeyError(Str("host")) else KeyError(Str("naaid")))
    decreases |hvs|
  {
    if k < |hvs| {
      var n := |hvs| - 1;
      assert hvs[..n][..k - 1] == hvs[..k - 1];
      assert hvs[..n][k - 1] == hvs[k - 1];
      HostVolumePrefixFailure(hvs[..n], k);
    } else {
      assert hvs[..|hvs| - 1] == hvs[..k - 1];
    }
  }

  // ---------------------------------------------------------------- the collector

  /** `FlasharrayCollector`: one data source and the scope requested for this scrape. */
  class FlasharrayCollector {
    const fa: FlashArray
    const request: string

    constructor (fa: FlashArray, request: string)
      ensures this.fa == fa && this.request == request
    {
      this.fa := fa;
      this.request := request;
    }

    /** One builder, created afresh over the shared data source, run to completion. */
    method RunSection(s: Section, x: Extras) returns (r: Result<seq<Snapshot>>)
      requires fa.Valid()
      modifies fa`arrayRecord, fa`volumes, fa`hosts, fa`pods, fa`fetches
      ensures fa.Valid()
      ensures r == SectionOutput(s, fa.api, ArrayResult(fa.api, old(fa.arrayRecord)), x)
      ensures r.Ok? ==> ArrayResult(fa.api, fa.arrayRecord) == ArrayResult(fa.api, old(fa.arrayRecord))
    {
      if s.Info? || s.Space? || s.Performance? {
        r := RunRecordSection(s);
      } else if s.Hardware? || s.Events? || s.NetworkInterface? || s.HostVolume? {
        r := RunSourceSection(s, x);
      } else {
        r := RunListingSection(s);
      }
    }

    /** The builders that read the array record, and so may fill the array cache. */
    method RunRecordSection(s: Section) returns (r: Result<seq<Snapshot>>)
      requires fa.Valid() && (s.Info? || s.Space? || s.Performance?)
      modifies fa`arrayRecord, fa`fetches
      ensures fa.Valid()
      ensures r == RecordOutput(s, ArrayResult(fa.api, old(fa.arrayRecord)))
      ensures r.Ok? ==> ArrayResult(fa.api, fa.arrayRecord) == ArrayResult(fa.api, old(fa.arrayRecord))
    {
      ArrayResultPinned(fa.api, fa.arrayRecord);
      if s.Info? {
        var b := new ArrayInfoMetrics(fa);
        r := b.GetMetrics();
      } else if s.Space? {
        var b := new ArraySpaceMetrics(fa);
        r := b.GetMetrics();
      } else {
        var b := new ArrayPerformanceMetrics(fa);
        r := b.GetMetrics();
      }
      ArrayResultPinned(fa.api, fa.arrayRecord);
    }

    /** The builders that call the storage array without touching a cache. */
    method RunSourceSection(s: Section, x: Extras) returns (r: Result<seq<Snapshot>>)
      requires s.Hardware? || s.Events? || s.NetworkInterface? || s.HostVolume?
      modifies fa`fetches
      ensures r == SourceOutput(s, fa.api, x)
    {
      if s.Hardware? {
        var b := new FaHardware.ArrayHardwareMetrics(fa);
        r := b.GetMetrics();
      } else if s.Events? {
        var b := new FaEvents.ArrayEventsMetrics(fa);
        r := b.GetMetrics();
      } else if s.NetworkInterface? {
        r := RunNetworkInterface(x);
      } else {
        var b := new HostVolumeMetrics(fa);
        r := b.GetMetrics(x.hostVolumes);
      }
    }

    /** The builders over the volume, host and pod listings, which fill the listing caches. */
    method RunListingSection(s: Section) returns (r: Result<seq<Snapshot>>)
      requires fa.Valid() && Scope(s) in {"volumes", "hosts", "pods"}
      modifies fa`volumes, fa`hosts, fa`pods, fa`fetches
      ensures fa.Valid()
      ensures r == ListingOutput(s, fa.api)
    {
      if s.VolumeSpace? || s.HostSpace? || s.PodSpace? {
        r := RunEntitySpace(ListingOf(s));
      } else if s.PodStatus? {
        var b := new FaPodStatus.PodStatusMetrics(fa);
        r := b.GetMetrics();
      } else {
        var b := new EntityPerformanceMetrics(fa, ListingOf(s));
        r := b.GetMetrics();
      }
    }

    method RunNetworkInterface(x: Extras) returns (r: Result<seq<Snapshot>>)
      ensures r == NetworkOutput(x)
    {
      var b := new NetworkInterfacePerformanceMetrics(fa);
      if x.interfaces.Err? {
        return Err(x.interfaces.error);
      }
      if x.interfaceMapping.Err? {
        return Err(x.interfaceMapping.error);
      }
      r := b.GetMetrics(x.interfaces.value, x.interfaceMapping.value);
      if r.Ok? {
        assert [] + Mapped(x.interfaces.value, x.interfaceMapping.value).value == Mapped(x.interfaces.value, x.interfaceMapping.value).value;
      }
    }

    method RunEntitySpace(kind: EntityKind) returns (r: Result<seq<Snapshot>>)
      requires fa.Valid()
      modifies fa`volumes, fa`hosts, fa`pods, fa`fetches
      ensures fa.Valid()
      ensures r == OverEntities(SpaceSpecs(kind), Listed(fa.api, kind))
    {
      var b := new EntitySpaceMetrics(fa, kind);
      r := b.GetMetrics();
      FreshSpaceRun(OverEntities(SpaceSpecs(kind), Listed(fa.api, kind)));
    }

    /** `collect`: the planned builders in order over the one data source; the first that
      * raises ends the scrape. The program as written runs with `x == Undefined`, so every
      * `array` and `all` scrape raises; other values of `x` describe the builders as they
      * would run if the three accessors existed. */
    method Collect(x: Extras) returns (r: Result<seq<Snapshot>>)
      requires fa.Valid()
      modifies fa`arrayRecord, fa`volumes, fa`hosts, fa`pods, fa`fetches
      ensures fa.Valid()
      ensures r == Scrape(Plan(request), fa.api, ArrayResult(fa.api, old(fa.arrayRecord)), x)
      ensures x.interfaces.Err? && (request == "array" || request == "all") ==> r.Err?
    {
      var plan := Plan(request);
      ghost var got := ArrayResult(fa.api, fa.arrayRecord);
      if x.interfaces.Err? {
        UndefinedInterfacesFail(fa.api, got, x);
      }
      ghost var outs := Outputs(plan, fa.api, got, x);
      var out: seq<Snapshot> := [];
      var i := 0;
      while i < |plan|
        invariant 0 <= i <= |plan| && fa.Valid()
        invariant ArrayResult(fa.api, fa.arrayRecord) == got
        invariant Joined(outs[..i]) == Ok(out)
      {
        assert outs[..i + 1][..i] == outs[..i];
        var part := RunSection(plan[i], x);
        assert part == outs[i];
        if part.Err? {
          JoinedPrefixFailure(outs, i + 1);
          return Err(part.error);
        }
        out := out + part.value;
        i := i + 1;
      }
      assert outs[..i] == outs;
      r := Ok(out);
    }
  }

  /** A fresh builder starts from empty families, so one run yields exactly its own rows. */
  lemma FreshSpaceRun(whole: Result<seq<Snapshot>>)
    ensures whole.Ok? && |whole.value| == 3 ==> Grown([[], [], []], whole.value) == whole.value
  {
    if whole.Ok? && |whole.value| == 3 {
      GrownFromEmpty([[], [], []], whole.value);
    }
  }

  /** `FlasharrayCollector.__init__`: opening the data source; any failure is raised again as
    * one exception naming the endpoint. */
  method Connect(endpoint: string, session: Reply<FaApi>, request: string) returns (r: Result<FlasharrayCollector>)
    ensures r.Err? <==> session.Raised?
    ensures r.Err? ==> r.error == Exception(ConnectionMessage(endpoint))
    ensures r.Ok? ==> fresh(r.value) && fresh(r.value.fa) && r.value.request == request
    ensures r.Ok? ==> r.value.fa.api == session.data && r.value.fa.Valid() && r.value.fa.arrayRecord == None
  {
    if session.Raised? {
      return Err(Exception(ConnectionMessage(endpoint)));
    }
    var fa := new FlashArray(session.data);
    var c := new FlasharrayCollector(fa, request);
    r := Ok(c);
  }
}
