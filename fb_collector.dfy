/** The FlashBlade collector: it opens one data source per scrape and runs the metric
  * builders of the requested scope over it, in a fixed order, so that every builder shares
  * the data source's caches. The first builder that raises ends the scrape. */
module FbCollector {
  import opened Records
  import opened Families
  import opened FbSource
  import opened FbArray
  import opened FbEntities

  // ---------------------------------------------------------------- the plan

  /** One builder that `collect` may run. */
  datatype Section =
    | Info | Hardware | Events | Performance | SpecificPerformance | Space
    | FilesystemsSpace | BucketsSpace | FilesystemsPerformance | BucketsPerformance
    | BucketsReplica | FilesystemsReplica
    | UsersUsage | GroupsUsage
    | ClientsPerformance

  /** The request, other than `all`, whose block runs a section. */
  function Scope(s: Section): string
  {
    match s
    case UsersUsage | GroupsUsage => "usage"
    case ClientsPerformance => "clients"
    case _ => "array"
  }

  const ArraySections: seq<Section> := [
    Info, Hardware, Events, Performance, SpecificPerformance, Space,
    FilesystemsSpace, BucketsSpace, FilesystemsPerformance, BucketsPerformance,
    BucketsReplica, FilesystemsReplica]
  const UsageSections: seq<Section> := [UsersUsage, GroupsUsage]
  const ClientSections: seq<Section> := [ClientsPerformance]

  /** One guarded block of `collect`: its sections when the request is `all` or the block's scope. */
  function Block(request: string, scope: string, sections: seq<Section>): seq<Section>
  {
    if request == "all" || request == scope then sections else []
  }

  /** The builders `collect` runs for a request: its three guarded blocks in order. */
  function Plan(request: string): seq<Section>
  {
    Block(request, "array", ArraySections) + Block(request, "usage", UsageSections) + Block(request, "clients", ClientSections)
  }

  /** Each section belongs to the block of its scope. */
  lemma GroupOfScope(s: Section)
    ensures s in ArraySections <==> Scope(s) == "array"
    ensures s in UsageSections <==> Scope(s) == "usage"
    ensures s in ClientSections <==> Scope(s) == "clients"
  {
  }

  /** A section runs exactly when the request is `all` or the section's own scope. */
  lemma PlanSelects(request: string, s: Section)
    ensures s in Plan(request) <==> request == "all" || request == Scope(s)
  {
    GroupOfScope(s);
  }

  /** The plans of the four requests the exporter accepts, and of any other request. */
  lemma PlanByRequest(request: string)
    ensures Plan("all") == ArraySections + UsageSections + ClientSections
    ensures Plan("array") == ArraySections
    ensures Plan("usage") == UsageSections
    ensures Plan("clients") == ClientSections
    ensures request !in {"all", "array", "usage", "clients"} ==> Plan(request) == []
  {
  }

  // ---------------------------------------------------------------- what each section yields

  const InfoFamilyName := "purefb"
  const InfoKeys: seq<string> := ["array_name", "system_id", "os", "version"]

  /** `ArrayInfoMetrics._info`: one info sample from four attributes of the array record. */
  function InfoFamily(rec: Record): (r: Snapshot)
    ensures r.name == InfoFamilyName && r.labelKeys == InfoKeys && |r.samples| == 1
    ensures r.samples[0].labels == [Text(Attr(rec, "name")), Text(Attr(rec, "id")), Text(Attr(rec, "os")), Text(Attr(rec, "version"))]
    ensures |r.samples[0].labels| == |InfoKeys|
  {
    Snapshot(InfoFamilyName, InfoKeys,
      [Sample([Text(Attr(rec, "name")), Text(Attr(rec, "id")), Text(Attr(rec, "os")), Text(Attr(rec, "version"))], Num(1))])
  }

  /** What a builder over the array as a whole yields on a fresh builder. */
  function ArrayOutput(s: Section, api: FbApi): Result<seq<Snapshot>>
  {
    if s.Info? then
      (match First(api.arrays) case Err(f) => Err(f) case Ok(rec) => Ok([InfoFamily(rec)]))
    else if s.Hardware? then
      (match Listing(api.hardware) case Err(f) => Err(f)
       case Ok(hw) => Ok([Snapshot("purefb_hw_status", ["hw_id"], HardwareSamples(hw))]))
    else if s.Events? then
      (match Listing(api.openAlerts) case Err(f) => Err(f)
       case Ok(alerts) => Ok([Snapshot("purefb_open_events_total", ["severity"], EventSamples(alerts))]))
    else if s.Performance? then ProtocolFamilies(api, PerformanceSpecs)
    else if s.SpecificPerformance? then SpecificOutput(api)
    else (match First(api.arraySpace) case Err(f) => Err(f) case Ok(rec) => Ok(ArraySpaceFamilies(rec)))
  }

  /** What a builder over a plain listing yields. */
  function ListingOutput(s: Section, api: FbApi): Result<seq<Snapshot>>
  {
    if s.FilesystemsSpace? then OverEntities(FilesystemsSpaceSpecs, Listing(api.fileSystems))
    else if s.BucketsSpace? then OverEntities(BucketsSpaceSpecs, Listing(api.buckets))
    else if s.BucketsReplica? then OverEntities([BucketsReplicaSpec], Listing(api.bucketReplicaLinks))
    else if s.FilesystemsReplica? then OverEntities([FilesystemsReplicaSpec], Listing(api.fileSystemReplicaLinks))
    else OverEntities(ClientSpecs, Listing(api.clients))
  }

  /** What a builder over a gathered listing yields. */
  function GatheredOutput(s: Section, api: FbApi): Result<seq<Snapshot>>
  {
    if s.FilesystemsPerformance? then OverEntities(FilesystemsPerformanceSpecs, NfsResult(api))
    else if s.BucketsPerformance? then OverEntities(BucketsPerformanceSpecs, Settle(BucketsGathered(api)))
    else if s.UsersUsage? then OverEntities([UsageSpec(Users)], UsageListed(api, Users))
    else OverEntities([UsageSpec(Groups)], UsageListed(api, Groups))
  }

  predicate IsArraySection(s: Section)
  {
    s.Info? || s.Hardware? || s.Events? || s.Performance? || s.SpecificPerformance? || s.Space?
  }

  predicate IsGatheredSection(s: Section)
  {
    s.FilesystemsPerformance? || s.BucketsPerformance? || s.UsersUsage? || s.GroupsUsage?
  }

  /** The families one section yields, or what it raises. */
  function SectionOutput(s: Section, api: FbApi): Result<seq<Snapshot>>
  {
    if IsArraySection(s) then ArrayOutput(s, api)
    else if IsGatheredSection(s) then GatheredOutput(s, api)
    else ListingOutput(s, api)
  }

  /** What each section would yield on its own. */
  function Outputs(sections: seq<Section>, api: FbApi): (r: seq<Result<seq<Snapshot>>>)
    ensures |r| == |sections|
    ensures forall i :: 0 <= i < |sections| ==> r[i] == SectionOutput(sections[i], api)
  {
    seq(|sections|, i requires 0 <= i < |sections| => SectionOutput(sections[i], api))
  }

  /** Everything one scrape yields, in order, or the first exception. */
  function Scrape(sections: seq<Section>, api: FbApi): Result<seq<Snapshot>>
  {
    Joined(Outputs(sections, api))
  }

  lemma OutputsAppend(a: seq<Section>, b: seq<Section>, api: FbApi)
    ensures Outputs(a + b, api) == Outputs(a, api) + Outputs(b, api)
  {
    var whole, parts := Outputs(a + b, api), Outputs(a, api) + Outputs(b, api);
    forall i | 0 <= i < |whole|
      ensures whole[i] == parts[i]
    {
      if i < |a| {
        assert (a + b)[i] == a[i];
      } else {
        assert (a + b)[i] == b[i - |a|];
      }
    }
  }

  /** Scraping two runs of sections is scraping the first, then the second. */
  lemma ScrapeAppend(a: seq<Section>, b: seq<Section>, api: FbApi)
    ensures Scrape(a + b, api) == Chain(Scrape(a, api), Scrape(b, api))
  {
    OutputsAppend(a, b, api);
    JoinedAppend(Outputs(a, api), Outputs(b, api));
  }

  /** An `all` scrape yields the array, usage and client scopes' output in that order, and
    * fails with the first of them that fails. */
  lemma AllIsEveryScope(api: FbApi)
    ensures Scrape(Plan("all"), api) ==
      Chain(Chain(Scrape(Plan("array"), api), Scrape(Plan("usage"), api)), Scrape(Plan("clients"), api))
  {
    PlanByRequest("");
    ScrapeAppend(ArraySections, UsageSections, api);
    ScrapeAppend(ArraySections + UsageSections, ClientSections, api);
  }

  /** A request outside the four scopes yields no family at all. */
  lemma UnknownRequestYieldsNothing(request: string, api: FbApi)
    requires request !in {"all", "array", "usage", "clients"}
    ensures Scrape(Plan(request), api) == Ok([])
  {
    PlanByRequest(request);
  }

  /** A client whose name does not split into a client and a port fails every `clients` and
    * `all` scrape. */
  lemma UnsplitClientFails(api: FbApi, i: nat)
    requires Listing(api.clients).Ok? && i < |Listing(api.clients).value|
    requires !ClientNamed(Listing(api.clients).value[i])
    ensures Scrape(Plan("clients"), api).Err?
    ensures Scrape(Plan("all"), api).Err?
  {
    var cs := Listing(api.clients).value;
    ClientsSucceed(cs);
    PlanByRequest("");
    assert Outputs(ClientSections, api)[0].Err?;
    JoinedFails(Outputs(ClientSections, api), 0);
    AllIsEveryScope(api);
  }

  /** A fresh builder's families hold exactly what one run adds. */
  lemma {:induction false} FreshRun(before: seq<seq<Sample>>, whole: Result<seq<Snapshot>>)
    requires forall k :: 0 <= k < |before| ==> before[k] == []
    requires whole.Ok? ==> |whole.value| == |before|
    ensures Grow(before, whole) == whole
  {
    if whole.Ok? {
      GrownFromEmpty(before, whole.value);
    }
  }

  /** A successful run over a listing yields one family per loop. */
  lemma {:induction false} OverEntitiesLength(specs: seq<FamilySpec>, listed: Result<seq<Record>>)
    ensures OverEntities(specs, listed).Ok? ==> |OverEntities(specs, listed).value| == |specs|
  {
    if OverEntities(specs, listed).Ok? {
      FamiliesOfShape(specs, listed.value);
    }
  }

  /** A successful protocol run yields one family per spec. */
  lemma {:induction false} ProtocolFamiliesLength(api: FbApi, specs: seq<FamilySpec>)
    ensures ProtocolFamilies(api, specs).Ok? ==> |ProtocolFamilies(api, specs).value| == |specs|
    decreases |specs|
  {
    if |specs| > 0 {
      ProtocolFamiliesLength(api, specs[..|specs| - 1]);
    }
  }

  // ---------------------------------------------------------------- the builders of this file

  /** `ArrayInfoMetrics`: the array's info family. */
  class ArrayInfoMetrics {
    const fb: FlashBlade
    var info: Option<Snapshot>

    constructor (fb: FlashBlade)
      ensures this.fb == fb && info == None
    {
      this.fb := fb;
      info := None;
    }

    /** `get_metrics`: reads the array record and builds the info family. */
    method GetMetrics() returns (r: Result<seq<Snapshot>>)
      modifies this`info, fb`fetches
      ensures r == ArrayOutput(Info, fb.api)
      ensures r.Ok? ==> info == Some(r.value[0])
    {
      var got := fb.GetArrayInfo();
      if got.Err? {
        return Err(got.error);
      }
      var fam := InfoFamily(got.value);
      info := Some(fam);
      r := Ok([fam]);
    }
  }

  // ---------------------------------------------------------------- the collector

  /** `FlashbladeCollector`: one data source and the scope requested for this scrape. */
  class FlashbladeCollector {
    const fb: FlashBlade
    const request: string

    constructor (fb: FlashBlade, request: string)
      ensures this.fb == fb && this.request == request
    {
      this.fb := fb;
      this.request := request;
    }

    /** One builder, created afresh over the shared data source, run to completion. */
    method RunSection(s: Section) returns (r: Result<seq<Snapshot>>)
      requires fb.Valid() && fb.Settled()
      modifies fb`filesystems, fb`buckets, fb`arraySpace, fb`bucketsReplicaLinks,
               fb`filesystemsReplicaLinks, fb`clientsPerformance, fb`arrayPerformance, fb`arraySpecificPerf,
               fb`nfsFilesystemsPerformance, fb`bucketsPerformance, fb`usersUsage, fb`groupsUsage, fb`fetches
      ensures fb.Valid() && (r.Ok? ==> fb.Settled())
      ensures r == SectionOutput(s, fb.api)
    {
      if IsArraySection(s) {
        r := RunArraySection(s);
      } else if IsGatheredSection(s) {
        r := RunGatheredSection(s);
      } else {
        r := RunListingSection(s);
      }
    }

    /** The builders over the array as a whole, which fill the space and protocol caches. */
    method RunArraySection(s: Section) returns (r: Result<seq<Snapshot>>)
      requires fb.Valid() && IsArraySection(s)
      modifies fb`arraySpace, fb`arrayPerformance, fb`arraySpecificPerf, fb`fetches
      ensures fb.Valid()
      ensures r == ArrayOutput(s, fb.api)
    {
      if s.Info? {
        var b := new ArrayInfoMetrics(fb);
        r := b.GetMetrics();
      } else if s.Hardware? {
        r := RunHardware();
      } else if s.Events? {
        r := RunEvents();
      } else if s.Performance? {
        r := RunPerformance();
      } else if s.SpecificPerformance? {
        r := RunSpecific();
      } else {
        r := RunSpace();
      }
    }

    method RunPerformance() returns (r: Result<seq<Snapshot>>)
      requires fb.Valid()
      modifies fb`arrayPerformance, fb`fetches
      ensures fb.Valid()
      ensures r == ArrayOutput(Performance, fb.api)
    {
      var b := new ArrayPerformanceMetrics(fb);
      r := b.GetMetrics();
      ProtocolFamiliesLength(fb.api, PerformanceSpecs);
      FreshRun([[], [], [], []], ProtocolFamilies(fb.api, PerformanceSpecs));
    }

    method RunSpecific() returns (r: Result<seq<Snapshot>>)
      requires fb.Valid()
      modifies fb`arraySpecificPerf, fb`fetches
      ensures fb.Valid()
      ensures r == ArrayOutput(SpecificPerformance, fb.api)
    {
      var b := new ArraySpecificPerformanceMetrics(fb);
      r := b.GetMetrics();
    }

    method RunHardware() returns (r: Result<seq<Snapshot>>)
      modifies fb`fetches
      ensures r == ArrayOutput(Hardware, fb.api)
    {
      var b := new ArrayHardwareMetrics(fb);
      if b.fbHardwareStatus.Err? {
        return Err(b.fbHardwareStatus.error);
      }
      var snaps := b.GetMetrics();
      assert [] + HardwareSamples(b.fbHardwareStatus.value) == HardwareSamples(b.fbHardwareStatus.value);
      r := Ok(snaps);
    }

    method RunEvents() returns (r: Result<seq<Snapshot>>)
      modifies fb`fetches
      ensures r == ArrayOutput(Events, fb.api)
    {
      var b := new ArrayEventsMetrics(fb);
      if b.fbEvents.Err? {
        return Err(b.fbEvents.error);
      }
      var snaps := b.GetMetrics();
      assert [] + EventSamples(b.fbEvents.value) == EventSamples(b.fbEvents.value);
      r := Ok(snaps);
    }

    method RunSpace() returns (r: Result<seq<Snapshot>>)
      requires fb.Valid()
      modifies fb`arraySpace, fb`fetches
      ensures fb.Valid()
      ensures r == ArrayOutput(Space, fb.api)
    {
      var b := new ArraySpaceMetrics(fb);
      if b.arraySpace.Err? {
        return Err(b.arraySpace.error);
      }
      var snaps := b.GetMetrics();
      GrownFromEmpty([[], [], []], ArraySpaceFamilies(b.arraySpace.value));
      r := Ok(snaps);
    }

    /** The builders over the filesystem, bucket, replica link and client listings. */
    method RunListingSection(s: Section) returns (r: Result<seq<Snapshot>>)
      requires fb.Valid() && !IsArraySection(s) && !IsGatheredSection(s)
      modifies fb`filesystems, fb`buckets, fb`bucketsReplicaLinks, fb`filesystemsReplicaLinks,
               fb`clientsPerformance, fb`fetches
      ensures fb.Valid()
      ensures r == ListingOutput(s, fb.api)
    {
      if s.FilesystemsSpace? {
        r := RunFilesystemsSpace();
      } else if s.BucketsSpace? {
        r := RunBucketsSpace();
      } else if s.BucketsReplica? {
        r := RunBucketsReplica();
      } else if s.FilesystemsReplica? {
        var b := new FilesystemsReplicaMetrics(fb);
        r := b.GetMetrics();
      } else {
        var b := new ClientsPerformanceMetrics(fb);
        r := b.GetMetrics();
      }
    }

    method RunFilesystemsSpace() returns (r: Result<seq<Snapshot>>)
      requires fb.Valid()
      modifies fb`filesystems, fb`fetches
      ensures fb.Valid()
      ensures r == ListingOutput(FilesystemsSpace, fb.api)
    {
      var b := new FilesystemsSpaceMetrics(fb);
      r := b.GetMetrics();
      OverEntitiesLength(FilesystemsSpaceSpecs, b.filesystems);
      FreshRun([[], []], OverEntities(FilesystemsSpaceSpecs, b.filesystems));
    }

    method RunBucketsSpace() returns (r: Result<seq<Snapshot>>)
      requires fb.Valid()
      modifies fb`buckets, fb`fetches
      ensures fb.Valid()
      ensures r == ListingOutput(BucketsSpace, fb.api)
    {
      var b := new BucketsSpaceMetrics(fb);
      r := b.GetMetrics();
      OverEntitiesLength(BucketsSpaceSpecs, b.buckets);
      FreshRun([[], [], []], OverEntities(BucketsSpaceSpecs, b.buckets));
    }

    method RunBucketsReplica() returns (r: Result<seq<Snapshot>>)
      requires fb.Valid()
      modifies fb`bucketsReplicaLinks, fb`fetches
      ensures fb.Valid()
      ensures r == ListingOutput(BucketsReplica, fb.api)
    {
      var b := new BucketsReplicaMetrics(fb);
      r := b.GetMetrics();
      OverEntitiesLength([BucketsReplicaSpec], b.links);
      FreshRun([[]], OverEntities([BucketsReplicaSpec], b.links));
    }

    /** The builders over the gathered listings, whose caches keep partial results. */
    method RunGatheredSection(s: Section) returns (r: Result<seq<Snapshot>>)
      requires fb.Valid() && fb.Settled() && IsGatheredSection(s)
      modifies fb`filesystems, fb`buckets, fb`nfsFilesystemsPerformance, fb`bucketsPerformance,
               fb`usersUsage, fb`groupsUsage, fb`fetches
      ensures fb.Valid() && (r.Ok? ==> fb.Settled())
      ensures r == GatheredOutput(s, fb.api)
    {
      if s.FilesystemsPerformance? {
        r := RunFilesystemsPerformance();
      } else if s.BucketsPerformance? {
        r := RunBucketsPerformance();
      } else {
        var b := new UsageMetrics(fb, if s.UsersUsage? then Users else Groups);
        r := b.GetMetrics();
      }
    }

    method RunFilesystemsPerformance() returns (r: Result<seq<Snapshot>>)
      requires fb.Valid() && fb.Settled()
      modifies fb`filesystems, fb`nfsFilesystemsPerformance, fb`fetches
      ensures fb.Valid() && (r.Ok? ==> fb.Settled())
      ensures r == GatheredOutput(FilesystemsPerformance, fb.api)
    {
      var b := new FilesystemsPerformanceMetrics(fb);
      r := b.GetMetrics();
      OverEntitiesLength(FilesystemsPerformanceSpecs, b.nfsPerformance);
      FreshRun([[], [], [], []], OverEntities(FilesystemsPerformanceSpecs, b.nfsPerformance));
    }

    method RunBucketsPerformance() returns (r: Result<seq<Snapshot>>)
      requires fb.Valid() && fb.Settled()
      modifies fb`buckets, fb`bucketsPerformance, fb`fetches
      ensures fb.Valid() && (r.Ok? ==> fb.Settled())
      ensures r == GatheredOutput(BucketsPerformance, fb.api)
    {
      var b := new BucketsPerformanceMetrics(fb);
      r := b.GetMetrics();
      OverEntitiesLength(BucketsPerformanceSpecs, b.bucketsPerformance);
      FreshRun([[], []], OverEntities(BucketsPerformanceSpecs, b.bucketsPerformance));
    }

    /** `collect`: the planned builders in order over the one data source; the first that
      * raises ends the scrape. Whatever the caches fill in between, the scrape is a function
      * of the array's replies alone. */
    method Collect() returns (r: Result<seq<Snapshot>>)
      requires fb.Valid() && fb.Settled()
      modifies fb`filesystems, fb`buckets, fb`arraySpace, fb`bucketsReplicaLinks,
               fb`filesystemsReplicaLinks, fb`clientsPerformance, fb`arrayPerformance, fb`arraySpecificPerf,
               fb`nfsFilesystemsPerformance, fb`bucketsPerformance, fb`usersUsage, fb`groupsUsage, fb`fetches
      ensures fb.Valid()
      ensures r == Scrape(Plan(request), fb.api)
    {
      var plan := Plan(request);
      ghost var outs := Outputs(plan, fb.api);
      var out: seq<Snapshot> := [];
      var i := 0;
      while i < |plan|
        invariant 0 <= i <= |plan| && fb.Valid() && fb.Settled()
        invariant Joined(outs[..i]) == Ok(out)
      {
        assert outs[..i + 1][..i] == outs[..i];
        var part := RunSection(plan[i]);
        assert part == outs[i];
        if part.Err? {
          JoinedPrefixFailure(outs, i + 1);
          return Err(part.error);
        }
        out := out + part.value;
        i := i + 1;
      }
      assert outs[..i] == outs;
      r := Ok(out);
    }
  }

  /** `FlashbladeCollector.__init__`: opening the data source; a failed login propagates. */
  method Connect(session: Reply<FbApi>, request: string) returns (r: Result<FlashbladeCollector>)
    ensures r.Err? <==> session.Raised?
    ensures r.Err? ==> r.error == UpstreamError
    ensures r.Ok? ==> fresh(r.value) && fresh(r.value.fb) && r.value.request == request
    ensures r.Ok? ==> r.value.fb.api == session.data && r.value.fb.Valid() && r.value.fb.Settled()
  {
    if session.Raised? {
      return Err(UpstreamError);
    }
    var fb := new FlashBlade(session.data);
    var c := new FlashbladeCollector(fb, request);
    r := Ok(c);
  }
}
