/** The FlashBlade data source: one SDK session per scrape whose listings are fetched on
  * first use and cached on the instance. The SDK session is modelled by the replies it
  * gives (`FbApi`); the records are SDK objects read by attribute, so a field the object
  * does not carry reads as `None`. */
module FbSource {
  import opened Records

  /** What the SDK session answers, call by call. Calls made with a protocol, a filesystem
    * name or a bucket name are looked up by that argument; an argument the map does not
    * hold makes the call raise. The array performance listing may hold `None`. */
  datatype FbApi = FbApi(
    arrays: Reply<seq<Record>>,
    openAlerts: Reply<seq<Record>>,
    hardware: Reply<seq<Record>>,
    arrayPerformance: map<string, Reply<seq<Option<Record>>>>,
    httpSpecific: Reply<seq<Record>>,
    nfsSpecific: Reply<seq<Record>>,
    s3Specific: Reply<seq<Record>>,
    fileSystems: Reply<seq<Record>>,
    arraySpace: Reply<seq<Record>>,
    buckets: Reply<seq<Record>>,
    fileSystemPerformance: map<Value, Reply<seq<Record>>>,
    bucketPerformance: map<Value, Reply<seq<Record>>>,
    bucketReplicaLinks: Reply<seq<Record>>,
    fileSystemReplicaLinks: Reply<seq<Record>>,
    userUsage: map<Value, Reply<seq<Record>>>,
    groupUsage: map<Value, Reply<seq<Record>>>,
    clients: Reply<seq<Record>>)

  /** The reply to a call made with argument `arg`. */
  function CallWith<K, T>(calls: map<K, Reply<T>>, arg: K): Reply<T>
  {
    if arg in calls then calls[arg] else Raised
  }

  /** The keys of the per-protocol performance cache. */
  const PerformanceProtocols: set<string> := {"nfs", "http", "s3", "smb"}

  /** The protocols with a specific-performance listing. */
  const SpecificProtocols: set<string> := {"nfs", "http", "s3"}

  /** `get_array_performance(proto)`: the first record of the protocol's listing; a protocol
    * without a cache slot raises `KeyError` before any call. */
  function ArrayPerformanceOf(api: FbApi, proto: string): Result<Option<Record>>
  {
    if proto in PerformanceProtocols then First(CallWith(api.arrayPerformance, proto)) else Err(KeyError(Str(proto)))
  }

  function SpecificReply(api: FbApi, proto: string): Reply<seq<Record>>
  {
    if proto == "http" then api.httpSpecific
    else if proto == "nfs" then api.nfsSpecific
    else if proto == "s3" then api.s3Specific
    else Raised
  }

  /** `get_array_specific_performance(proto)`: the first record of the protocol's listing,
    * or `None` for a protocol other than http, nfs and s3. */
  function ArraySpecificPerformanceOf(api: FbApi, proto: string): Result<Option<Record>>
  {
    if proto in SpecificProtocols then
      match First(SpecificReply(api, proto))
      case Err(f) => Err(f)
      case Ok(m) => Ok(Some(m))
    else Ok(None)
  }

  // ---------------------------------------------------------------- lists gathered per item

  /** The NFS performance records of the filesystems, in filesystem order: a filesystem whose
    * call raises, or returns nothing, contributes nothing. */
  function NfsRecords(api: FbApi, fss: seq<Record>): (ps: seq<Record>)
    ensures |ps| <= |fss|
  {
    if |fss| == 0 then []
    else
      var n := |fss| - 1;
      NfsRecords(api, fss[..n]) +
        (match First(CallWith(api.fileSystemPerformance, Attr(fss[n], "name"))) case Ok(p) => [p] case Err(_) => [])
  }

  /** `get_nfs_filesystems_performance` on an empty cache. */
  function NfsResult(api: FbApi): Result<seq<Record>>
  {
    match Listing(api.fileSystems)
    case Err(f) => Err(f)
    case Ok(fss) => Ok(NfsRecords(api, fss))
  }

  /** A list gathered item by item and the failure that stopped the gathering, if any. */
  datatype Gathered = Gathered(items: seq<Record>, failed: Option<Failure>)

  /** What the gathering call returns: the list, or the failure. */
  function Settle(g: Gathered): Result<seq<Record>>
  {
    if g.failed.Some? then Err(g.failed.value) else Ok(g.items)
  }

  /** The performance record of each bucket in bucket order; the first call that raises or
    * returns nothing stops the loop, keeping what came before. */
  function BucketRecords(api: FbApi, bs: seq<Record>): Gathered
  {
    if |bs| == 0 then Gathered([], None)
    else
      var front := BucketRecords(api, bs[..|bs| - 1]);
      if front.failed.Some? then front
      else
        match First(CallWith(api.bucketPerformance, Attr(bs[|bs| - 1], "name")))
        case Err(f) => Gathered(front.items, Some(f))
        case Ok(p) => Gathered(front.items + [p], None)
  }

  /** `get_buckets_performance` on an empty cache: what the cache ends up holding. */
  function BucketsGathered(api: FbApi): Gathered
  {
    match Listing(api.buckets)
    case Err(f) => Gathered([], Some(f))
    case Ok(bs) => BucketRecords(api, bs)
  }

  /** The usage records of each filesystem, concatenated in filesystem order; the first call
    * that raises stops the loop, keeping what came before. */
  function UsageRecords(calls: map<Value, Reply<seq<Record>>>, fss: seq<Record>): Gathered
  {
    if |fss| == 0 then Gathered([], None)
    else
      var front := UsageRecords(calls, fss[..|fss| - 1]);
      if front.failed.Some? then front
      else
        match Listing(CallWith(calls, Attr(fss[|fss| - 1], "name")))
        case Err(f) => Gathered(front.items, Some(f))
        case Ok(us) => Gathered(front.items + us, None)
  }

  /** `get_users_usage` or `get_groups_usage` on an empty cache: what the cache ends up holding. */
  function UsageGathered(api: FbApi, calls: map<Value, Reply<seq<Record>>>): Gathered
  {
    match Listing(api.fileSystems)
    case Err(f) => Gathered([], Some(f))
    case Ok(fss) => UsageRecords(calls, fss)
  }

  class FlashBlade {
    const api: FbApi
    var filesystems: Option<seq<Record>>
    var buckets: Option<seq<Record>>
    var arrayPerformance: map<string, Option<Record>>
    var arraySpecificPerf: map<string, Option<Record>>
    var arraySpace: Option<Record>
    var nfsFilesystemsPerformance: Option<seq<Record>>
    var bucketsPerformance: Option<seq<Record>>
    var bucketsReplicaLinks: Option<seq<Record>>
    var filesystemsReplicaLinks: Option<seq<Record>>
    var usersUsage: Option<seq<Record>>
    var groupsUsage: Option<seq<Record>>
    var clientsPerformance: Option<seq<Record>>
    /** Number of SDK calls issued so far. */
    ghost var fetches: nat

    /** Every cache holds what its listing produced. A list gathered item by item is cached
      * before its loop runs, so after a failure it keeps the items gathered until then. */
    ghost predicate Valid()
      reads this`filesystems, this`buckets, this`arraySpace, this`bucketsReplicaLinks,
            this`filesystemsReplicaLinks, this`clientsPerformance, this`arrayPerformance, this`arraySpecificPerf,
            this`nfsFilesystemsPerformance, this`bucketsPerformance, this`usersUsage, this`groupsUsage
    {
      ListingsValid() && ProtocolsValid() && GatheredValid()
    }

    /** The caches filled by one call hold that call's listing. */
    ghost predicate ListingsValid()
      reads this`filesystems, this`buckets, this`arraySpace, this`bucketsReplicaLinks,
            this`filesystemsReplicaLinks, this`clientsPerformance
    {
      (filesystems.Some? ==> Listing(api.fileSystems) == Ok(filesystems.value)) &&
      (buckets.Some? ==> Listing(api.buckets) == Ok(buckets.value)) &&
      (arraySpace.Some? ==> First(api.arraySpace) == Ok(arraySpace.value)) &&
      (bucketsReplicaLinks.Some? ==> Listing(api.bucketReplicaLinks) == Ok(bucketsReplicaLinks.value)) &&
      (filesystemsReplicaLinks.Some? ==> Listing(api.fileSystemReplicaLinks) == Ok(filesystemsReplicaLinks.value)) &&
      ClientsValid()
    }

    /** The client cache holds the client listing. */
    ghost predicate ClientsValid()
      reads this`clientsPerformance
    {
      clientsPerformance.Some? ==> Listing(api.clients) == Ok(clientsPerformance.value)
    }

    /** The per-protocol caches have their fixed keys and hold the protocol's first record. */
    ghost predicate ProtocolsValid()
      reads this`arrayPerformance, this`arraySpecificPerf
    {
      arrayPerformance.Keys == PerformanceProtocols &&
      (forall p :: p in arrayPerformance && arrayPerformance[p].Some? ==>
         First(CallWith(api.arrayPerformance, p)) == Ok(arrayPerformance[p])) &&
      arraySpecificPerf.Keys == SpecificProtocols &&
      (forall p :: p in arraySpecificPerf && arraySpecificPerf[p].Some? ==>
         First(SpecificReply(api, p)) == Ok(arraySpecificPerf[p].value))
    }

    /** The lists gathered item by item hold what their loop gathered. */
    ghost predicate GatheredValid()
      reads this`nfsFilesystemsPerformance, this`bucketsPerformance, this`usersUsage, this`groupsUsage
    {
      (nfsFilesystemsPerformance.Some? ==>
         nfsFilesystemsPerformance.value == (if NfsResult(api).Ok? then NfsResult(api).value else [])) &&
      (bucketsPerformance.Some? ==> bucketsPerformance.value == BucketsGathered(api).items) &&
      (usersUsage.Some? ==> usersUsage.value == UsageGathered(api, api.userUsage).items) &&
      (groupsUsage.Some? ==> groupsUsage.value == UsageGathered(api, api.groupUsage).items)
    }

    /** No list gathered item by item was left behind by a failed call: each one cached is
      * the complete list. */
    ghost predicate Settled()
      reads this`nfsFilesystemsPerformance, this`bucketsPerformance, this`usersUsage, this`groupsUsage
    {
      (nfsFilesystemsPerformance.Some? ==> NfsResult(api) == Ok(nfsFilesystemsPerformance.value)) &&
      (bucketsPerformance.Some? ==> Settle(BucketsGathered(api)) == Ok(bucketsPerformance.value)) &&
      (usersUsage.Some? ==> Settle(UsageGathered(api, api.userUsage)) == Ok(usersUsage.value)) &&
      (groupsUsage.Some? ==> Settle(UsageGathered(api, api.groupUsage)) == Ok(groupsUsage.value))
    }

    /** Refilling the protocol caches keeps every other cache's guarantee. */
    twostate lemma ProtocolsRefilled()
      requires old(Valid()) && ProtocolsValid()
      requires unchanged(this`filesystems, this`buckets, this`arraySpace, this`nfsFilesystemsPerformance,
                         this`bucketsPerformance, this`bucketsReplicaLinks, this`filesystemsReplicaLinks,
                         this`usersUsage, this`groupsUsage, this`clientsPerformance)
      ensures Valid() && (old(Settled()) ==> Settled())
    {
    }

    /** Refilling the client cache keeps every other cache's guarantee. */
    twostate lemma ClientsRefilled()
      requires old(Valid()) && ClientsValid()
      requires unchanged(this`filesystems, this`buckets, this`arraySpace, this`nfsFilesystemsPerformance,
                         this`bucketsPerformance, this`bucketsReplicaLinks, this`filesystemsReplicaLinks,
                         this`usersUsage, this`groupsUsage, this`arrayPerformance, this`arraySpecificPerf)
      ensures Valid() && (old(Settled()) ==> Settled())
    {
    }

    constructor (api: FbApi)
      ensures Valid() && Settled() && this.api == api && fetches == 0
      ensures filesystems == None && buckets == None && arraySpace == None
      ensures nfsFilesystemsPerformance == None && bucketsPerformance == None && usersUsage == None && groupsUsage == None
      ensures bucketsReplicaLinks == None && filesystemsReplicaLinks == None && clientsPerformance == None
      ensures arrayPerformance == map["nfs" := None, "http" := None, "s3" := None, "smb" := None]
      ensures arraySpecificPerf == map["nfs" := None, "http" := None, "s3" := None]
    {
      this.api := api;
      filesystems, buckets, arraySpace := None, None, None;
      arrayPerformance := map["nfs" := None, "http" := None, "s3" := None, "smb" := None];
      arraySpecificPerf := map["nfs" := None, "http" := None, "s3" := None];
      nfsFilesystemsPerformance, bucketsPerformance := None, None;
      bucketsReplicaLinks, filesystemsReplicaLinks := None, None;
      usersUsage, groupsUsage, clientsPerformance := None, None, None;
      fetches := 0;
    }

    /** `get_array_info`: the first array record, not cached. */
    method GetArrayInfo() returns (r: Result<Record>)
      modifies this`fetches
      ensures r == First(api.arrays)
    {
      fetches := fetches + 1;
      r := First(api.arrays);
    }

    /** `get_open_alerts`: not cached. */
    method GetOpenAlerts() returns (r: Result<seq<Record>>)
      modifies this`fetches
      ensures r == Listing(api.openAlerts)
    {
      fetches := fetches + 1;
      r := Listing(api.openAlerts);
    }

    /** `get_hardware_status`: not cached. */
    method GetHardwareStatus() returns (r: Result<seq<Record>>)
      modifies this`fetches
      ensures r == Listing(api.hardware)
    {
      fetches := fetches + 1;
      r := Listing(api.hardware);
    }

    /** `get_array_performance(proto)`: cached per protocol; a `None` record is not a cache
      * hit, so it is fetched again on the next call. */
    method GetArrayPerformance(proto: string) returns (r: Result<Option<Record>>)
      requires ProtocolsValid()
      modifies this`arrayPerformance, this`fetches
      ensures ProtocolsValid()
      ensures r == ArrayPerformanceOf(api, proto)
      ensures proto in old(arrayPerformance) && old(arrayPerformance)[proto].Some? ==>
                fetches == old(fetches) && arrayPerformance == old(arrayPerformance)
      ensures r.Ok? && r.value.Some? ==> arrayPerformance == old(arrayPerformance)[proto := r.value]
    {
      if proto !in arrayPerformance {
        return Err(KeyError(Str(proto)));
      }
      if arrayPerformance[proto].Some? {
        return Ok(arrayPerformance[proto]);
      }
      fetches := fetches + 1;
      var m := First(CallWith(api.arrayPerformance, proto));
      if m.Err? {
        return Err(m.error);
      }
      arrayPerformance := arrayPerformance[proto := m.value];
      r := Ok(m.value);
    }

    /** `get_array_specific_performance(proto)`: cached per protocol for http, nfs and s3;
      * any other protocol gets `None` without a call. */
    method GetArraySpecificPerformance(proto: string) returns (r: Result<Option<Record>>)
      requires ProtocolsValid()
      modifies this`arraySpecificPerf, this`fetches
      ensures ProtocolsValid()
      ensures r == ArraySpecificPerformanceOf(api, proto)
      ensures proto !in SpecificProtocols ==> r == Ok(None) && fetches == old(fetches)
      ensures proto in old(arraySpecificPerf) && old(arraySpecificPerf)[proto].Some? ==> fetches == old(fetches)
    {
      if proto == "http" || proto == "nfs" || proto == "s3" {
        if arraySpecificPerf[proto].Some? {
          return Ok(arraySpecificPerf[proto]);
        }
        fetches := fetches + 1;
        var m := First(SpecificReply(api, proto));
        if m.Err? {
          return Err(m.error);
        }
        arraySpecificPerf := arraySpecificPerf[proto := Some(m.value)];
        return Ok(Some(m.value));
      }
      r := Ok(None);
    }

    /** `get_filesystems`: fetched once, then cached. */
    method GetFilesystems() returns (r: Result<seq<Record>>)
      requires Valid()
      modifies this`filesystems, this`fetches
      ensures Valid()
      ensures r == Listing(api.fileSystems)
      ensures r.Ok? ==> filesystems == Some(r.value)
      ensures old(filesystems).Some? ==> fetches == old(fetches)
    {
      if filesystems.Some? {
        return Ok(filesystems.value);
      }
      fetches := fetches + 1;
      r := Listing(api.fileSystems);
      if r.Ok? {
        filesystems := Some(r.value);
      }
    }

    /** `get_array_space`: fetched once, then cached. */
    method GetArraySpace() returns (r: Result<Record>)
      requires Valid()
      modifies this`arraySpace, this`fetches
      ensures Valid()
      ensures r == First(api.arraySpace)
      ensures r.Ok? ==> arraySpace == Some(r.value)
      ensures old(arraySpace).Some? ==> fetches == old(fetches)
    {
      if arraySpace.Some? {
        return Ok(arraySpace.value);
      }
      fetches := fetches + 1;
      r := First(api.arraySpace);
      if r.Ok? {
        arraySpace := Some(r.value);
      }
    }

    /** `get_buckets`: fetched once, then cached. */
    method GetBuckets() returns (r: Result<seq<Record>>)
      requires Valid()
      modifies this`buckets, this`fetches
      ensures Valid()
      ensures r == Listing(api.buckets)
      ensures r.Ok? ==> buckets == Some(r.value)
      ensures old(buckets).Some? ==> fetches == old(fetches)
    {
      if buckets.Some? {
        return Ok(buckets.value);
      }
      fetches := fetches + 1;
      r := Listing(api.buckets);
      if r.Ok? {
        buckets := Some(r.value);
      }
    }

    /** `get_nfs_filesystems_performance`: one call per filesystem; a call that raises is skipped. */
    method GetNfsFilesystemsPerformance() returns (r: Result<seq<Record>>)
      requires Valid()
      modifies this`nfsFilesystemsPerformance, this`filesystems, this`fetches
      ensures Valid() && nfsFilesystemsPerformance.Some?
      ensures old(nfsFilesystemsPerformance).Some? ==>
                r == Ok(old(nfsFilesystemsPerformance).value) && fetches == old(fetches)
      ensures old(nfsFilesystemsPerformance).None? ==> r == NfsResult(api)
      ensures old(Settled()) ==> r == NfsResult(api)
      ensures old(Settled()) && r.Ok? ==> Settled()
    {
      if nfsFilesystemsPerformance.Some? {
        return Ok(nfsFilesystemsPerformance.value);
      }
      var fss := GetFilesystems();
      nfsFilesystemsPerformance := Some([]);
      if fss.Err? {
        return Err(fss.error);
      }
      var got := GatherNfs(fss.value);
      nfsFilesystemsPerformance := Some(got);
      r := Ok(got);
    }

    /** The loop of `get_nfs_filesystems_performance`: one call per filesystem, a failing call
      * is skipped. */
    method GatherNfs(fss: seq<Record>) returns (got: seq<Record>)
      modifies this`fetches
      ensures got == NfsRecords(api, fss)
    {
      got := [];
      var i := 0;
      while i < |fss|
        invariant 0 <= i <= |fss|
        invariant got == NfsRecords(api, fss[..i])
      {
        fetches := fetches + 1;
        var p := First(CallWith(api.fileSystemPerformance, Attr(fss[i], "name")));
        NfsRecordsStep(api, fss, i);
        if p.Ok? {
          got := got + [p.value];
        } else {
          assert got + [] == got;
        }
        i := i + 1;
      }
      assert fss[..i] == fss;
    }

    /** `get_buckets_performance`: one call per bucket; the first that raises ends the loop
      * and leaves the records gathered so far in the cache. */
    method GetBucketsPerformance() returns (r: Result<seq<Record>>)
      requires Valid()
      modifies this`bucketsPerformance, this`buckets, this`fetches
      ensures Valid() && bucketsPerformance.Some?
      ensures old(bucketsPerformance).Some? ==> r == Ok(old(bucketsPerformance).value) && fetches == old(fetches)
      ensures old(bucketsPerformance).None? ==>
                r == Settle(BucketsGathered(api)) && bucketsPerformance == Some(BucketsGathered(api).items)
      ensures old(Settled()) ==> r == Settle(BucketsGathered(api))
      ensures old(Settled()) && r.Ok? ==> Settled()
    {
      if bucketsPerformance.Some? {
        return Ok(bucketsPerformance.value);
      }
      var bs := GetBuckets();
      bucketsPerformance := Some([]);
      if bs.Err? {
        return Err(bs.error);
      }
      var got, failed := GatherBuckets(bs.value);
      bucketsPerformance := Some(got);
      r := if failed.Some? then Err(failed.value) else Ok(got);
    }

    /** The loop of `get_buckets_performance`: the first call that fails ends it. */
    method GatherBuckets(bs: seq<Record>) returns (got: seq<Record>, failed: Option<Failure>)
      modifies this`fetches
      ensures Gathered(got, failed) == BucketRecords(api, bs)
    {
      got := [];
      var i := 0;
      while i < |bs|
        invariant 0 <= i <= |bs|
        invariant BucketRecords(api, bs[..i]) == Gathered(got, None)
      {
        fetches := fetches + 1;
        var p := First(CallWith(api.bucketPerformance, Attr(bs[i], "name")));
        BucketRecordsStep(api, bs, i);
        if p.Err? {
          BucketRecordsStop(api, bs, i + 1);
          return got, Some(p.error);
        }
        got := got + [p.value];
        i := i + 1;
      }
      assert bs[..i] == bs;
      failed := None;
    }

    /** `get_bucket_replica_links`: fetched once, then cached. */
    method GetBucketReplicaLinks() returns (r: Result<seq<Record>>)
      requires Valid()
      modifies this`bucketsReplicaLinks, this`fetches
      ensures Valid()
      ensures r == Listing(api.bucketReplicaLinks)
      ensures old(bucketsReplicaLinks).Some? ==> fetches == old(fetches)
    {
      if bucketsReplicaLinks.Some? {
        return Ok(bucketsReplicaLinks.value);
      }
      fetches := fetches + 1;
      r := Listing(api.bucketReplicaLinks);
      if r.Ok? {
        bucketsReplicaLinks := Some(r.value);
      }
    }

    /** `get_filesystem_replica_links`: fetched once, then cached. */
    method GetFilesystemReplicaLinks() returns (r: Result<seq<Record>>)
      requires Valid()
      modifies this`filesystemsReplicaLinks, this`fetches
      ensures Valid()
      ensures r == Listing(api.fileSystemReplicaLinks)
      ensures old(filesystemsReplicaLinks).Some? ==> fetches == old(fetches)
    {
      if filesystemsReplicaLinks.Some? {
        return Ok(filesystemsReplicaLinks.value);
      }
      fetches := fetches + 1;
      r := Listing(api.fileSystemReplicaLinks);
      if r.Ok? {
        filesystemsReplicaLinks := Some(r.value);
      }
    }

    /** `get_users_usage`: the usage records of every filesystem, concatenated. */
    method GetUsersUsage() returns (r: Result<seq<Record>>)
      requires Valid()
      modifies this`usersUsage, this`filesystems, this`fetches
      ensures Valid() && usersUsage.Some?
      ensures old(usersUsage).Some? ==> r == Ok(old(usersUsage).value) && fetches == old(fetches)
      ensures old(usersUsage).None? ==>
                r == Settle(UsageGathered(api, api.userUsage)) && usersUsage == Some(UsageGathered(api, api.userUsage).items)
      ensures old(Settled()) ==> r == Settle(UsageGathered(api, api.userUsage))
      ensures old(Settled()) && r.Ok? ==> Settled()
    {
      if usersUsage.Some? {
        return Ok(usersUsage.value);
      }
      var fss := GetFilesystems();
      usersUsage := Some([]);
      if fss.Err? {
        return Err(fss.error);
      }
      var got, failed := GatherUsage(api.userUsage, fss.value);
      usersUsage := Some(got);
      r := if failed.Some? then Err(failed.value) else Ok(got);
    }

    /** `get_groups_usage`: the usage records of every filesystem, concatenated. */
    method GetGroupsUsage() returns (r: Result<seq<Record>>)
      requires Valid()
      modifies this`groupsUsage, this`filesystems, this`fetches
      ensures Valid() && groupsUsage.Some?
      ensures old(groupsUsage).Some? ==> r == Ok(old(groupsUsage).value) && fetches == old(fetches)
      ensures old(groupsUsage).None? ==>
                r == Settle(UsageGathered(api, api.groupUsage)) && groupsUsage == Some(UsageGathered(api, api.groupUsage).items)
      ensures old(Settled()) ==> r == Settle(UsageGathered(api, api.groupUsage))
      ensures old(Settled()) && r.Ok? ==> Settled()
    {
      if groupsUsage.Some? {
        return Ok(groupsUsage.value);
      }
      var fss := GetFilesystems();
      groupsUsage := Some([]);
      if fss.Err? {
        return Err(fss.error);
      }
      var got, failed := GatherUsage(api.groupUsage, fss.value);
      groupsUsage := Some(got);
      r := if failed.Some? then Err(failed.value) else Ok(got);
    }

    /** The loop of `get_users_usage` and `get_groups_usage`: a filesystem with no usage
      * records is skipped, the others' records are appended in order. */
    method GatherUsage(calls: map<Value, Reply<seq<Record>>>, fss: seq<Record>) returns (got: seq<Record>, failed: Option<Failure>)
      modifies this`fetches
      ensures Gathered(got, failed) == UsageRecords(calls, fss)
    {
      got := [];
      var i := 0;
      while i < |fss|
        invariant 0 <= i <= |fss|
        invariant UsageRecords(calls, fss[..i]) == Gathered(got, None)
      {
        assert fss[..i + 1][..i] == fss[..i];
        fetches := fetches + 1;
        var us := Listing(CallWith(calls, Attr(fss[i], "name")));
        if us.Err? {
          UsageRecordsStop(calls, fss, i + 1);
          return got, Some(us.error);
        }
        if |us.value| == 0 {
          assert got + us.value == got;
        } else {
          got := got + us.value;
        }
        i := i + 1;
      }
      assert fss[..i] == fss;
      failed := None;
    }

    /** `get_clients_performance`: fetched once, then cached. */
    method GetClientsPerformance() returns (r: Result<seq<Record>>)
      requires ClientsValid()
      modifies this`clientsPerformance, this`fetches
      ensures ClientsValid()
      ensures r == Listing(api.clients)
      ensures old(clientsPerformance).Some? ==> fetches == old(fetches)
    {
      if clientsPerformance.Some? {
        return Ok(clientsPerformance.value);
      }
      fetches := fetches + 1;
      r := Listing(api.clients);
      if r.Ok? {
        clientsPerformance := Some(r.value);
      }
    }
  }

  // ---------------------------------------------------------------- what the gathered lists hold

  lemma {:induction false} NfsRecordsStep(api: FbApi, fss: seq<Record>, i: nat)
    requires i < |fss|
    ensures NfsRecords(api, fss[..i + 1]) == NfsRecords(api, fss[..i]) +
              match First(CallWith(api.fileSystemPerformance, Attr(fss[i], "name"))) case Ok(p) => [p] case Err(_) => []
  {
    assert fss[..i + 1][..i] == fss[..i];
  }

  lemma {:induction false} BucketRecordsStep(api: FbApi, bs: seq<Record>, i: nat)
    requires i < |bs| && BucketRecords(api, bs[..i]).failed.None?
    ensures BucketRecords(api, bs[..i + 1]) ==
              match First(CallWith(api.bucketPerformance, Attr(bs[i], "name")))
              case Err(f) => Gathered(BucketRecords(api, bs[..i]).items, Some(f))
              case Ok(p) => Gathered(BucketRecords(api, bs[..i]).items + [p], None)
  {
    assert bs[..i + 1][..i] == bs[..i];
  }

  /** Once a bucket call has failed, the rest of the buckets change nothing. */
  lemma {:induction false} BucketRecordsStop(api: FbApi, bs: seq<Record>, k: nat)
    requires k <= |bs| && BucketRecords(api, bs[..k]).failed.Some?
    ensures BucketRecords(api, bs) == BucketRecords(api, bs[..k])
    decreases |bs|
  {
    if k < |bs| {
      assert bs[..|bs| - 1][..k] == bs[..k];
      BucketRecordsStop(api, bs[..|bs| - 1], k);
    } else {
      assert bs[..k] == bs;
    }
  }

  /** Once a usage call has failed, the rest of the filesystems change nothing. */
  lemma {:induction false} UsageRecordsStop(calls: map<Value, Reply<seq<Record>>>, fss: seq<Record>, k: nat)
    requires k <= |fss| && UsageRecords(calls, fss[..k]).failed.Some?
    ensures UsageRecords(calls, fss) == UsageRecords(calls, fss[..k])
    decreases |fss|
  {
    if k < |fss| {
      assert fss[..|fss| - 1][..k] == fss[..k];
      UsageRecordsStop(calls, fss[..|fss| - 1], k);
    } else {
      assert fss[..k] == fss;
    }
  }

  /** The NFS records of two runs of filesystems are those of the first run, then the second's. */
  lemma {:induction false} NfsRecordsAppend(api: FbApi, a: seq<Record>, b: seq<Record>)
    ensures NfsRecords(api, a + b) == NfsRecords(api, a) + NfsRecords(api, b)
    decreases |b|
  {
    if |b| == 0 {
      assert a + b == a;
    } else {
      var n := |b| - 1;
      assert (a + b)[..|a + b| - 1] == a + b[..n];
      assert (a + b)[|a + b| - 1] == b[n];
      NfsRecordsAppend(api, a, b[..n]);
    }
  }

  /** A filesystem whose call fails is simply missing from the NFS records. */
  lemma {:induction false} NfsRecordsSkipFailure(api: FbApi, fss: seq<Record>, i: nat)
    requires i < |fss| && First(CallWith(api.fileSystemPerformance, Attr(fss[i], "name"))).Err?
    ensures NfsRecords(api, fss) == NfsRecords(api, fss[..i]) + NfsRecords(api, fss[i + 1..])
  {
    var front := fss[..i] + [fss[i]];
    assert fss == front + fss[i + 1..];
    NfsRecordsAppend(api, front, fss[i + 1..]);
    NfsRecordsAppend(api, fss[..i], [fss[i]]);
    assert [fss[i]][..0] == [];
    assert NfsRecords(api, [fss[i]]) == NfsRecords(api, []) + [];
    assert NfsRecords(api, front) == NfsRecords(api, fss[..i]);
  }

  /** When every filesystem's call succeeds, the NFS records are their first records, one per
    * filesystem, in filesystem order. */
  lemma {:induction false} NfsRecordsAllAnswered(api: FbApi, fss: seq<Record>)
    requires forall i :: 0 <= i < |fss| ==> First(CallWith(api.fileSystemPerformance, Attr(fss[i], "name"))).Ok?
    ensures |NfsRecords(api, fss)| == |fss|
    ensures forall i :: 0 <= i < |fss| ==>
              NfsRecords(api, fss)[i] == First(CallWith(api.fileSystemPerformance, Attr(fss[i], "name"))).value
  {
    if |fss| > 0 {
      NfsRecordsAllAnswered(api, fss[..|fss| - 1]);
    }
  }

  /** The bucket loop completes exactly when every bucket's call succeeds, and then holds one
    * record per bucket, in bucket order. */
  lemma {:induction false} BucketRecordsComplete(api: FbApi, bs: seq<Record>)
    ensures BucketRecords(api, bs).failed.None? <==>
              forall i :: 0 <= i < |bs| ==> First(CallWith(api.bucketPerformance, Attr(bs[i], "name"))).Ok?
    ensures BucketRecords(api, bs).failed.None? ==>
              |BucketRecords(api, bs).items| == |bs| &&
              forall i :: 0 <= i < |bs| ==>
                BucketRecords(api, bs).items[i] == First(CallWith(api.bucketPerformance, Attr(bs[i], "name"))).value
  {
    if |bs| > 0 {
      var n := |bs| - 1;
      BucketRecordsComplete(api, bs[..n]);
      assert forall i :: 0 <= i < n ==> bs[..n][i] == bs[i];
    }
  }

  /** The usage of two runs of filesystems: the first run's records, then, if it completed,
    * the second run's, with the second run's failure. */
  lemma {:induction false} UsageRecordsAppend(calls: map<Value, Reply<seq<Record>>>, a: seq<Record>, b: seq<Record>)
    ensures UsageRecords(calls, a + b) ==
              if UsageRecords(calls, a).failed.Some? then UsageRecords(calls, a)
              else Gathered(UsageRecords(calls, a).items + UsageRecords(calls, b).items, UsageRecords(calls, b).failed)
    decreases |b|
  {
    if |b| == 0 {
      assert a + b == a;
      assert UsageRecords(calls, a).items + [] == UsageRecords(calls, a).items;
    } else {
      var n := |b| - 1;
      assert (a + b)[..|a + b| - 1] == a + b[..n];
      assert (a + b)[|a + b| - 1] == b[n];
      UsageRecordsAppend(calls, a, b[..n]);
      var front, back := UsageRecords(calls, a), UsageRecords(calls, b[..n]);
      if front.failed.None? && back.failed.None? {
        var us := Listing(CallWith(calls, Attr(b[n], "name")));
        if us.Ok? {
          assert front.items + back.items + us.value == front.items + (back.items + us.value);
        }
      }
    }
  }

  /** A filesystem without usage records adds nothing to the concatenation. */
  lemma {:induction false} UsageSkipsEmpty(calls: map<Value, Reply<seq<Record>>>, a: seq<Record>, f: Record)
    requires CallWith(calls, Attr(f, "name")) == Answered([])
    ensures UsageRecords(calls, a + [f]) == UsageRecords(calls, a)
  {
    assert (a + [f])[..|a|] == a;
    if UsageRecords(calls, a).failed.None? {
      assert UsageRecords(calls, a).items + [] == UsageRecords(calls, a).items;
    }
  }
}
