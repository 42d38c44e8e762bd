/** The FlashArray data source: one REST session per scrape, whose entity lists are
  * assembled by merging several listings by entity name and cached after the first
  * call. The REST session itself is modelled by the replies it gives (`FaApi`). */
module FaSource {
  import opened Records

  /** The WWN prefix every FlashArray volume's NAA identifier starts with. */
  const PureNaa: string := "naa.624a9370"

  /** What the REST session answers, call by call. Each `...Subsets` list holds the seven
    * subset listings in the order the data source asks for them: monitor, monitor
    * mirrored, monitor latency, monitor latency mirrored, monitor size, monitor size
    * mirrored, space. */
  datatype FaApi = FaApi(
    arrayIdentity: Reply<Record>,
    arraySubsets: seq<Reply<seq<Record>>>,
    volumeListing: Reply<seq<Record>>,
    endpointListing: Reply<seq<Record>>,
    volumeSubsets: seq<Reply<seq<Record>>>,
    hostListing: Reply<seq<Record>>,
    hostSubsets: seq<Reply<seq<Record>>>,
    podListing: Reply<seq<Record>>,
    podSubsets: seq<Reply<seq<Record>>>,
    openAlerts: Reply<seq<Record>>,
    hardware: Reply<seq<Record>>)

  // ---------------------------------------------------------------- the name-keyed dictionary

  /** A Python dict from entity name to record: keys in first-insertion order. */
  datatype NameIndex = NameIndex(order: seq<Value>, byName: map<Value, Record>)

  /** Keys are unique, the order lists exactly the keys, and each record carries its own name. */
  ghost predicate Wf(idx: NameIndex)
  {
    (forall i, j :: 0 <= i < j < |idx.order| ==> idx.order[i] != idx.order[j]) &&
    (forall n :: n in idx.byName <==> n in idx.order) &&
    (forall n :: n in idx.byName ==> "name" in idx.byName[n] && idx.byName[n]["name"] == n)
  }

  const EmptyIndex: NameIndex := NameIndex([], map[])

  /** `d[name] = rec`: a new name goes last, a known name keeps its place and loses its old record. */
  function Put(idx: NameIndex, name: Value, rec: Record): (r: NameIndex)
    requires Wf(idx) && "name" in rec && rec["name"] == name
    ensures Wf(r) && r.byName == idx.byName[name := rec]
    ensures r.order == if name in idx.byName then idx.order else idx.order + [name]
  {
    if name in idx.byName then NameIndex(idx.order, idx.byName[name := rec])
    else NameIndex(idx.order + [name], idx.byName[name := rec])
  }

  /** `d[rec['name']].update(rec)`: the named entity must already be present. */
  function Update(idx: NameIndex, rec: Record): (r: Result<NameIndex>)
    ensures r.Ok? ==> r.value.order == idx.order && r.value.byName.Keys == idx.byName.Keys
    ensures r.Ok? && Wf(idx) ==> Wf(r.value)
  {
    match Subscript(rec, "name")
    case Err(f) => Err(f)
    case Ok(name) =>
      if name !in idx.byName then Err(KeyError(name))
      else Ok(NameIndex(idx.order, idx.byName[name := idx.byName[name] + rec]))
  }

  /** `list(d.values())`. */
  function Values(idx: NameIndex): (vs: seq<Record>)
    requires Wf(idx)
    ensures |vs| == |idx.order|
    ensures forall i :: 0 <= i < |vs| ==> vs[i] == idx.byName[idx.order[i]]
  {
    seq(|idx.order|, i requires 0 <= i < |idx.order| => idx.byName[idx.order[i]])
  }

  // ---------------------------------------------------------------- seeding and merging

  /** How a seed listing's records are prepared before they are stored: hosts and pods as
    * they are, volumes with an NAA id, protocol endpoints also with zeroed space fields. */
  datatype SeedKind = Plain | Identified | Endpoint

  /** `v['naaid'] = PURE_NAA + v['serial']`. */
  function WithNaa(v: Record): (r: Result<Record>)
    ensures r.Ok? <==> "serial" in v && v["serial"].Str?
    ensures r.Ok? ==> r.value == v["naaid" := Str(PureNaa + v["serial"].s)]
  {
    match Subscript(v, "serial")
    case Err(f) => Err(f)
    case Ok(serial) => if serial.Str? then Ok(v["naaid" := Str(PureNaa + serial.s)]) else Err(TypeError)
  }

  function Prepare(v: Record, kind: SeedKind): Result<Record>
  {
    match kind
    case Plain => Ok(v)
    case Identified => WithNaa(v)
    case Endpoint =>
      match WithNaa(v)
      case Err(f) => Err(f)
      case Ok(w) => Ok(w["size" := Num(0)]["volumes" := Num(0)]["snapshots" := Num(0)]
                        ["total" := Num(0)]["data_reduction" := Num(0)])
  }

  /** One seed step: prepare the record, then store it under its name. */
  function SeedOne(idx: NameIndex, v: Record, kind: SeedKind): (r: Result<NameIndex>)
    requires Wf(idx)
    ensures r.Ok? ==> Wf(r.value)
  {
    match Prepare(v, kind)
    case Err(f) => Err(f)
    case Ok(w) =>
      match Subscript(w, "name")
      case Err(f) => Err(f)
      case Ok(name) => Ok(Put(idx, name, w))
  }

  /** A seed loop over a whole listing. */
  function Seed(idx: NameIndex, recs: seq<Record>, kind: SeedKind): (r: Result<NameIndex>)
    requires Wf(idx)
    ensures r.Ok? ==> Wf(r.value)
  {
    if |recs| == 0 then Ok(idx)
    else
      match Seed(idx, recs[..|recs| - 1], kind)
      case Err(f) => Err(f)
      case Ok(j) => SeedOne(j, recs[|recs| - 1], kind)
  }

  /** A merge loop over one subset listing. */
  function MergeListing(idx: NameIndex, recs: seq<Record>): (r: Result<NameIndex>)
    ensures r.Ok? ==> r.value.order == idx.order && r.value.byName.Keys == idx.byName.Keys
    ensures r.Ok? && Wf(idx) ==> Wf(r.value)
  {
    if |recs| == 0 then Ok(idx)
    else
      match MergeListing(idx, recs[..|recs| - 1])
      case Err(f) => Err(f)
      case Ok(j) => Update(j, recs[|recs| - 1])
  }

  /** The merge loops over the subset listings, in call order. */
  function MergeReplies(idx: NameIndex, replies: seq<Reply<seq<Record>>>): (r: Result<NameIndex>)
    ensures r.Ok? ==> r.value.order == idx.order && r.value.byName.Keys == idx.byName.Keys
    ensures r.Ok? && Wf(idx) ==> Wf(r.value)
  {
    if |replies| == 0 then Ok(idx)
    else
      match MergeReplies(idx, replies[..|replies| - 1])
      case Err(f) => Err(f)
      case Ok(j) =>
        match Listing(replies[|replies| - 1])
        case Err(f) => Err(f)
        case Ok(recs) => MergeListing(j, recs)
  }

  function SeedReply(idx: NameIndex, reply: Reply<seq<Record>>, kind: SeedKind): (r: Result<NameIndex>)
    requires Wf(idx)
    ensures r.Ok? ==> Wf(r.value)
  {
    match Listing(reply)
    case Err(f) => Err(f)
    case Ok(recs) => Seed(idx, recs, kind)
  }

  /** What `get_volumes` computes: identity listing, then protocol endpoints, then the subset merges. */
  function MergedVolumes(api: FaApi): Result<seq<Record>>
  {
    match SeedReply(EmptyIndex, api.volumeListing, Identified)
    case Err(f) => Err(f)
    case Ok(i1) =>
      match SeedReply(i1, api.endpointListing, Endpoint)
      case Err(f) => Err(f)
      case Ok(i2) =>
        match MergeReplies(i2, api.volumeSubsets)
        case Err(f) => Err(f)
        case Ok(i3) => Ok(Values(i3))
  }

  /** What `get_hosts` (and, with the pod listings, `get_pods`) computes. */
  function MergedEntities(listing: Reply<seq<Record>>, subsets: seq<Reply<seq<Record>>>): Result<seq<Record>>
  {
    match SeedReply(EmptyIndex, listing, Plain)
    case Err(f) => Err(f)
    case Ok(i1) =>
      match MergeReplies(i1, subsets)
      case Err(f) => Err(f)
      case Ok(i2) => Ok(Values(i2))
  }

  function MergedHosts(api: FaApi): Result<seq<Record>> { MergedEntities(api.hostListing, api.hostSubsets) }
  function MergedPods(api: FaApi): Result<seq<Record>> { MergedEntities(api.podListing, api.podSubsets) }

  /** `get_array`: the identity record updated in place by the first element of each subset
    * listing. Returns the record as far as it got and the failure that stopped it, if any. */
  function ArrayMerge(base: Record, replies: seq<Reply<seq<Record>>>): (Record, Option<Failure>)
  {
    if |replies| == 0 then (base, None)
    else
      var (rec, failed) := ArrayMerge(base, replies[..|replies| - 1]);
      if failed.Some? then (rec, failed)
      else
        match First(replies[|replies| - 1])
        case Err(f) => (rec, Some(f))
        case Ok(a) => (rec + a, None)
  }

  // ---------------------------------------------------------------- the loops

  /** A seed loop (`for v in list_volumes(): ... vdict[v['name']] = v`). */
  method SeedFrom(idx: NameIndex, recs: seq<Record>, kind: SeedKind) returns (r: Result<NameIndex>)
    requires Wf(idx)
    ensures r == Seed(idx, recs, kind)
  {
    var cur := idx;
    var i := 0;
    while i < |recs|
      invariant 0 <= i <= |recs|
      invariant Seed(idx, recs[..i], kind) == Ok(cur)
    {
      SeedNext(idx, recs, kind, i, cur);
      var next := SeedOne(cur, recs[i], kind);
      if next.Err? {
        SeedPrefixFailure(idx, recs, kind, i + 1);
        return Err(next.error);
      }
      cur := next.value;
      i := i + 1;
    }
    assert recs[..i] == recs;
    r := Ok(cur);
  }

  /** One subset merge loop (`for v in list_volumes(action=...): vdict[v['name']].update(v)`). */
  method MergeFromListing(idx: NameIndex, recs: seq<Record>) returns (r: Result<NameIndex>)
    ensures r == MergeListing(idx, recs)
  {
    var cur := idx;
    var i := 0;
    while i < |recs|
      invariant 0 <= i <= |recs|
      invariant MergeListing(idx, recs[..i]) == Ok(cur)
    {
      MergeListingNext(idx, recs, i, cur);
      var u := Update(cur, recs[i]);
      if u.Err? {
        MergeListingPrefixFailure(idx, recs, i + 1);
        return Err(u.error);
      }
      cur := u.value;
      i := i + 1;
    }
    assert recs[..i] == recs;
    r := Ok(cur);
  }

  /** The seven subset merge loops, one after the other. */
  method MergeFrom(idx: NameIndex, replies: seq<Reply<seq<Record>>>) returns (r: Result<NameIndex>)
    ensures r == MergeReplies(idx, replies)
  {
    var cur := idx;
    var k := 0;
    while k < |replies|
      invariant 0 <= k <= |replies|
      invariant MergeReplies(idx, replies[..k]) == Ok(cur)
    {
      assert replies[..k + 1][..k] == replies[..k];
      if replies[k].Raised? {
        MergeRepliesPrefixFailure(idx, replies, k + 1);
        return Err(UpstreamError);
      }
      var next := MergeFromListing(cur, replies[k].data);
      if next.Err? {
        MergeRepliesPrefixFailure(idx, replies, k + 1);
        return Err(next.error);
      }
      cur := next.value;
      k := k + 1;
    }
    assert replies[..k] == replies;
    r := Ok(cur);
  }

  lemma {:induction false} SeedPrefixFailure(idx: NameIndex, recs: seq<Record>, kind: SeedKind, k: nat)
    requires Wf(idx) && k <= |recs| && Seed(idx, recs[..k], kind).Err?
    ensures Seed(idx, recs, kind) == Seed(idx, recs[..k], kind)
    decreases |recs|
  {
    if k < |recs| {
      assert recs[..|recs| - 1][..k] == recs[..k];
      SeedPrefixFailure(idx, recs[..|recs| - 1], kind, k);
    } else {
      assert recs[..k] == recs;
    }
  }

  /** The seed loop's step: the listing up to `i + 1` is the one up to `i` and one store. */
  lemma {:induction false} SeedNext(idx: NameIndex, recs: seq<Record>, kind: SeedKind, i: nat, cur: NameIndex)
    requires Wf(idx) && i < |recs| && Seed(idx, recs[..i], kind) == Ok(cur)
    ensures Wf(cur) && Seed(idx, recs[..i + 1], kind) == SeedOne(cur, recs[i], kind)
  {
    var upto := recs[..i + 1];
    assert upto[..i] == recs[..i] && upto[i] == recs[i];
  }

  /** The merge loop's step: the listing up to `i + 1` is the one up to `i` and one update. */
  lemma {:induction false} MergeListingNext(idx: NameIndex, recs: seq<Record>, i: nat, cur: NameIndex)
    requires i < |recs| && MergeListing(idx, recs[..i]) == Ok(cur)
    ensures MergeListing(idx, recs[..i + 1]) == Update(cur, recs[i])
  {
    var upto := recs[..i + 1];
    assert upto[..i] == recs[..i] && upto[i] == recs[i];
    var m := MergeListing(idx, upto[..|upto| - 1]);
    assert m == Ok(cur);
  }

  lemma {:induction false} MergeListingPrefixFailure(idx: NameIndex, recs: seq<Record>, k: nat)
    requires k <= |recs| && MergeListing(idx, recs[..k]).Err?
    ensures MergeListing(idx, recs) == MergeListing(idx, recs[..k])
    decreases |recs|
  {
    if k < |recs| {
      assert recs[..|recs| - 1][..k] == recs[..k];
      MergeListingPrefixFailure(idx, recs[..|recs| - 1], k);
    } else {
      assert recs[..k] == recs;
    }
  }

  lemma {:induction false} MergeRepliesPrefixFailure(idx: NameIndex, replies: seq<Reply<seq<Record>>>, k: nat)
    requires k <= |replies| && MergeReplies(idx, replies[..k]).Err?
    ensures MergeReplies(idx, replies) == MergeReplies(idx, replies[..k])
    decreases |replies|
  {
    if k < |replies| {
      assert replies[..|replies| - 1][..k] == replies[..k];
      MergeRepliesPrefixFailure(idx, replies[..|replies| - 1], k);
    } else {
      assert replies[..k] == replies;
    }
  }

  // ---------------------------------------------------------------- the data source object

  /** What `get_array` returns given the cache it starts from. */
  function ArrayResult(api: FaApi, cached: Option<Record>): Result<Record>
  {
    if cached.Some? then Ok(cached.value)
    else if api.arrayIdentity.Raised? then Err(UpstreamError)
    else
      var (rec, failed) := ArrayMerge(api.arrayIdentity.data, api.arraySubsets);
      if failed.Some? then Err(failed.value) else Ok(rec)
  }

  class FlashArray {
    const api: FaApi
    var arrayRecord: Option<Record>
    var volumes: Option<seq<Record>>
    var hosts: Option<seq<Record>>
    var pods: Option<seq<Record>>
    /** Number of REST calls issued so far. */
    ghost var fetches: nat

    /** Every cache holds what its listings produce. The array cache is set as soon as the
      * identity record arrives and keeps the updates applied before a failure. */
    ghost predicate Valid()
      reads this
    {
      (arrayRecord.Some? ==>
         api.arrayIdentity.Answered? && arrayRecord.value == ArrayMerge(api.arrayIdentity.data, api.arraySubsets).0) &&
      (volumes.Some? ==> MergedVolumes(api) == Ok(volumes.value)) &&
      (hosts.Some? ==> MergedHosts(api) == Ok(hosts.value)) &&
      (pods.Some? ==> MergedPods(api) == Ok(pods.value))
    }

    constructor (api: FaApi)
      ensures Valid() && this.api == api
      ensures arrayRecord == None && volumes == None && hosts == None && pods == None && fetches == 0
    {
      this.api := api;
      arrayRecord, volumes, hosts, pods := None, None, None, None;
      fetches := 0;
    }

    /** `get_array`: the cached record if there is one, otherwise the identity record
      * merged with the seven subset records. */
    method GetArray() returns (r: Result<Record>)
      requires Valid()
      modifies this`arrayRecord, this`fetches
      ensures Valid()
      ensures old(arrayRecord).Some? ==> r == Ok(old(arrayRecord).value) && arrayRecord == old(arrayRecord) && fetches == old(fetches)
      ensures old(arrayRecord).None? && api.arrayIdentity.Raised? ==> r == Err(UpstreamError) && arrayRecord == None
      ensures old(arrayRecord).None? && api.arrayIdentity.Answered? ==>
                var (rec, failed) := ArrayMerge(api.arrayIdentity.data, api.arraySubsets);
                arrayRecord == Some(rec) && r == (if failed.Some? then Err(failed.value) else Ok(rec))
      ensures r.Ok? ==> arrayRecord == Some(r.value)
      ensures r == ArrayResult(api, old(arrayRecord))
    {
      if arrayRecord.Some? {
        return Ok(arrayRecord.value);
      }
      fetches := fetches + 1;
      if api.arrayIdentity.Raised? {
        return Err(UpstreamError);
      }
      r := MergeSubsets();
    }

    /** The loop of `get_array` after the identity call: one subset call after another,
      * each merged into the cached record as soon as it answers. */
    method MergeSubsets() returns (r: Result<Record>)
      requires api.arrayIdentity.Answered?
      modifies this`arrayRecord, this`fetches
      ensures var (rec, failed) := ArrayMerge(api.arrayIdentity.data, api.arraySubsets);
              arrayRecord == Some(rec) && r == (if failed.Some? then Err(failed.value) else Ok(rec))
    {
      arrayRecord := Some(api.arrayIdentity.data);
      var k := 0;
      while k < |api.arraySubsets|
        invariant 0 <= k <= |api.arraySubsets|
        invariant arrayRecord.Some?
        invariant ArrayMerge(api.arrayIdentity.data, api.arraySubsets[..k]) == (arrayRecord.value, None)
      {
        assert api.arraySubsets[..k + 1][..k] == api.arraySubsets[..k];
        fetches := fetches + 1;
        var a := First(api.arraySubsets[k]);
        if a.Err? {
          ArrayMergeStops(api.arrayIdentity.data, api.arraySubsets, k + 1);
          return Err(a.error);
        }
        arrayRecord := Some(arrayRecord.value + a.value);
        k := k + 1;
      }
      assert api.arraySubsets[..k] == api.arraySubsets;
      r := Ok(arrayRecord.value);
    }

    /** `get_array_elem`: `None` when the merged array record lacks the key, its value otherwise. */
    method GetArrayElem(elem: string) returns (r: Result<Value>)
      requires Valid()
      modifies this`arrayRecord, this`fetches
      ensures Valid()
      ensures r.Ok? ==> arrayRecord.Some? && r.value == (if elem in arrayRecord.value then arrayRecord.value[elem] else Null)
      ensures r.Err? ==> old(arrayRecord).None?
      ensures r.Ok? <==> ArrayResult(api, old(arrayRecord)).Ok?
      ensures r.Err? ==> r.error == ArrayResult(api, old(arrayRecord)).error
      ensures r.Ok? ==> arrayRecord == Some(ArrayResult(api, old(arrayRecord)).value)
    {
      var a := GetArray();
      if a.Err? {
        return Err(a.error);
      }
      if elem !in a.value {
        return Ok(Null);
      }
      r := Ok(a.value[elem]);
    }

    /** `get_open_alerts`: passed through, not cached. */
    method GetOpenAlerts() returns (r: Result<seq<Record>>)
      modifies this`fetches
      ensures r == Listing(api.openAlerts)
    {
      fetches := fetches + 1;
      r := Listing(api.openAlerts);
    }

    /** `get_hardware_status`: passed through, not cached. */
    method GetHardwareStatus() returns (r: Result<seq<Record>>)
      modifies this`fetches
      ensures r == Listing(api.hardware)
    {
      fetches := fetches + 1;
      r := Listing(api.hardware);
    }

    /** `get_volumes`: the cached list, or the identity and protocol-endpoint listings merged
      * with the seven subset listings; cached only when every step succeeded. */
    method GetVolumes() returns (r: Result<seq<Record>>)
      requires Valid()
      modifies this`volumes, this`fetches
      ensures Valid()
      ensures r == MergedVolumes(api)
      ensures r.Ok? ==> volumes == Some(r.value)
      ensures r.Err? ==> volumes == old(volumes)
      ensures old(volumes).Some? ==> fetches == old(fetches)
    {
      if volumes.Some? {
        return Ok(volumes.value);
      }
      fetches := fetches + 2 + |api.volumeSubsets|;
      var listing := Listing(api.volumeListing);
      if listing.Err? {
        return Err(listing.error);
      }
      var i1 := SeedFrom(EmptyIndex, listing.value, Identified);
      if i1.Err? {
        return Err(i1.error);
      }
      var endpoints := Listing(api.endpointListing);
      if endpoints.Err? {
        return Err(endpoints.error);
      }
      var i2 := SeedFrom(i1.value, endpoints.value, Endpoint);
      if i2.Err? {
        return Err(i2.error);
      }
      var i3 := MergeFrom(i2.value, api.volumeSubsets);
      if i3.Err? {
        return Err(i3.error);
      }
      volumes := Some(Values(i3.value));
      r := Ok(Values(i3.value));
    }

    /** `get_hosts`: the cached list, or the host listing merged with its seven subset listings. */
    method GetHosts() returns (r: Result<seq<Record>>)
      requires Valid()
      modifies this`hosts, this`fetches
      ensures Valid()
      ensures r == MergedHosts(api)
      ensures r.Ok? ==> hosts == Some(r.value)
      ensures r.Err? ==> hosts == old(hosts)
      ensures old(hosts).Some? ==> fetches == old(fetches)
    {
      if hosts.Some? {
        return Ok(hosts.value);
      }
      fetches := fetches + 1 + |api.hostSubsets|;
      r := MergeEntities(api.hostListing, api.hostSubsets);
      if r.Ok? {
        hosts := Some(r.value);
      }
    }

    /** `get_pods`: the cached list, or the pod listing merged with its seven subset listings. */
    method GetPods() returns (r: Result<seq<Record>>)
      requires Valid()
      modifies this`pods, this`fetches
      ensures Valid()
      ensures r == MergedPods(api)
      ensures r.Ok? ==> pods == Some(r.value)
      ensures r.Err? ==> pods == old(pods)
      ensures old(pods).Some? ==> fetches == old(fetches)
    {
      if pods.Some? {
        return Ok(pods.value);
      }
      fetches := fetches + 1 + |api.podSubsets|;
      r := MergeEntities(api.podListing, api.podSubsets);
      if r.Ok? {
        pods := Some(r.value);
      }
    }
  }

  /** The body shared by `get_hosts` and `get_pods`. */
  method MergeEntities(listing: Reply<seq<Record>>, subsets: seq<Reply<seq<Record>>>) returns (r: Result<seq<Record>>)
    ensures r == MergedEntities(listing, subsets)
  {
    var recs := Listing(listing);
    if recs.Err? {
      return Err(recs.error);
    }
    var i1 := SeedFrom(EmptyIndex, recs.value, Plain);
    if i1.Err? {
      return Err(i1.error);
    }
    var i2 := MergeFrom(i1.value, subsets);
    if i2.Err? {
      return Err(i2.error);
    }
    r := Ok(Values(i2.value));
  }

  lemma {:induction false} ArrayMergeStops(base: Record, replies: seq<Reply<seq<Record>>>, k: nat)
    requires k <= |replies| && ArrayMerge(base, replies[..k]).1.Some?
    ensures ArrayMerge(base, replies) == ArrayMerge(base, replies[..k])
    decreases |replies|
  {
    if k < |replies| {
      assert replies[..|replies| - 1][..k] == replies[..k];
      ArrayMergeStops(base, replies[..|replies| - 1], k);
    } else {
      assert replies[..k] == replies;
    }
  }

  // ---------------------------------------------------------------- properties of the merge

  /** `dict.update`: a subset record overwrites exactly its own keys of the entity it names;
    * every other key of that entity, and every other entity, is unchanged. It fails
    * exactly when the record has no name or names an entity the seed listings lacked. */
  lemma {:induction false} UpdateOverwritesOnlyItsKeys(idx: NameIndex, rec: Record)
    requires Wf(idx)
    ensures Update(idx, rec).Err? <==> "name" !in rec || rec["name"] !in idx.byName
    ensures Update(idx, rec).Ok? ==>
              var n, after := rec["name"], Update(idx, rec).value.byName;
              after[n].Keys == idx.byName[n].Keys + rec.Keys &&
              (forall k :: k in rec ==> after[n][k] == rec[k]) &&
              (forall k :: k in idx.byName[n] && k !in rec ==> after[n][k] == idx.byName[n][k]) &&
              (forall m :: m in idx.byName && m != n ==> after[m] == idx.byName[m])
  {
  }

  /** All records of a listing that name `n`, folded with `update` in listing order. */
  function Combined(recs: seq<Record>, n: Value): Record
  {
    if |recs| == 0 then map[] else Combined(recs[..|recs| - 1], n) + Pick(recs[|recs| - 1], n)
  }

  /** The record itself if it names `n`, nothing otherwise. */
  function Pick(rec: Record, n: Value): Record
  {
    if "name" in rec && rec["name"] == n then rec else map[]
  }

  lemma {:induction false} UpdateAsPick(j: NameIndex, rec: Record)
    requires Wf(j) && Update(j, rec).Ok?
    ensures forall n :: n in j.byName ==> Update(j, rec).value.byName[n] == j.byName[n] + Pick(rec, n)
  {
    forall n | n in j.byName ensures Update(j, rec).value.byName[n] == j.byName[n] + Pick(rec, n) {
      if n != rec["name"] {
        assert j.byName[n] + map[] == j.byName[n];
      }
    }
  }

  /** Every record of the listing names an entity of the index. */
  ghost predicate AllKnown(idx: NameIndex, recs: seq<Record>)
  {
    forall i :: 0 <= i < |recs| ==> "name" in recs[i] && recs[i]["name"] in idx.byName
  }

  lemma {:induction false} UnionAssoc(a: Record, b: Record, c: Record)
    ensures (a + b) + c == a + (b + c)
  {
    assert forall k :: k in (a + b) + c <==> k in a + (b + c);
  }

  lemma {:induction false} UnionRepeat(a: Record, b: Record)
    ensures (a + b) + b == a + b
  {
    assert forall k :: k in (a + b) + b <==> k in a + b;
  }

  lemma {:induction false} AllKnownSplit(idx: NameIndex, recs: seq<Record>)
    requires |recs| > 0
    ensures AllKnown(idx, recs) <==>
              AllKnown(idx, recs[..|recs| - 1]) && "name" in recs[|recs| - 1] && recs[|recs| - 1]["name"] in idx.byName
  {
    var init := recs[..|recs| - 1];
    if AllKnown(idx, recs) {
      forall i | 0 <= i < |init| ensures "name" in init[i] && init[i]["name"] in idx.byName {
        assert init[i] == recs[i];
      }
    }
    if AllKnown(idx, init) && "name" in recs[|recs| - 1] && recs[|recs| - 1]["name"] in idx.byName {
      forall i | 0 <= i < |recs| ensures "name" in recs[i] && recs[i]["name"] in idx.byName {
        if i < |init| {
          assert recs[i] == init[i];
        }
      }
    }
  }

  /** A merge loop succeeds exactly when every record names a known entity. */
  lemma {:induction false} MergeListingSucceeds(idx: NameIndex, recs: seq<Record>)
    requires Wf(idx)
    ensures MergeListing(idx, recs).Ok? <==> AllKnown(idx, recs)
  {
    if |recs| > 0 {
      var init, last := recs[..|recs| - 1], recs[|recs| - 1];
      MergeListingSucceeds(idx, init);
      if MergeListing(idx, init).Ok? {
        var j := MergeListing(idx, init).value;
        assert j.byName.Keys == idx.byName.Keys;
        assert Update(j, last).Ok? <==> "name" in last && last["name"] in idx.byName;
      }
      AllKnownSplit(idx, recs);
    }
  }

  /** After a merge loop each entity's record is its seed record updated with the union of
    * the subset records that name it; the order of entities is unchanged. */
  lemma {:induction false} MergeListingPerEntity(idx: NameIndex, recs: seq<Record>)
    requires Wf(idx) && MergeListing(idx, recs).Ok?
    ensures MergeListing(idx, recs).value.order == idx.order
    ensures forall n :: n in idx.byName ==> MergeListing(idx, recs).value.byName[n] == idx.byName[n] + Combined(recs, n)
  {
    if |recs| > 0 {
      var init, last := recs[..|recs| - 1], recs[|recs| - 1];
      MergeListingPerEntity(idx, init);
      var j := MergeListing(idx, init).value;
      UpdateAsPick(j, last);
      forall n | n in idx.byName
        ensures MergeListing(idx, recs).value.byName[n] == idx.byName[n] + Combined(recs, n)
      {
        UnionAssoc(idx.byName[n], Combined(init, n), Pick(last, n));
      }
    }
  }

  /** A listing that merged once merges again: the names are still all known. */
  lemma {:induction false} MergeListingAgain(idx: NameIndex, recs: seq<Record>)
    requires Wf(idx) && MergeListing(idx, recs).Ok?
    ensures Wf(MergeListing(idx, recs).value) && MergeListing(MergeListing(idx, recs).value, recs).Ok?
  {
    MergeListingSucceeds(idx, recs);
    MergeListingSucceeds(MergeListing(idx, recs).value, recs);
  }

  /** Running the same subset listing twice merges to the same entities as running it once. */
  lemma {:induction false} MergeListingIdempotent(idx: NameIndex, recs: seq<Record>)
    requires Wf(idx) && MergeListing(idx, recs).Ok?
    ensures MergeListing(MergeListing(idx, recs).value, recs) == MergeListing(idx, recs)
  {
    var once := MergeListing(idx, recs).value;
    MergeListingAgain(idx, recs);
    MergeListingPerEntity(idx, recs);
    MergeListingPerEntity(once, recs);
    var twice := MergeListing(once, recs).value;
    forall n | n in idx.byName ensures twice.byName[n] == once.byName[n] {
      UnionRepeat(idx.byName[n], Combined(recs, n));
    }
    assert twice.byName == once.byName;
  }

  /** The names of a listing, read as the loop reads them. */
  function NamesOf(recs: seq<Record>): (ns: seq<Value>)
    ensures |ns| == |recs| && forall i :: 0 <= i < |recs| ==> ns[i] == Attr(recs[i], "name")
  {
    if |recs| == 0 then [] else NamesOf(recs[..|recs| - 1]) + [Attr(recs[|recs| - 1], "name")]
  }

  /** The names of `ns` not already in `order`, appended in order of first occurrence. */
  function AppendNew(order: seq<Value>, ns: seq<Value>): seq<Value>
  {
    if |ns| == 0 then order
    else
      var front := AppendNew(order, ns[..|ns| - 1]);
      if ns[|ns| - 1] in front then front else front + [ns[|ns| - 1]]
  }

  /** Each name once, in order of first occurrence. */
  function Dedup(ns: seq<Value>): seq<Value> { AppendNew([], ns) }

  lemma {:induction false} AppendNewMembers(order: seq<Value>, ns: seq<Value>)
    ensures forall x :: x in AppendNew(order, ns) <==> x in order || x in ns
  {
    if |ns| > 0 {
      AppendNewMembers(order, ns[..|ns| - 1]);
      assert ns == ns[..|ns| - 1] + [ns[|ns| - 1]];
    }
  }

  lemma {:induction false} AppendNewConcat(order: seq<Value>, a: seq<Value>, b: seq<Value>)
    ensures AppendNew(order, a + b) == AppendNew(AppendNew(order, a), b)
  {
    if |b| == 0 {
      assert a + b == a;
    } else {
      assert (a + b)[..|a + b| - 1] == a + b[..|b| - 1];
      AppendNewConcat(order, a, b[..|b| - 1]);
    }
  }

  lemma {:induction false} PrepareKeepsName(v: Record, kind: SeedKind)
    requires Prepare(v, kind).Ok?
    ensures ("name" in Prepare(v, kind).value <==> "name" in v)
    ensures "name" in v ==> Prepare(v, kind).value["name"] == v["name"]
  {
  }

  /** Seeding stores the records under their names in order of first occurrence; a later
    * record of the same name takes the earlier one's place. */
  lemma {:induction false} SeedOrder(idx: NameIndex, recs: seq<Record>, kind: SeedKind)
    requires Wf(idx) && Seed(idx, recs, kind).Ok?
    ensures Seed(idx, recs, kind).value.order == AppendNew(idx.order, NamesOf(recs))
  {
    if |recs| > 0 {
      var init, last := recs[..|recs| - 1], recs[|recs| - 1];
      SeedOrder(idx, init, kind);
      assert NamesOf(recs)[..|recs| - 1] == NamesOf(init);
      var j := Seed(idx, init, kind).value;
      PrepareKeepsName(last, kind);
      var w := Prepare(last, kind).value;
      assert Attr(last, "name") == w["name"];
      assert Seed(idx, recs, kind).value == Put(j, w["name"], w);
      assert w["name"] in j.byName <==> w["name"] in j.order;
    }
  }

  /** The names of the entities a merged list holds. */
  function EntityNames(vs: seq<Record>): seq<Value> { NamesOf(vs) }

  lemma {:induction false} ValuesNames(idx: NameIndex)
    requires Wf(idx)
    ensures EntityNames(Values(idx)) == idx.order
  {
  }

  /** `get_volumes` returns one record per distinct name of the identity and protocol-endpoint
    * listings, in order of first appearance, each record carrying its own name. */
  lemma {:induction false} MergedVolumesOrder(api: FaApi)
    requires MergedVolumes(api).Ok?
    ensures api.volumeListing.Answered? && api.endpointListing.Answered?
    ensures EntityNames(MergedVolumes(api).value) == Dedup(NamesOf(api.volumeListing.data) + NamesOf(api.endpointListing.data))
  {
    var i1 := SeedReply(EmptyIndex, api.volumeListing, Identified).value;
    var i2 := SeedReply(i1, api.endpointListing, Endpoint).value;
    var i3 := MergeReplies(i2, api.volumeSubsets).value;
    SeedOrder(EmptyIndex, api.volumeListing.data, Identified);
    SeedOrder(i1, api.endpointListing.data, Endpoint);
    AppendNewConcat([], NamesOf(api.volumeListing.data), NamesOf(api.endpointListing.data));
    ValuesNames(i3);
  }

  /** The record stored for a protocol endpoint is built from that endpoint alone: whatever
    * the index held under its name is dropped, and its space fields read 0. */
  lemma {:induction false} EndpointReplacesWholesale(idx: NameIndex, v: Record)
    requires Wf(idx) && SeedOne(idx, v, Endpoint).Ok?
    ensures var stored := SeedOne(idx, v, Endpoint).value.byName[v["name"]];
            stored.Keys == v.Keys + {"naaid", "size", "volumes", "snapshots", "total", "data_reduction"} &&
            stored["size"] == Num(0) && stored["volumes"] == Num(0) && stored["snapshots"] == Num(0) &&
            stored["total"] == Num(0) && stored["data_reduction"] == Num(0) &&
            stored["naaid"] == Str(PureNaa + v["serial"].s) &&
            forall k :: k in v && k !in {"naaid", "size", "volumes", "snapshots", "total", "data_reduction"} ==> stored[k] == v[k]
  {
  }

  /** A volume record carries its NAA id: the fixed prefix followed by its serial. */
  predicate HasNaa(v: Record)
  {
    "serial" in v && v["serial"].Str? && "naaid" in v && v["naaid"] == Str(PureNaa + v["serial"].s)
  }

  /** Every volume record of the index carries its NAA id. */
  ghost predicate NaaConsistent(idx: NameIndex)
  {
    forall n :: n in idx.byName ==> HasNaa(idx.byName[n])
  }

  /** No record of the listings carries `key`. */
  ghost predicate NoneCarries(replies: seq<Reply<seq<Record>>>, key: string)
  {
    forall k, i :: 0 <= k < |replies| && replies[k].Answered? && 0 <= i < |replies[k].data| ==> key !in replies[k].data[i]
  }

  lemma {:induction false} SeedKeepsNaa(idx: NameIndex, recs: seq<Record>, kind: SeedKind)
    requires Wf(idx) && NaaConsistent(idx) && kind != Plain && Seed(idx, recs, kind).Ok?
    ensures NaaConsistent(Seed(idx, recs, kind).value)
  {
    if |recs| > 0 {
      SeedKeepsNaa(idx, recs[..|recs| - 1], kind);
      SeedOneKeepsNaa(Seed(idx, recs[..|recs| - 1], kind).value, recs[|recs| - 1], kind);
    }
  }

  lemma {:induction false} SeedOneKeepsNaa(idx: NameIndex, v: Record, kind: SeedKind)
    requires Wf(idx) && NaaConsistent(idx) && kind != Plain && SeedOne(idx, v, kind).Ok?
    ensures NaaConsistent(SeedOne(idx, v, kind).value)
  {
    var w := Prepare(v, kind).value;
    assert HasNaa(w);
  }

  lemma {:induction false} MergeListingKeepsNaa(idx: NameIndex, recs: seq<Record>)
    requires NaaConsistent(idx) && MergeListing(idx, recs).Ok?
    requires forall i :: 0 <= i < |recs| ==> "naaid" !in recs[i] && "serial" !in recs[i]
    ensures NaaConsistent(MergeListing(idx, recs).value)
  {
    if |recs| > 0 {
      MergeListingKeepsNaa(idx, recs[..|recs| - 1]);
      UpdateKeepsNaa(MergeListing(idx, recs[..|recs| - 1]).value, recs[|recs| - 1]);
    }
  }

  lemma {:induction false} UpdateKeepsNaa(idx: NameIndex, rec: Record)
    requires NaaConsistent(idx) && Update(idx, rec).Ok?
    requires "naaid" !in rec && "serial" !in rec
    ensures NaaConsistent(Update(idx, rec).value)
  {
    var name := rec["name"];
    var merged := idx.byName[name] + rec;
    assert merged["serial"] == idx.byName[name]["serial"] && merged["naaid"] == idx.byName[name]["naaid"];
    assert HasNaa(merged);
  }

  lemma {:induction false} MergeRepliesKeepsNaa(idx: NameIndex, replies: seq<Reply<seq<Record>>>)
    requires NaaConsistent(idx) && MergeReplies(idx, replies).Ok?
    requires NoneCarries(replies, "naaid") && NoneCarries(replies, "serial")
    ensures NaaConsistent(MergeReplies(idx, replies).value)
  {
    if |replies| > 0 {
      var init := replies[..|replies| - 1];
      assert forall k :: 0 <= k < |init| ==> init[k] == replies[k];
      MergeRepliesKeepsNaa(idx, init);
      var last := replies[|replies| - 1];
      assert forall i :: 0 <= i < |last.data| ==> "naaid" !in last.data[i] && "serial" !in last.data[i];
      MergeListingKeepsNaa(MergeReplies(idx, init).value, last.data);
    }
  }

  /** Every volume `get_volumes` returns has `naaid` equal to the NAA prefix followed by its
    * serial, provided no subset listing reports `naaid` or `serial` itself. */
  lemma {:induction false} MergedVolumesNaa(api: FaApi)
    requires MergedVolumes(api).Ok?
    requires NoneCarries(api.volumeSubsets, "naaid") && NoneCarries(api.volumeSubsets, "serial")
    ensures forall i :: 0 <= i < |MergedVolumes(api).value| ==>
              var v := MergedVolumes(api).value[i];
              "serial" in v && v["serial"].Str? && "naaid" in v && v["naaid"] == Str(PureNaa + v["serial"].s)
  {
    var i1 := SeedReply(EmptyIndex, api.volumeListing, Identified).value;
    var i2 := SeedReply(i1, api.endpointListing, Endpoint).value;
    SeedKeepsNaa(EmptyIndex, api.volumeListing.data, Identified);
    SeedKeepsNaa(i1, api.endpointListing.data, Endpoint);
    MergeRepliesKeepsNaa(i2, api.volumeSubsets);
  }

  lemma {:induction false} SeedKeys(idx: NameIndex, recs: seq<Record>, kind: SeedKind)
    requires Wf(idx) && Seed(idx, recs, kind).Ok?
    ensures forall n :: n in Seed(idx, recs, kind).value.byName <==> n in idx.byName || n in NamesOf(recs)
  {
    SeedOrder(idx, recs, kind);
    AppendNewMembers(idx.order, NamesOf(recs));
  }

  lemma {:induction false} UnknownNameFailsListing(idx: NameIndex, recs: seq<Record>, i: nat)
    requires Wf(idx) && i < |recs| && "name" in recs[i] && recs[i]["name"] !in idx.byName
    ensures MergeListing(idx, recs).Err?
  {
    MergeListingSucceeds(idx, recs);
  }

  lemma {:induction false} UnknownNameFailsReplies(idx: NameIndex, replies: seq<Reply<seq<Record>>>, k: nat, i: nat)
    requires Wf(idx) && k < |replies| && replies[k].Answered? && i < |replies[k].data|
    requires "name" in replies[k].data[i] && replies[k].data[i]["name"] !in idx.byName
    ensures MergeReplies(idx, replies).Err?
    decreases |replies|
  {
    var init := replies[..|replies| - 1];
    if k < |replies| - 1 {
      assert init[k] == replies[k];
      UnknownNameFailsReplies(idx, init, k, i);
    } else if MergeReplies(idx, init).Ok? {
      UnknownNameFailsListing(MergeReplies(idx, init).value, replies[k].data, i);
    }
  }

  /** A subset record naming a volume that neither the identity nor the protocol-endpoint
    * listing returned makes `get_volumes` fail. */
  lemma {:induction false} UnknownSubsetNameFails(api: FaApi, k: nat, i: nat)
    requires api.volumeListing.Answered? && api.endpointListing.Answered?
    requires k < |api.volumeSubsets| && api.volumeSubsets[k].Answered? && i < |api.volumeSubsets[k].data|
    requires "name" in api.volumeSubsets[k].data[i]
    requires api.volumeSubsets[k].data[i]["name"] !in NamesOf(api.volumeListing.data) + NamesOf(api.endpointListing.data)
    ensures MergedVolumes(api).Err?
  {
    var seeded := SeedReply(EmptyIndex, api.volumeListing, Identified);
    if seeded.Ok? {
      SeedKeys(EmptyIndex, api.volumeListing.data, Identified);
      var i2 := SeedReply(seeded.value, api.endpointListing, Endpoint);
      if i2.Ok? {
        SeedKeys(seeded.value, api.endpointListing.data, Endpoint);
        UnknownNameFailsReplies(i2.value, api.volumeSubsets, k, i);
      }
    }
  }

  /** An upstream failure in any subset listing makes `get_volumes` fail (nothing is skipped). */
  lemma {:induction false} RaisedSubsetFails(api: FaApi, k: nat)
    requires k < |api.volumeSubsets| && api.volumeSubsets[k].Raised?
    ensures MergedVolumes(api).Err?
  {
    var i1 := SeedReply(EmptyIndex, api.volumeListing, Identified);
    if i1.Ok? {
      var i2 := SeedReply(i1.value, api.endpointListing, Endpoint);
      if i2.Ok? {
        RaisedReplyFails(i2.value, api.volumeSubsets, k);
      }
    }
  }

  lemma {:induction false} RaisedReplyFails(idx: NameIndex, replies: seq<Reply<seq<Record>>>, k: nat)
    requires Wf(idx) && k < |replies| && replies[k].Raised?
    ensures MergeReplies(idx, replies).Err?
    decreases |replies|
  {
    var init := replies[..|replies| - 1];
    if k < |replies| - 1 {
      assert init[k] == replies[k];
      RaisedReplyFails(idx, init, k);
    }
  }

  /** When every subset answers, the cached array record holds each key of the last subset
    * record that reports it, and the identity value of every key no subset reports. */
  lemma {:induction false} ArrayMergeLaterWins(base: Record, replies: seq<Reply<seq<Record>>>, key: string)
    requires ArrayMerge(base, replies).1.None?
    ensures forall k :: 0 <= k < |replies| ==> replies[k].Answered? && |replies[k].data| > 0
    ensures |replies| > 0 && key in replies[|replies| - 1].data[0] ==>
              ArrayMerge(base, replies).0[key] == replies[|replies| - 1].data[0][key]
    ensures (forall k :: 0 <= k < |replies| ==> key !in replies[k].data[0]) ==>
              (key in ArrayMerge(base, replies).0 <==> key in base) &&
              (key in base ==> ArrayMerge(base, replies).0[key] == base[key])
  {
    if |replies| > 0 {
      var init := replies[..|replies| - 1];
      ArrayMergeLaterWins(base, init, key);
      assert forall k :: 0 <= k < |init| ==> init[k] == replies[k];
    }
  }

  /** When every subset answers, a key takes the value of the last subset record `j` that
    * reports it, whatever the records after `j` report about other keys. */
  lemma {:induction false} ArrayMergeLastHolder(base: Record, replies: seq<Reply<seq<Record>>>, key: string, j: nat)
    requires ArrayMerge(base, replies).1.None?
    requires j < |replies| && replies[j].Answered? && |replies[j].data| > 0 && key in replies[j].data[0]
    requires forall k :: j < k < |replies| ==> replies[k].Answered? && |replies[k].data| > 0 && key !in replies[k].data[0]
    ensures key in ArrayMerge(base, replies).0
    ensures ArrayMerge(base, replies).0[key] == replies[j].data[0][key]
    decreases |replies|
  {
    var n := |replies| - 1;
    var init := replies[..n];
    assert ArrayMerge(base, replies).0 == ArrayMerge(base, init).0 + replies[n].data[0];
    if j < n {
      assert forall k :: j < k < |init| ==> init[k] == replies[k];
      ArrayMergeLastHolder(base, init, key, j);
    }
  }
}
