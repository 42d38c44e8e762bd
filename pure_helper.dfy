/** The Grafana helper: for one volume, the hosts it is connected to; for one host, the
  * volumes connected to it, each with its serial number. */
module PureHelper {
  import opened Records
  import FbSource

  /** What the FlashArray REST calls of the helper return, by argument. */
  datatype HelperApi = HelperApi(
    privateConnections: map<string, Reply<seq<Record>>>,  // list_volume_private_connections(volume)
    sharedConnections: map<string, Reply<seq<Record>>>,   // list_volume_shared_connections(volume)
    volumes: map<Value, Reply<Record>>,                   // get_volume(name)
    hostConnections: map<string, Reply<seq<Record>>>,     // list_host_connections(host)
    hosts: map<string, Reply<Record>>)                    // get_host(host)

  // ---------------------------------------------------------------- route_vgvolume

  /** The name `route_vgvolume` looks up: the volume group, a slash, the volume. */
  function VgVolumeName(vgroup: string, volume: string): string
  {
    vgroup + "/" + volume
  }

  /** A name cut at its first slash. */
  function SplitAtSlash(name: string): Option<(string, string)>
  {
    if |name| == 0 then None
    else if name[0] == '/' then Some(("", name[1..]))
    else match SplitAtSlash(name[1..])
      case None => None
      case Some(parts) => Some(([name[0]] + parts.0, parts.1))
  }

  /** A path segment never holds a slash, so the joined name gives back the volume group
    * and the volume: two routes never look up the same name. */
  lemma {:induction false} VgVolumeNameSplits(vgroup: string, volume: string)
    requires '/' !in vgroup
    ensures SplitAtSlash(VgVolumeName(vgroup, volume)) == Some((vgroup, volume))
  {
    var name := VgVolumeName(vgroup, volume);
    if |vgroup| == 0 {
      assert name == "/" + volume && name[1..] == volume;
    } else {
      assert name[0] == vgroup[0] && name[1..] == VgVolumeName(vgroup[1..], volume);
      VgVolumeNameSplits(vgroup[1..], volume);
      assert [vgroup[0]] + vgroup[1..] == vgroup;
    }
  }

  /** The joined name identifies both parts. */
  lemma VgVolumeNameInjective(g1: string, v1: string, g2: string, v2: string)
    requires '/' !in g1 && '/' !in g2 && VgVolumeName(g1, v1) == VgVolumeName(g2, v2)
    ensures g1 == g2 && v1 == v2
  {
    VgVolumeNameSplits(g1, v1);
    VgVolumeNameSplits(g2, v2);
  }

  // ---------------------------------------------------------------- building lists

  /** A list built by appending one entry per row, stopped by the first exception. */
  function Each<T>(rows: seq<Record>, f: Record -> Result<T>): (r: Result<seq<T>>)
    ensures r.Ok? ==> |r.value| == |rows|
  {
    if |rows| == 0 then Ok([])
    else match Each(rows[..|rows| - 1], f)
      case Err(e) => Err(e)
      case Ok(a) => match f(rows[|rows| - 1]) case Err(e) => Err(e) case Ok(x) => Ok(a + [x])
  }

  /** The list is built exactly when every row gives an entry, and entry `i` is row `i`'s. */
  lemma {:induction false} EachAt<T>(rows: seq<Record>, f: Record -> Result<T>)
    ensures Each(rows, f).Ok? <==> forall i :: 0 <= i < |rows| ==> f(rows[i]).Ok?
    ensures Each(rows, f).Ok? ==> forall i :: 0 <= i < |rows| ==> Each(rows, f).value[i] == f(rows[i]).value
  {
    if |rows| > 0 {
      var n := |rows| - 1;
      EachAt(rows[..n], f);
      assert forall i :: 0 <= i < n ==> rows[..n][i] == rows[i];
    }
  }

  /** The first row without an entry ends the list with its exception. */
  lemma {:induction false} EachFailsAt<T>(rows: seq<Record>, f: Record -> Result<T>, i: nat)
    requires i < |rows| && Each(rows[..i], f).Ok? && f(rows[i]).Err?
    ensures Each(rows, f) == Err(f(rows[i]).error)
    decreases |rows|
  {
    var n := |rows| - 1;
    if i < n {
      assert rows[..n][..i] == rows[..i];
      assert rows[..n][i] == rows[i];
      EachFailsAt(rows[..n], f, i);
    } else {
      assert rows[..n] == rows[..i];
    }
  }

  // ---------------------------------------------------------------- list_volume_connections

  /** A connection entry: host and LUN of the row, and its host group for a shared
    * connection, `''` for a private one. */
  function HostEntry(h: Record, shared: bool): Result<Record>
  {
    match Subscript(h, "host")
    case Err(e) => Err(e)
    case Ok(host) =>
      match Subscript(h, "lun")
      case Err(e) => Err(e)
      case Ok(lun) =>
        if !shared then Ok(map["host" := host, "lun" := lun, "hgroup" := Str("")])
        else match Subscript(h, "hgroup")
          case Err(e) => Err(e)
          case Ok(hgroup) => Ok(map["host" := host, "lun" := lun, "hgroup" := hgroup])
  }

  function SharedEntry(h: Record): Result<Record>
  {
    HostEntry(h, true)
  }

  function PrivateEntry(h: Record): Result<Record>
  {
    HostEntry(h, false)
  }

  /** `list_volume_connections`: the three calls, shared entries, private entries, then the
    * serial number. */
  function VolumeConnections(api: HelperApi, volume: string): Result<Record>
  {
    match Listing(FbSource.CallWith(api.privateConnections, volume))
    case Err(e) => Err(e)
    case Ok(privateRows) =>
      match Listing(FbSource.CallWith(api.sharedConnections, volume))
      case Err(e) => Err(e)
      case Ok(sharedRows) =>
        match Listing(FbSource.CallWith(api.volumes, Str(volume)))
        case Err(e) => Err(e)
        case Ok(info) =>
          match Each(sharedRows, SharedEntry)
          case Err(e) => Err(e)
          case Ok(shared) =>
            match Each(privateRows, PrivateEntry)
            case Err(e) => Err(e)
            case Ok(private) =>
              match Subscript(info, "serial")
              case Err(e) => Err(e)
              case Ok(serial) => Ok(map["serial" := serial, "hosts" := Items(shared + private)])
  }

  /** The volume result has exactly the keys `serial` and `hosts`; the hosts are the shared
    * connections with their host group, then the private ones with host group `''`. */
  lemma VolumeConnectionsShape(api: HelperApi, volume: string)
    requires VolumeConnections(api, volume).Ok?
    ensures var r := VolumeConnections(api, volume).value;
            var sharedRows := FbSource.CallWith(api.sharedConnections, volume).data;
            var privateRows := FbSource.CallWith(api.privateConnections, volume).data;
            r.Keys == {"serial", "hosts"} &&
            "serial" in FbSource.CallWith(api.volumes, Str(volume)).data &&
            r["serial"] == FbSource.CallWith(api.volumes, Str(volume)).data["serial"] &&
            r["hosts"].Items? && |r["hosts"].items| == |sharedRows| + |privateRows| &&
            (forall i :: 0 <= i < |sharedRows| ==>
              "host" in sharedRows[i] && "lun" in sharedRows[i] && "hgroup" in sharedRows[i] &&
              r["hosts"].items[i] == map["host" := sharedRows[i]["host"], "lun" := sharedRows[i]["lun"], "hgroup" := sharedRows[i]["hgroup"]]) &&
            (forall j :: 0 <= j < |privateRows| ==>
              "host" in privateRows[j] && "lun" in privateRows[j] &&
              r["hosts"].items[|sharedRows| + j] == map["host" := privateRows[j]["host"], "lun" := privateRows[j]["lun"], "hgroup" := Str("")])
  {
    var sharedRows := FbSource.CallWith(api.sharedConnections, volume).data;
    var privateRows := FbSource.CallWith(api.privateConnections, volume).data;
    EachAt(sharedRows, SharedEntry);
    EachAt(privateRows, PrivateEntry);
  }

  /** Entries are appended to `hosts` row by row; the result is `hosts` followed by the rows'
    * entries, or the first exception. */
  method AppendHostEntries(rows: seq<Record>, entry: Record -> Result<Record>, hosts: seq<Record>) returns (r: Result<seq<Record>>)
    ensures Each(rows, entry).Err? ==> r == Err(Each(rows, entry).error)
    ensures Each(rows, entry).Ok? ==> r == Ok(hosts + Each(rows, entry).value)
  {
    var out := hosts;
    for i := 0 to |rows|
      invariant Each(rows[..i], entry).Ok?
      invariant out == hosts + Each(rows[..i], entry).value
    {
      assert rows[..i + 1][..i] == rows[..i];
      var e := entry(rows[i]);
      if e.Err? {
        EachFailsAt(rows, entry, i);
        return Err(e.error);
      }
      out := out + [e.value];
    }
    assert rows[..|rows|] == rows;
    r := Ok(out);
  }

  /** `list_volume_connections`. */
  method ListVolumeConnections(api: HelperApi, volume: string) returns (r: Result<Record>)
    ensures r == VolumeConnections(api, volume)
  {
    var pHosts := Listing(FbSource.CallWith(api.privateConnections, volume));
    if pHosts.Err? {
      return Err(pHosts.error);
    }
    var sHosts := Listing(FbSource.CallWith(api.sharedConnections, volume));
    if sHosts.Err? {
      return Err(sHosts.error);
    }
    var vInfo := Listing(FbSource.CallWith(api.volumes, Str(volume)));
    if vInfo.Err? {
      return Err(vInfo.error);
    }
    var hosts := AppendHostEntries(sHosts.value, SharedEntry, []);
    if hosts.Err? {
      return Err(hosts.error);
    }
    assert hosts.value == [] + Each(sHosts.value, SharedEntry).value == Each(sHosts.value, SharedEntry).value;
    hosts := AppendHostEntries(pHosts.value, PrivateEntry, hosts.value);
    if hosts.Err? {
      return Err(hosts.error);
    }
    var serial := Subscript(vInfo.value, "serial");
    if serial.Err? {
      return Err(serial.error);
    }
    var vol: Record := map[];
    vol := vol["serial" := serial.value];
    vol := vol["hosts" := Items(hosts.value)];
    assert vol == map["serial" := serial.value, "hosts" := Items(hosts.value)];
    r := Ok(vol);
  }

  // ---------------------------------------------------------------- list_host_connections

  /** A volume entry: the volume's name, its LUN and its serial number, `''` when the volume
    * lookup returns an empty record. */
  function VolumeEntry(api: HelperApi, v: Record): Result<Record>
  {
    match Subscript(v, "vol")
    case Err(e) => Err(e)
    case Ok(vol) =>
      match Listing(FbSource.CallWith(api.volumes, vol))
      case Err(e) => Err(e)
      case Ok(info) =>
        match (if info == map[] then Ok(Str("")) else Subscript(info, "serial"))
        case Err(e) => Err(e)
        case Ok(serial) =>
          match Subscript(v, "lun")
          case Err(e) => Err(e)
          case Ok(lun) => Ok(map["volume" := vol, "lun" := lun, "serial" := serial])
  }

  /** `list_host_connections`: the host record with the volume entries under `volumes`. */
  function HostConnections(api: HelperApi, host: string): Result<Record>
  {
    match Listing(FbSource.CallWith(api.hostConnections, host))
    case Err(e) => Err(e)
    case Ok(rows) =>
      match Each(rows, v => VolumeEntry(api, v))
      case Err(e) => Err(e)
      case Ok(vols) =>
        match Listing(FbSource.CallWith(api.hosts, host))
        case Err(e) => Err(e)
        case Ok(info) => Ok(info["volumes" := Items(vols)])
  }

  /** The host result keeps every key of the host record but `volumes`, which holds one
    * entry per connection in connection order; an empty volume record gives serial `''`. */
  lemma HostConnectionsShape(api: HelperApi, host: string)
    requires HostConnections(api, host).Ok?
    ensures var r := HostConnections(api, host).value;
            var info := FbSource.CallWith(api.hosts, host).data;
            var rows := FbSource.CallWith(api.hostConnections, host).data;
            r.Keys == info.Keys + {"volumes"} &&
            (forall k :: k in info && k != "volumes" ==> r[k] == info[k]) &&
            r["volumes"].Items? && |r["volumes"].items| == |rows| &&
            (forall i :: 0 <= i < |rows| ==>
              "vol" in rows[i] && "lun" in rows[i] && FbSource.CallWith(api.volumes, rows[i]["vol"]).Answered? &&
              var entry := r["volumes"].items[i];
              var volume := FbSource.CallWith(api.volumes, rows[i]["vol"]).data;
              (volume == map[] || "serial" in volume) &&
              entry.Keys == {"volume", "lun", "serial"} && entry["volume"] == rows[i]["vol"] &&
              entry["lun"] == rows[i]["lun"] &&
              entry["serial"] == (if volume == map[] then Str("") else volume["serial"]))
  {
    var rows := FbSource.CallWith(api.hostConnections, host).data;
    EachAt(rows, v => VolumeEntry(api, v));
  }

  /** The volume entries of `list_host_connections`, appended row by row. */
  method AppendVolumeEntries(api: HelperApi, rows: seq<Record>) returns (r: Result<seq<Record>>)
    ensures r == Each(rows, v => VolumeEntry(api, v))
  {
    var vols: seq<Record> := [];
    for i := 0 to |rows|
      invariant Each(rows[..i], v => VolumeEntry(api, v)) == Ok(vols)
    {
      assert rows[..i + 1][..i] == rows[..i];
      var entry := VolumeEntry(api, rows[i]);
      if entry.Err? {
        EachFailsAt(rows, v => VolumeEntry(api, v), i);
        return Err(entry.error);
      }
      vols := vols + [entry.value];
    }
    assert rows[..|rows|] == rows;
    r := Ok(vols);
  }

  /** `list_host_connections`. */
  method ListHostConnections(api: HelperApi, host: string) returns (r: Result<Record>)
    ensures r == HostConnections(api, host)
  {
    var vList := Listing(FbSource.CallWith(api.hostConnections, host));
    if vList.Err? {
      return Err(vList.error);
    }
    var vols := AppendVolumeEntries(api, vList.value);
    if vols.Err? {
      return Err(vols.error);
    }
    var hInfo := Listing(FbSource.CallWith(api.hosts, host));
    if hInfo.Err? {
      return Err(hInfo.error);
    }
    var info := hInfo.value;
    info := info["volumes" := Items(vols.value)];
    r := Ok(info);
  }
}
