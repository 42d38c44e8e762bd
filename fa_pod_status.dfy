/** `PodStatusMetrics`: for every pod, the status, mediator status and resync progress of the
  * first two arrays of the pod, labelled by pod, array id and array name. */
module FaPodStatus {
  import opened Records
  import opened Families
  import opened FaSource
  import opened FaEntities

  const PodLabelKeys := ["pod", "array_id", "array_name"]

  /** The samples a run adds to each of the three families. */
  datatype PodLines = PodLines(status: seq<Sample>, mediator: seq<Sample>, progress: seq<Sample>)

  /** 1 when the field reads `'online'`, 0 otherwise. */
  function Online(v: Value): (r: Value)
    ensures r == Num(1) <==> v == Str("online")
    ensures r == Num(0) <==> v != Str("online")
  {
    if v == Str("online") then Num(1) else Num(0)
  }

  /** The progress sample's value: the reported percentage, or 101 when it is `None`. */
  function Progress(v: Value): (r: Value)
    ensures v.Null? ==> r == Num(101)
    ensures !v.Null? ==> r == v
  {
    if v.Null? then Num(101) else v
  }

  /** The lines one member array of a pod contributes: its id and name are read, then its
    * status, then (labels again) its mediator status; a progress line only when the member
    * carries a `progress` key. */
  function MemberLines(pod: string, m: Record): (r: Result<PodLines>)
    ensures r.Ok? <==> "array_id" in m && "name" in m && "status" in m && "mediator_status" in m
    ensures "array_id" !in m ==> r == Err(KeyError(Str("array_id")))
    ensures "array_id" in m && "name" !in m ==> r == Err(KeyError(Str("name")))
    ensures "array_id" in m && "name" in m && "status" !in m ==> r == Err(KeyError(Str("status")))
    ensures r.Ok? ==>
      var labels := [pod, Text(m["array_id"]), Text(m["name"])];
      r.value.status == [Sample(labels, Online(m["status"]))] &&
      r.value.mediator == [Sample(labels, Online(m["mediator_status"]))] &&
      r.value.progress == (if "progress" in m then [Sample(labels, Progress(m["progress"]))] else [])
  {
    match Subscript(m, "array_id")
    case Err(f) => Err(f)
    case Ok(id) =>
      match Subscript(m, "name")
      case Err(f) => Err(f)
      case Ok(name) =>
        var labels := [pod, Text(id), Text(name)];
        match Subscript(m, "status")
        case Err(f) => Err(f)
        case Ok(status) =>
          match Subscript(m, "mediator_status")
          case Err(f) => Err(f)
          case Ok(mediator) =>
            Ok(PodLines([Sample(labels, Online(status))], [Sample(labels, Online(mediator))],
                        if "progress" in m then [Sample(labels, Progress(m["progress"]))] else []))
  }

  /** `arrays[0]` and the subscript after it: a list of records is indexed; an empty string
    * raises `IndexError`; a character, `None` or a number cannot be subscripted by a key. */
  function Members(v: Value): (r: Result<seq<Record>>)
    ensures r.Ok? <==> v.Items?
    ensures v.Str? && v.s == "" ==> r == Err(IndexError)
  {
    match v
    case Items(ms) => Ok(ms)
    case Str(s) => if s == "" then Err(IndexError) else Err(TypeError)
    case _ => Err(TypeError)
  }

  function Concat(a: PodLines, b: PodLines): PodLines
  {
    PodLines(a.status + b.status, a.mediator + b.mediator, a.progress + b.progress)
  }

  /** One pod of the loop: `p['arrays']`, then `p['name']`, then its first member; the second
    * member only when there is more than one; members beyond the second are not read. */
  function PodEntry(p: Record): (r: Result<PodLines>)
    ensures "arrays" !in p ==> r == Err(KeyError(Str("arrays")))
    ensures "arrays" in p && "name" !in p ==> r == Err(KeyError(Str("name")))
    ensures "arrays" in p && "name" in p && p["arrays"] == Items([]) ==> r == Err(IndexError)
  {
    match Subscript(p, "arrays")
    case Err(f) => Err(f)
    case Ok(arrays) =>
      match Subscript(p, "name")
      case Err(f) => Err(f)
      case Ok(name) =>
        match Members(arrays)
        case Err(f) => Err(f)
        case Ok(ms) =>
          if |ms| == 0 then Err(IndexError)
          else
            match MemberLines(Text(name), ms[0])
            case Err(f) => Err(f)
            case Ok(first) =>
              if |ms| == 1 then Ok(first)
              else
                match MemberLines(Text(name), ms[1])
                case Err(f) => Err(f)
                case Ok(second) => Ok(Concat(first, second))
  }

  /** The loop over the pods; the first failing pod aborts it. */
  function PodStatusLines(pods: seq<Record>): (r: Result<PodLines>)
    ensures r.Ok? ==> |r.value.status| == |r.value.mediator| && |r.value.progress| <= |r.value.status|
    ensures r.Ok? ==> |pods| <= |r.value.status| <= 2 * |pods|
  {
    if |pods| == 0 then Ok(PodLines([], [], []))
    else
      match PodStatusLines(pods[..|pods| - 1])
      case Err(f) => Err(f)
      case Ok(front) =>
        match PodEntry(pods[|pods| - 1])
        case Err(f) => Err(f)
        case Ok(last) => Ok(Concat(front, last))
  }

  /** The three families `get_metrics` yields, or the failure of the listing or the loop. */
  function PodStatusFamilies(listed: Result<seq<Record>>): Result<seq<Snapshot>>
  {
    match listed
    case Err(f) => Err(f)
    case Ok(pods) =>
      match PodStatusLines(pods)
      case Err(f) => Err(f)
      case Ok(lines) =>
        Ok([Snapshot("purefa_pod_status", PodLabelKeys, lines.status),
            Snapshot("purefa_pod_mediator_status", PodLabelKeys, lines.mediator),
            Snapshot("purefa_pod_progress_percent", PodLabelKeys, lines.progress)])
  }

  class PodStatusMetrics {
    const fa: FlashArray
    var status: MetricFamily?
    var mediatorStatus: MetricFamily?
    var progress: MetricFamily?

    constructor (fa: FlashArray)
      ensures this.fa == fa && status == null && mediatorStatus == null && progress == null
    {
      this.fa := fa;
      status, mediatorStatus, progress := null, null, null;
    }

    /** The three families are distinct. */
    predicate Distinct()
      reads this
    {
      status != null && mediatorStatus != null && progress != null &&
      status != mediatorStatus && status != progress && mediatorStatus != progress
    }

    function Lines(): PodLines
      reads this, status, mediatorStatus, progress
      requires Distinct()
    {
      PodLines(status.samples, mediatorStatus.samples, progress.samples)
    }

    /** The `add_metric` calls for one member array of a pod. */
    method AddMember(pod: string, m: Record) returns (out: Outcome)
      requires Distinct()
      modifies status, mediatorStatus, progress
      ensures Distinct()
      ensures out.Pass? <==> MemberLines(pod, m).Ok?
      ensures out.Fail? ==> out.error == MemberLines(pod, m).error
      ensures out.Pass? ==> Lines() == Concat(old(Lines()), MemberLines(pod, m).value)
    {
      var id := Subscript(m, "array_id");
      if id.Err? { return Fail(id.error); }
      var name := Subscript(m, "name");
      if name.Err? { return Fail(name.error); }
      var labels := [pod, Text(id.value), Text(name.value)];
      var st := Subscript(m, "status");
      if st.Err? { return Fail(st.error); }
      status.AddMetric(labels, Online(st.value));
      var med := Subscript(m, "mediator_status");
      if med.Err? { return Fail(med.error); }
      mediatorStatus.AddMetric(labels, Online(med.value));
      if "progress" in m {
        progress.AddMetric(labels, Progress(m["progress"]));
      }
      out := Pass;
    }

    /** The body of the loop for one pod. */
    method AddPod(p: Record) returns (out: Outcome)
      requires Distinct()
      modifies status, mediatorStatus, progress
      ensures Distinct()
      ensures out.Pass? <==> PodEntry(p).Ok?
      ensures out.Fail? ==> out.error == PodEntry(p).error
      ensures out.Pass? ==> Lines() == Concat(old(Lines()), PodEntry(p).value)
    {
      var arrays := Subscript(p, "arrays");
      if arrays.Err? { return Fail(arrays.error); }
      var name := Subscript(p, "name");
      if name.Err? { return Fail(name.error); }
      var ms := Members(arrays.value);
      if ms.Err? { return Fail(ms.error); }
      if |ms.value| == 0 { return Fail(IndexError); }
      out := AddMember(Text(name.value), ms.value[0]);
      if out.Fail? || |ms.value| == 1 { return; }
      out := AddMember(Text(name.value), ms.value[1]);
    }

    /** The loop of `_status` over the pods, from freshly declared families. */
    method Walk(pods: seq<Record>) returns (out: Outcome)
      requires Distinct() && Lines() == PodLines([], [], [])
      modifies status, mediatorStatus, progress
      ensures Distinct()
      ensures out.Pass? <==> PodStatusLines(pods).Ok?
      ensures out.Fail? ==> out.error == PodStatusLines(pods).error
      ensures out.Pass? ==> Lines() == PodStatusLines(pods).value
    {
      var i := 0;
      while i < |pods|
        invariant 0 <= i <= |pods| && Distinct()
        invariant PodStatusLines(pods[..i]) == Ok(Lines())
      {
        assert pods[..i + 1][..i] == pods[..i];
        var o := AddPod(pods[i]);
        if o.Fail? {
          PodPrefixFailure(pods, i + 1);
          return o;
        }
        i := i + 1;
      }
      assert pods[..i] == pods;
      out := Pass;
    }

    /** `get_metrics`: `_status` declares the three families and walks the pods. */
    method GetMetrics() returns (r: Result<seq<Snapshot>>)
      requires fa.Valid()
      modifies this, fa`volumes, fa`hosts, fa`pods, fa`fetches
      ensures fa.Valid()
      ensures r == PodStatusFamilies(Listed(fa.api, Pods))
    {
      status := new MetricFamily("purefa_pod_status", PodLabelKeys);
      mediatorStatus := new MetricFamily("purefa_pod_mediator_status", PodLabelKeys);
      progress := new MetricFamily("purefa_pod_progress_percent", PodLabelKeys);
      var pods := Entities(fa, Pods);
      if pods.Err? {
        return Err(pods.error);
      }
      var o := Walk(pods.value);
      if o.Fail? {
        return Err(o.error);
      }
      r := Ok([status.Snap(), mediatorStatus.Snap(), progress.Snap()]);
    }
  }

  /** A failure in a prefix of the pods is the failure of the whole loop. */
  lemma {:induction false} PodPrefixFailure(pods: seq<Record>, k: nat)
    requires k <= |pods| && PodStatusLines(pods[..k]).Err?
    ensures PodStatusLines(pods) == PodStatusLines(pods[..k])
    decreases |pods|
  {
    if k < |pods| {
      assert pods[..|pods| - 1][..k] == pods[..k];
      PodPrefixFailure(pods[..|pods| - 1], k);
    } else {
      assert pods[..k] == pods;
    }
  }
  /** How many member arrays of a pod get status lines: the first two. */
  function Shown(p: Record): nat
  {
    if "arrays" in p && p["arrays"].Items? then
      (if |p["arrays"].items| < 2 then |p["arrays"].items| else 2)
    else 0
  }

  function ShownTotal(pods: seq<Record>): nat
  {
    if |pods| == 0 then 0 else ShownTotal(pods[..|pods| - 1]) + Shown(pods[|pods| - 1])
  }

  /** A pod that passes contributes one status and one mediator line per shown member, at
    * least one, and at most one progress line per shown member. */
  lemma PodEntryCount(p: Record)
    requires PodEntry(p).Ok?
    ensures 1 <= Shown(p) <= 2
    ensures |PodEntry(p).value.status| == Shown(p) && |PodEntry(p).value.mediator| == Shown(p)
    ensures |PodEntry(p).value.progress| <= Shown(p)
  {
  }

  /** The loop yields one status line per shown member of every pod. */
  lemma {:induction false} PodStatusCount(pods: seq<Record>)
    requires PodStatusLines(pods).Ok?
    ensures |PodStatusLines(pods).value.status| == ShownTotal(pods)
    ensures |PodStatusLines(pods).value.mediator| == ShownTotal(pods)
  {
    if |pods| > 0 {
      PodStatusCount(pods[..|pods| - 1]);
      PodEntryCount(pods[|pods| - 1]);
    }
  }

  /** Member arrays past the second are never read: the pod reads the same with them cut off. */
  lemma MembersBeyondSecondIgnored(p: Record, ms: seq<Record>)
    requires |ms| >= 2
    ensures PodEntry(p["arrays" := Items(ms)]) == PodEntry(p["arrays" := Items(ms[..2])])
  {
    var q, r := p["arrays" := Items(ms)], p["arrays" := Items(ms[..2])];
    assert ms[..2][0] == ms[0] && ms[..2][1] == ms[1];
    assert "name" in q <==> "name" in r;
    if "name" in q {
      assert q["name"] == r["name"];
    }
  }

  /** A pod with a single member array yields that member's lines and nothing else. */
  lemma SingleMemberPod(p: Record, m: Record)
    requires "name" in p && "arrays" in p && p["arrays"] == Items([m])
    ensures PodEntry(p) == MemberLines(Text(p["name"]), m)
  {
    assert Members(p["arrays"]) == Ok([m]);
  }
}
