/** Open-alert counting: how many alerts carry a given severity, and the FlashArray
  * builder that turns the three counts into the `purefa_alerts_total` family. */
module FaEvents {
  import opened Records
  import opened Families
  import opened FaSource

  /** Number of alerts whose `field` (read as an attribute: absent counts as `None`) is the text `sev`. */
  function Count(alerts: seq<Record>, field: string, sev: string): nat
  {
    if |alerts| == 0 then 0
    else Count(alerts[..|alerts| - 1], field, sev) + (if Attr(alerts[|alerts| - 1], field) == Str(sev) then 1 else 0)
  }

  /** Counting a concatenation adds the counts of its parts. */
  lemma {:induction false} CountAppend(a: seq<Record>, b: seq<Record>, field: string, sev: string)
    ensures Count(a + b, field, sev) == Count(a, field, sev) + Count(b, field, sev)
    decreases |b|
  {
    if |b| > 0 {
      assert (a + b)[..|a + b| - 1] == a + b[..|b| - 1];
      CountAppend(a, b[..|b| - 1], field, sev);
    } else {
      assert a + b == a;
    }
  }

  /** No alert has two severities, so the three counts together never exceed the number of alerts. */
  lemma {:induction false} CountsBounded(alerts: seq<Record>, field: string)
    ensures Count(alerts, field, "critical") + Count(alerts, field, "warning") + Count(alerts, field, "info") <= |alerts|
  {
    if |alerts| > 0 {
      CountsBounded(alerts[..|alerts| - 1], field);
    }
  }

  /** Positions of the alerts whose `field` is the text `sev`. */
  ghost function Positions(alerts: seq<Record>, field: string, sev: string): set<int>
  {
    set i | 0 <= i < |alerts| && Attr(alerts[i], field) == Str(sev)
  }

  /** The positions in a sequence are those in all but its last alert, plus the last one if it matches. */
  lemma {:induction false} PositionsSnoc(alerts: seq<Record>, field: string, sev: string)
    requires |alerts| > 0
    ensures var n := |alerts| - 1;
            n !in Positions(alerts[..n], field, sev) &&
            Positions(alerts, field, sev)
              == Positions(alerts[..n], field, sev) + (if Attr(alerts[n], field) == Str(sev) then {n} else {})
  {
  }

  /** The count is the number of positions holding a matching alert. */
  lemma {:induction false} CountIsPositions(alerts: seq<Record>, field: string, sev: string)
    ensures Count(alerts, field, sev) == |Positions(alerts, field, sev)|
  {
    if |alerts| > 0 {
      CountIsPositions(alerts[..|alerts| - 1], field, sev);
      PositionsSnoc(alerts, field, sev);
    }
  }

  /** The three samples in the order they are added: critical, warning, info. */
  function SeveritySamples(alerts: seq<Record>, field: string): seq<Sample>
  {
    [Sample(["critical"], Num(Count(alerts, field, "critical"))),
     Sample(["warning"], Num(Count(alerts, field, "warning"))),
     Sample(["info"], Num(Count(alerts, field, "info")))]
  }

  /** Every FlashArray alert is subscripted for `current_severity`. */
  predicate HasSeverity(alerts: seq<Record>)
  {
    forall i :: 0 <= i < |alerts| ==> "current_severity" in alerts[i]
  }

  const AlertsFamily := "purefa_alerts_total"

  /** The samples of `_open_events`: the listing's three counts, or the failure of the call or of a subscript. */
  function OpenEventSamples(api: FaApi): Result<seq<Sample>>
  {
    match Listing(api.openAlerts)
    case Err(f) => Err(f)
    case Ok(alerts) =>
      if HasSeverity(alerts) then Ok(SeveritySamples(alerts, "current_severity"))
      else Err(KeyError(Str("current_severity")))
  }

  class ArrayEventsMetrics {
    const fa: FlashArray
    var openEvents: MetricFamily?

    constructor (fa: FlashArray)
      ensures this.fa == fa && openEvents == null
    {
      this.fa := fa;
      openEvents := null;
    }

    /** `_open_events`: one counting pass with an `elif` chain, then three appends. */
    method OpenEvents() returns (out: Outcome)
      modifies this, fa`fetches
      ensures openEvents != null && fresh(openEvents)
      ensures openEvents.name == AlertsFamily && openEvents.labelKeys == ["severity"]
      ensures out.Pass? <==> OpenEventSamples(fa.api).Ok?
      ensures out.Fail? ==> out.error == OpenEventSamples(fa.api).error
      ensures out.Pass? ==> openEvents.samples == OpenEventSamples(fa.api).value
    {
      var fam := new MetricFamily(AlertsFamily, ["severity"]);
      openEvents := fam;
      var listing := fa.GetOpenAlerts();
      if listing.Err? {
        return Fail(listing.error);
      }
      var alerts := listing.value;
      var cCrit, cWarn, cInfo := 0, 0, 0;
      var i := 0;
      while i < |alerts|
        invariant 0 <= i <= |alerts|
        invariant HasSeverity(alerts[..i])
        invariant cCrit == Count(alerts[..i], "current_severity", "critical")
        invariant cWarn == Count(alerts[..i], "current_severity", "warning")
        invariant cInfo == Count(alerts[..i], "current_severity", "info")
      {
        assert alerts[..i + 1][..i] == alerts[..i];
        var sev := Subscript(alerts[i], "current_severity");
        if sev.Err? {
          return Fail(sev.error);
        }
        if sev.value == Str("critical") {
          cCrit := cCrit + 1;
        } else if sev.value == Str("warning") {
          cWarn := cWarn + 1;
        } else if sev.value == Str("info") {
          cInfo := cInfo + 1;
        }
        i := i + 1;
      }
      assert alerts[..i] == alerts;
      fam.AddMetric(["critical"], Num(cCrit));
      fam.AddMetric(["warning"], Num(cWarn));
      fam.AddMetric(["info"], Num(cInfo));
      out := Pass;
    }

    /** `get_metrics`: the one family. */
    method GetMetrics() returns (r: Result<seq<Snapshot>>)
      modifies this, fa`fetches
      ensures r.Ok? <==> OpenEventSamples(fa.api).Ok?
      ensures r.Err? ==> r.error == OpenEventSamples(fa.api).error
      ensures r.Ok? ==> r.value == [Snapshot(AlertsFamily, ["severity"], OpenEventSamples(fa.api).value)]
    {
      var out := OpenEvents();
      if out.Fail? {
        return Err(out.error);
      }
      r := Ok([openEvents.Snap()]);
    }
  }

  /** Exactly three samples, labelled critical, warning and info in that order, each the number of
    * open alerts of that severity; other severities are not counted. */
  lemma OpenEventsCounts(api: FaApi)
    requires OpenEventSamples(api).Ok?
    ensures var alerts := api.openAlerts.data;
            var ss := OpenEventSamples(api).value;
            |ss| == 3 && ss[0].labels == ["critical"] && ss[1].labels == ["warning"] && ss[2].labels == ["info"] &&
            (forall k :: 0 <= k < 3 ==>
               ss[k].value == Num(|set i | 0 <= i < |alerts| && alerts[i]["current_severity"] == Str(ss[k].labels[0])|)) &&
            ss[0].value.n + ss[1].value.n + ss[2].value.n <= |alerts|
  {
    var alerts := api.openAlerts.data;
    var ss := OpenEventSamples(api).value;
    CountsBounded(alerts, "current_severity");
    forall k | 0 <= k < 3
      ensures ss[k].value == Num(|set i | 0 <= i < |alerts| && alerts[i]["current_severity"] == Str(ss[k].labels[0])|)
    {
      var sev := ss[k].labels[0];
      CountIsPositions(alerts, "current_severity", sev);
      assert Positions(alerts, "current_severity", sev)
          == (set i | 0 <= i < |alerts| && alerts[i]["current_severity"] == Str(sev));
    }
  }

  /** An alert without `current_severity` aborts the builder. */
  lemma MissingSeverityFails(api: FaApi, i: nat)
    requires api.openAlerts.Answered? && i < |api.openAlerts.data| && "current_severity" !in api.openAlerts.data[i]
    ensures OpenEventSamples(api) == Err(KeyError(Str("current_severity")))
  {
  }
}
