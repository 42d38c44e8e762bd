/** The first-generation FlashArray collector: one object holding a connection, and seven
  * generators that `collect` runs in turn. Its policies differ from the current builders:
  * `not_installed` hardware counts as healthy, chassis and controller samples carry the whole
  * matched name, readings are converted without a null check, and the two per-volume
  * generators yield their three families once per volume, inside the loop. */
module LegacyFa {
  import opened Strings
  import opened Records
  import opened Families
  import opened FaHardware
  import opened FaEvents

  /** What the calls the collector makes on its connection answer. */
  datatype LegacyApi = LegacyApi(
    identity: Reply<Record>,           // get()
    hardware: Reply<seq<Record>>,      // list_hardware()
    openMessages: Reply<seq<Record>>,  // list_messages(open=True)
    space: Reply<seq<Record>>,         // get(space=True)
    monitor: Reply<seq<Record>>,       // get(action='monitor', mirrored=True)
    volumeSpace: Reply<seq<Record>>,   // list_volumes(space=True)
    volumeMonitor: Reply<seq<Record>>) // list_volumes(action='monitor')

  // ---------------------------------------------------------------- subscripting a row of fields

  /** When the fields before column `k` are present and column `k`'s is not, the row fails with
    * the `KeyError` of column `k`'s field. */
  lemma CellsFirstMissing(e: Record, lead: seq<string>, cols: seq<Column>, k: nat)
    requires k < |cols| && (forall j :: 0 <= j < k ==> cols[j].field in e) && cols[k].field !in e
    ensures Cells(e, lead, cols, ByKey) == Err(KeyError(Str(cols[k].field)))
  {
    CellsSucceed(e, lead, cols[..k], ByKey);
    var front := Cells(e, lead, cols[..k], ByKey).value;
    CellsNext(e, lead, cols, ByKey, k, front);
    CellsPrefixFailure(e, lead, cols, ByKey, k + 1);
  }

  /** Every column's field is a key of `e`. */
  predicate FieldsIn(e: Record, cols: seq<Column>)
  {
    forall j :: 0 <= j < |cols| ==> cols[j].field in e
  }

  /** When every field is present, the row holds one sample per column, carrying the field's value. */
  lemma CellsAllPresent(e: Record, lead: seq<string>, cols: seq<Column>)
    requires FieldsIn(e, cols)
    ensures Cells(e, lead, cols, ByKey).Ok? && |Cells(e, lead, cols, ByKey).value| == |cols|
    ensures forall j :: 0 <= j < |cols| ==>
              Cells(e, lead, cols, ByKey).value[j] == Sample(lead + cols[j].extra, ApplyPolicy(e[cols[j].field], cols[j].policy))
  {
    CellsSucceed(e, lead, cols, ByKey);
    CellsShape(e, lead, cols, ByKey);
  }

  /** A row of fields succeeds exactly when every field is present. */
  lemma CellsSucceedByKey(e: Record, lead: seq<string>, cols: seq<Column>)
    ensures Cells(e, lead, cols, ByKey).Ok? <==> FieldsIn(e, cols)
  {
    CellsSucceed(e, lead, cols, ByKey);
  }

  /** One `add_metric(labels, data[field])`: the subscript fails with a `KeyError` or the sample is appended. */
  method AddField(fam: MetricFamily, labels: seq<string>, e: Record, field: string) returns (out: Outcome)
    modifies fam
    ensures out.Pass? <==> field in e
    ensures out.Fail? ==> out.error == KeyError(Str(field)) && fam.samples == old(fam.samples)
    ensures out.Pass? ==> fam.samples == old(fam.samples) + [Sample(labels, e[field])]
  {
    var v := Subscript(e, field);
    if v.Err? {
      return Fail(v.error);
    }
    fam.AddMetric(labels, v.value);
    out := Pass;
  }

  // ---------------------------------------------------------------- array_info

  const InfoKeys: seq<string> := ["array_name", "system_id", "version"]

  /** The info family: `array_name`, `id` and `version` are subscripted in that order. */
  function InfoFamily(data: Record): (r: Result<Snapshot>)
    ensures r.Ok? <==> "array_name" in data && "id" in data && "version" in data
    ensures r.Err? ==> r.error == KeyError(Str(if "array_name" !in data then "array_name" else if "id" !in data then "id" else "version"))
    ensures r.Ok? ==> r.value.name == "purefa" && r.value.labelKeys == InfoKeys && |r.value.samples| == 1
    ensures r.Ok? ==> r.value.samples[0].labels == [Text(data["array_name"]), Text(data["id"]), Text(data["version"])]
  {
    match Subscript(data, "array_name")
    case Err(f) => Err(f)
    case Ok(name) =>
      match Subscript(data, "id")
      case Err(f) => Err(f)
      case Ok(id) =>
        match Subscript(data, "version")
        case Err(f) => Err(f)
        case Ok(version) => Ok(Snapshot("purefa", InfoKeys, [Sample([Text(name), Text(id), Text(version)], Num(1))]))
  }

  function InfoOutput(api: LegacyApi): Result<seq<Snapshot>>
  {
    match Listing(api.identity)
    case Err(f) => Err(f)
    case Ok(data) => match InfoFamily(data) case Err(f) => Err(f) case Ok(info) => Ok([info])
  }

  // ---------------------------------------------------------------- array_hw

  /** `str.lower()` on the capitals the component pattern admits. */
  function Lowered(s: string): (t: string)
    ensures |t| == |s|
    ensures forall i :: 0 <= i < |s| ==> t[i] == (if IsUpper(s[i]) then (s[i] as int + 32) as char else s[i])
  {
    if |s| == 0 then [] else [if IsUpper(s[0]) then (s[0] as int + 32) as char else s[0]] + Lowered(s[1..])
  }

  /** On a run of capitals, lower-casing gives `word` exactly when the run is `word` in capitals. */
  lemma LoweredKind(kind: string)
    requires AllUpper(kind)
    ensures Lowered(kind) == "tmp" <==> kind == "TMP"
    ensures Lowered(kind) == "pwr" <==> kind == "PWR"
  {
    if Lowered(kind) == "tmp" {
      assert kind[0] == 'T' && kind[1] == 'M' && kind[2] == 'P';
      assert kind == "TMP";
    }
    if Lowered(kind) == "pwr" {
      assert kind[0] == 'P' && kind[1] == 'W' && kind[2] == 'R';
      assert kind == "PWR";
    }
  }

  /** `1 if status == 'ok' or status == 'not_installed' else 0`. */
  function LegacyState(status: Value): Value
  {
    Num(if status == Str("ok") || status == Str("not_installed") then 1 else 0)
  }

  /** One pass of the component loop: `name`, then `status`, are subscripted; a name none of the
    * three patterns takes adds nothing; a chassis or controller is labelled with the whole match. */
  function LegacyContribution(comp: Record): Result<HwOut>
  {
    match Subscript(comp, "name")
    case Err(f) => Err(f)
    case Ok(name) =>
      match Subscript(comp, "status")
      case Err(f) => Err(f)
      case Ok(status) =>
        if !name.Str? then Err(TypeError) else LegacyNamed(comp, LegacyState(status), ParseHwName(name.s))
  }

  /** The samples of a component whose name the patterns made `h` of. */
  function LegacyNamed(comp: Record, state: Value, h: HwName): Result<HwOut>
  {
    match h
    case ChassisName(n) => Ok(HwOut([Sample(["CH" + n], state)], [], [], [], []))
    case ControllerName(n) => Ok(HwOut([], [Sample(["CT" + n], state)], [], [], []))
    case OtherName => Ok(NoOut)
    case ComponentName(slot, bi, kind, i) =>
      var health := [Sample(SlotLabels(slot, bi) + [kind, i], state)];
      if Lowered(kind) == "tmp" then
        match Subscript(comp, "temperature")
        case Err(f) => Err(f)
        case Ok(t) =>
          match ToFloat(t)
          case Err(f) => Err(f)
          case Ok(v) => Ok(HwOut([], [], health, [Sample(SlotLabels(slot, bi) + [i], v)], []))
      else if Lowered(kind) == "pwr" then
        match Subscript(comp, "voltage")
        case Err(f) => Err(f)
        case Ok(volts) =>
          match ToFloat(volts)
          case Err(f) => Err(f)
          case Ok(v) => Ok(HwOut([], [], health, [], [Sample([bi, i], v)]))
      else Ok(HwOut([], [], health, [], []))
  }

  /** The whole loop: every component's contribution in listing order; the first failure aborts. */
  function LegacyHwAll(comps: seq<Record>): Result<HwOut>
  {
    if |comps| == 0 then Ok(NoOut)
    else
      match LegacyHwAll(comps[..|comps| - 1])
      case Err(f) => Err(f)
      case Ok(front) =>
        match LegacyContribution(comps[|comps| - 1])
        case Err(f) => Err(f)
        case Ok(c) => Ok(Join(front, c))
  }

  function HwOutput(api: LegacyApi): Result<seq<Snapshot>>
  {
    match Listing(api.hardware)
    case Err(f) => Err(f)
    case Ok(comps) =>
      match LegacyHwAll(comps)
      case Err(f) => Err(f)
      case Ok(o) =>
        Ok([Snapshot(ChassisFamily, [], o.chassis),
            Snapshot(ControllerFamily, ["controller"], o.controller),
            Snapshot(ComponentFamily, ["chassis", "controller", "component", "index"], o.component),
            Snapshot(TemperatureFamily, ["chassis", "controller", "sensor"], o.temperature),
            Snapshot(PowerFamily, ["chassis", "power_supply"], o.power)])
  }

  /** The health sample of an installed or uninstalled component is 1 exactly when its status is
    * `ok` or `not_installed`; a component adds at most one health sample, and one exactly when
    * one of the patterns takes its name. */
  lemma LegacyHealth(comp: Record)
    requires LegacyContribution(comp).Ok?
    ensures "name" in comp && comp["name"].Str? && "status" in comp
    ensures var o := LegacyContribution(comp).value;
            |o.chassis + o.controller + o.component| == (if ParseHwName(comp["name"].s) == OtherName then 0 else 1) &&
            forall s :: s in o.chassis + o.controller + o.component ==>
              s.value == Num(if comp["status"] == Str("ok") || comp["status"] == Str("not_installed") then 1 else 0)
  {
    NamedHealth(comp, LegacyState(comp["status"]), ParseHwName(comp["name"].s));
  }

  /** The health samples of a component whose name the patterns made `h` of. */
  lemma NamedHealth(comp: Record, state: Value, h: HwName)
    requires LegacyNamed(comp, state, h).Ok?
    ensures var o := LegacyNamed(comp, state, h).value;
            |o.chassis + o.controller + o.component| == (if h == OtherName then 0 else 1) &&
            forall s :: s in o.chassis + o.controller + o.component ==> s.value == state
  {
    var o := LegacyNamed(comp, state, h).value;
    if h.ComponentName? {
      ComponentNamedShape(comp, state, h);
      assert o.chassis + o.controller + o.component == o.component;
    }
  }

  /** A chassis or controller sample is labelled with the whole text the pattern matched
    * (`CH0`, not `0`), which is the name without one trailing newline. */
  lemma WholeNameLabel(comp: Record)
    requires LegacyContribution(comp).Ok?
    requires ParseHwName(comp["name"].s).ChassisName? || ParseHwName(comp["name"].s).ControllerName?
    ensures var o := LegacyContribution(comp).value;
            o.chassis + o.controller == [Sample([DollarBody(comp["name"].s)], LegacyState(comp["status"]))] &&
            o.component == [] && o.temperature == [] && o.power == []
  {
    ParsedRenders(comp["name"].s);
  }

  /** The patterns take `CH<n>.<TYPE><m>` and `CT<n>.<TYPE><m>` apart into their four parts. */
  lemma ParseComponentName(slot: Slot, n: string, kind: string, m: string)
    requires |n| > 0 && AllDigits(n) && |kind| > 0 && AllUpper(kind) && |m| > 0 && AllDigits(m)
    ensures ParseHwName((if slot == ChassisSlot then "CH" else "CT") + (n + "." + kind + m)) == ComponentName(slot, n, kind, m)
  {
    var h := ComponentName(slot, n, kind, m);
    RenderBody(h);
    ParseRender(h);
  }

  /** A component name `CH<n>.<TYPE><m>` or `CT<n>.<TYPE><m>` gives one component-health sample
    * labelled `[n, '', TYPE, m]` or `['', n, TYPE, m]`, and no chassis or controller sample. */
  lemma ComponentLabels(comp: Record, slot: Slot, n: string, kind: string, m: string)
    requires |n| > 0 && AllDigits(n) && |kind| > 0 && AllUpper(kind) && |m| > 0 && AllDigits(m)
    requires "name" in comp && comp["name"] == Str((if slot == ChassisSlot then "CH" else "CT") + (n + "." + kind + m))
    requires "status" in comp && LegacyContribution(comp).Ok?
    ensures var o := LegacyContribution(comp).value;
            o.chassis == [] && o.controller == [] &&
            o.component == [Sample((if slot == ChassisSlot then [n, "", kind, m] else ["", n, kind, m]), LegacyState(comp["status"]))]
  {
    ParseComponentName(slot, n, kind, m);
    var state := LegacyState(comp["status"]);
    var h := ComponentName(slot, n, kind, m);
    assert LegacyContribution(comp) == LegacyNamed(comp, state, h);
    ComponentNamedShape(comp, state, h);
  }

  /** A component's own samples: its health sample, labelled by its slot, type and index, and no
    * chassis or controller sample. */
  lemma ComponentNamedShape(comp: Record, state: Value, h: HwName)
    requires h.ComponentName? && LegacyNamed(comp, state, h).Ok?
    ensures var o := LegacyNamed(comp, state, h).value;
            o.chassis == [] && o.controller == [] &&
            o.component == [Sample((if h.base == ChassisSlot then [h.baseIndex, "", h.kind, h.index] else ["", h.baseIndex, h.kind, h.index]), state)]
  {
    assert SlotLabels(h.base, h.baseIndex) + [h.kind, h.index]
        == (if h.base == ChassisSlot then [h.baseIndex, "", h.kind, h.index] else ["", h.baseIndex, h.kind, h.index]);
  }

  /** A TMP or PWR component whose reading is `None` aborts the loop with a `TypeError`: there
    * is no null check before `float(...)`. */
  lemma ReadingWithoutValueFails(comp: Record, slot: Slot, n: string, kind: string, m: string)
    requires |n| > 0 && AllDigits(n) && |m| > 0 && AllDigits(m) && (kind == "TMP" || kind == "PWR")
    requires "name" in comp && comp["name"] == Str((if slot == ChassisSlot then "CH" else "CT") + (n + "." + kind + m))
    requires "status" in comp
    requires var field := if kind == "TMP" then "temperature" else "voltage"; field in comp && comp[field] == Null
    ensures LegacyContribution(comp) == Err(TypeError)
  {
    assert AllUpper(kind);
    ParseComponentName(slot, n, kind, m);
    LoweredKind(kind);
  }

  /** Unlike the current builder, which skips `not_installed` components, the legacy loop reports
    * a `not_installed` chassis as healthy. */
  lemma NotInstalledReported(comp: Record, n: string)
    requires |n| > 0 && AllDigits(n)
    requires "name" in comp && comp["name"] == Str("CH" + n)
    requires "status" in comp && comp["status"] == Str("not_installed")
    ensures LegacyContribution(comp) == Ok(HwOut([Sample(["CH" + n], Num(1))], [], [], [], []))
    ensures Contribution(comp) == Ok(NoOut)
  {
    ParseRender(ChassisName(n));
    RenderBody(ChassisName(n));
  }

  lemma {:induction false} LegacyHwPrefixFailure(comps: seq<Record>, k: nat)
    requires k <= |comps| && LegacyHwAll(comps[..k]).Err?
    ensures LegacyHwAll(comps) == LegacyHwAll(comps[..k])
    decreases |comps|
  {
    if k < |comps| {
      var n := |comps| - 1;
      assert comps[..n][..k] == comps[..k];
      LegacyHwPrefixFailure(comps[..n], k);
    } else {
      assert comps[..k] == comps;
    }
  }

  /** The loop succeeds exactly when every component's pass does. */
  lemma {:induction false} LegacyHwSucceeds(comps: seq<Record>)
    ensures LegacyHwAll(comps).Ok? <==> forall k :: 0 <= k < |comps| ==> LegacyContribution(comps[k]).Ok?
    decreases |comps|
  {
    if |comps| > 0 {
      var n := |comps| - 1;
      LegacyHwSucceeds(comps[..n]);
      assert LegacyHwAll(comps).Ok? <==> LegacyHwAll(comps[..n]).Ok? && LegacyContribution(comps[n]).Ok?;
      assert forall k :: 0 <= k < n ==> comps[..n][k] == comps[k];
    }
  }

  /** The five families are distinct objects. */
  predicate Distinct5(ch: MetricFamily, ct: MetricFamily, cp: MetricFamily, tm: MetricFamily, pw: MetricFamily)
  {
    ch != ct && ch != cp && ch != tm && ch != pw && ct != cp && ct != tm && ct != pw && cp != tm && cp != pw && tm != pw
  }

  /** The samples the five hardware families hold. */
  function HwSamples(ch: MetricFamily, ct: MetricFamily, cp: MetricFamily, tm: MetricFamily, pw: MetricFamily): HwOut
    reads ch, ct, cp, tm, pw
  {
    HwOut(ch.samples, ct.samples, cp.samples, tm.samples, pw.samples)
  }

  /** One iteration of the component loop of `array_hw`. */
  method AddComponent(comp: Record, ch: MetricFamily, ct: MetricFamily, cp: MetricFamily, tm: MetricFamily, pw: MetricFamily)
      returns (out: Outcome)
    requires Distinct5(ch, ct, cp, tm, pw)
    modifies ch, ct, cp, tm, pw
    ensures out.Pass? <==> LegacyContribution(comp).Ok?
    ensures out.Fail? ==> out.error == LegacyContribution(comp).error
    ensures out.Pass? ==> HwSamples(ch, ct, cp, tm, pw) == Join(old(HwSamples(ch, ct, cp, tm, pw)), LegacyContribution(comp).value)
  {
    var name := Subscript(comp, "name");
    if name.Err? {
      return Fail(name.error);
    }
    var status := Subscript(comp, "status");
    if status.Err? {
      return Fail(status.error);
    }
    var state := LegacyState(status.value);
    if !name.value.Str? {
      return Fail(TypeError);
    }
    var h := ParseHwName(name.value.s);
    assert LegacyContribution(comp) == LegacyNamed(comp, state, h);
    if h.ChassisName? {
      ch.AddMetric(["CH" + h.index], state);
      out := Pass;
    } else if h.ControllerName? {
      ct.AddMetric(["CT" + h.index], state);
      out := Pass;
    } else if h.ComponentName? {
      out := AddPart(comp, state, h, ch, ct, cp, tm, pw);
    } else {
      out := Pass;
    }
  }

  /** The `CH<n>.<TYPE><m>` / `CT<n>.<TYPE><m>` branch: the health sample, then a temperature or
    * voltage reading for TMP and PWR components. */
  method AddPart(comp: Record, state: Value, h: HwName, ch: MetricFamily, ct: MetricFamily, cp: MetricFamily, tm: MetricFamily, pw: MetricFamily)
      returns (out: Outcome)
    requires h.ComponentName? && Distinct5(ch, ct, cp, tm, pw)
    modifies cp, tm, pw
    ensures out.Pass? <==> LegacyNamed(comp, state, h).Ok?
    ensures out.Fail? ==> out.error == LegacyNamed(comp, state, h).error
    ensures out.Pass? ==> HwSamples(ch, ct, cp, tm, pw) == Join(old(HwSamples(ch, ct, cp, tm, pw)), LegacyNamed(comp, state, h).value)
  {
    var slot := SlotLabels(h.base, h.baseIndex);
    cp.AddMetric(slot + [h.kind, h.index], state);
    if Lowered(h.kind) == "tmp" {
      var t := Subscript(comp, "temperature");
      if t.Err? {
        return Fail(t.error);
      }
      var v := ToFloat(t.value);
      if v.Err? {
        return Fail(v.error);
      }
      tm.AddMetric(slot + [h.index], v.value);
    } else if Lowered(h.kind) == "pwr" {
      var volts := Subscript(comp, "voltage");
      if volts.Err? {
        return Fail(volts.error);
      }
      var v := ToFloat(volts.value);
      if v.Err? {
        return Fail(v.error);
      }
      pw.AddMetric([h.baseIndex, h.index], v.value);
    }
    out := Pass;
  }

  /** The component loop of `array_hw` over fresh, empty families. */
  method WalkHardware(comps: seq<Record>, ch: MetricFamily, ct: MetricFamily, cp: MetricFamily, tm: MetricFamily, pw: MetricFamily)
      returns (out: Outcome)
    requires Distinct5(ch, ct, cp, tm, pw) && HwSamples(ch, ct, cp, tm, pw) == NoOut
    modifies ch, ct, cp, tm, pw
    ensures out.Pass? <==> LegacyHwAll(comps).Ok?
    ensures out.Fail? ==> out.error == LegacyHwAll(comps).error
    ensures out.Pass? ==> HwSamples(ch, ct, cp, tm, pw) == LegacyHwAll(comps).value
  {
    var i := 0;
    while i < |comps|
      invariant 0 <= i <= |comps|
      invariant LegacyHwAll(comps[..i]) == Ok(HwSamples(ch, ct, cp, tm, pw))
    {
      assert comps[..i + 1][..i] == comps[..i];
      var step := AddComponent(comps[i], ch, ct, cp, tm, pw);
      if step.Fail? {
        LegacyHwPrefixFailure(comps, i + 1);
        return step;
      }
      i := i + 1;
    }
    assert comps[..i] == comps;
    out := Pass;
  }

  // ---------------------------------------------------------------- array_events

  function EventsOutput(api: LegacyApi): Result<seq<Snapshot>>
  {
    match Listing(api.openMessages)
    case Err(f) => Err(f)
    case Ok(alerts) =>
      if HasSeverity(alerts) then Ok([Snapshot(AlertsFamily, ["severity"], SeveritySamples(alerts, "current_severity"))])
      else Err(KeyError(Str("current_severity")))
  }

  /** The `elif` chain counts each severity independently: the family holds, in order, the number
    * of critical, warning and info alerts, and the three never add up to more than the alerts. */
  lemma LegacyEventsCounts(api: LegacyApi)
    requires EventsOutput(api).Ok?
    ensures var alerts := api.openMessages.data; var s := EventsOutput(api).value[0].samples;
            |s| == 3 && s[0].labels == ["critical"] && s[1].labels == ["warning"] && s[2].labels == ["info"] &&
            s[0].value == Num(|Positions(alerts, "current_severity", "critical")|) &&
            s[1].value == Num(|Positions(alerts, "current_severity", "warning")|) &&
            s[2].value == Num(|Positions(alerts, "current_severity", "info")|) &&
            s[0].value.n + s[1].value.n + s[2].value.n <= |alerts|
  {
    var alerts := api.openMessages.data;
    CountIsPositions(alerts, "current_severity", "critical");
    CountIsPositions(alerts, "current_severity", "warning");
    CountIsPositions(alerts, "current_severity", "info");
    CountsBounded(alerts, "current_severity");
  }

  // ---------------------------------------------------------------- array_space

  /** The `add_metric` calls of `array_space`, in order; the `snapshots` dimension reads `volumes`. */
  const SpaceColumns: seq<Column> := [
    Column([], "data_reduction", PassThrough), Column([], "capacity", PassThrough), Column([], "provisioned", PassThrough),
    Column(["shared"], "shared_space", PassThrough), Column(["system"], "system", PassThrough),
    Column(["volumes"], "volumes", PassThrough), Column(["snapshots"], "volumes", PassThrough)]

  const ReductionFamily := "purefa_space_datareduction_ratio"
  const CapacityFamily := "purefa_space_capacity_bytes"
  const ProvisionedFamily := "purefa_space_provisioned_bytes"
  const UsedFamily := "purefa_space_used_bytes"

  function SpaceOutput(api: LegacyApi): Result<seq<Snapshot>>
  {
    match First(api.space)
    case Err(f) => Err(f)
    case Ok(data) =>
      match Cells(data, [], SpaceColumns, ByKey)
      case Err(f) => Err(f)
      case Ok(s) =>
        CellsShape(data, [], SpaceColumns, ByKey);
        Ok([Snapshot(CapacityFamily, [], [s[1]]), Snapshot(ReductionFamily, [], [s[0]]),
            Snapshot(ProvisionedFamily, [], [s[2]]), Snapshot(UsedFamily, ["dimension"], s[3..])])
  }

  /** `array_space` subscripts exactly these fields. */
  lemma SpaceFields(data: Record)
    ensures FieldsIn(data, SpaceColumns) <==>
              "data_reduction" in data && "capacity" in data && "provisioned" in data &&
              "shared_space" in data && "system" in data && "volumes" in data
  {
    var c := SpaceColumns;
    assert c[0].field == "data_reduction" && c[1].field == "capacity" && c[2].field == "provisioned" &&
           c[3].field == "shared_space" && c[4].field == "system" && c[5].field == "volumes" && c[6].field == "volumes";
    if "data_reduction" in data && "capacity" in data && "provisioned" in data &&
       "shared_space" in data && "system" in data && "volumes" in data {
      forall j | 0 <= j < |c| ensures c[j].field in data {
        assert j == 0 || j == 1 || j == 2 || j == 3 || j == 4 || j == 5 || j == 6;
      }
    }
  }

  /** The four space families in the order yielded (capacity first), each sample carrying the field
    * it is named after, except that `snapshots` repeats `volumes`; any absent field fails the call. */
  lemma SpaceFamilies(api: LegacyApi)
    requires First(api.space).Ok?
    ensures var data := api.space.data[0];
            SpaceOutput(api).Ok? <==>
              "data_reduction" in data && "capacity" in data && "provisioned" in data &&
              "shared_space" in data && "system" in data && "volumes" in data
    ensures var data := api.space.data[0];
            SpaceOutput(api).Ok? ==>
              (SpaceOutput(api).value ==
                [Snapshot(CapacityFamily, [], [Sample([], data["capacity"])]),
                 Snapshot(ReductionFamily, [], [Sample([], data["data_reduction"])]),
                 Snapshot(ProvisionedFamily, [], [Sample([], data["provisioned"])]),
                 Snapshot(UsedFamily, ["dimension"],
                   [Sample(["shared"], data["shared_space"]), Sample(["system"], data["system"]),
                    Sample(["volumes"], data["volumes"]), Sample(["snapshots"], data["volumes"])])])
  {
    var data := api.space.data[0];
    CellsSucceedByKey(data, [], SpaceColumns);
    SpaceFields(data);
    if SpaceOutput(api).Ok? {
      CellsAllPresent(data, [], SpaceColumns);
      var s := Cells(data, [], SpaceColumns, ByKey).value;
      assert s[0] == Sample([], data["data_reduction"]) && s[1] == Sample([], data["capacity"]) &&
             s[2] == Sample([], data["provisioned"]) && s[3] == Sample(["shared"], data["shared_space"]) &&
             s[4] == Sample(["system"], data["system"]) && s[5] == Sample(["volumes"], data["volumes"]) &&
             s[6] == Sample(["snapshots"], data["volumes"]);
      assert s[3..] == [s[3], s[4], s[5], s[6]];
    }
  }

  // ---------------------------------------------------------------- array_perf

  /** The `add_metric` calls of `array_perf`, in order. */
  const PerfColumns: seq<Column> := [
    Column(["read"], "usec_per_read_op", PassThrough), Column(["write"], "usec_per_write_op", PassThrough),
    Column(["read"], "reads_per_sec", PassThrough), Column(["write"], "writes_per_sec", PassThrough),
    Column(["read"], "output_per_sec", PassThrough), Column(["write"], "input_per_sec", PassThrough),
    Column([], "usec_per_mirrored_write_op", PassThrough), Column([], "mirrored_writes_per_sec", PassThrough),
    Column([], "mirrored_input_per_sec", PassThrough)]

  const PerfFamilies: seq<string> := [
    "purefa_performance_latency_usec", "purefa_performance_iops", "purefa_performance_throughput_bytes",
    "purefa_mirror_write_latency_usec", "purefa_mirror_write_iops", "purefa_mirror_write_bytes"]

  function PerfOutput(api: LegacyApi): Result<seq<Snapshot>>
  {
    match First(api.monitor)
    case Err(f) => Err(f)
    case Ok(data) =>
      match Cells(data, [], PerfColumns, ByKey)
      case Err(f) => Err(f)
      case Ok(s) =>
        CellsShape(data, [], PerfColumns, ByKey);
        Ok([Snapshot(PerfFamilies[0], ["dimension"], s[0..2]), Snapshot(PerfFamilies[1], ["dimension"], s[2..4]),
            Snapshot(PerfFamilies[2], ["dimension"], s[4..6]), Snapshot(PerfFamilies[3], [], [s[6]]),
            Snapshot(PerfFamilies[4], [], [s[7]]), Snapshot(PerfFamilies[5], [], [s[8]])])
  }

  /** `array_perf` subscripts exactly these fields. */
  lemma PerfFields(data: Record)
    ensures FieldsIn(data, PerfColumns) <==>
              "usec_per_read_op" in data && "usec_per_write_op" in data && "reads_per_sec" in data &&
              "writes_per_sec" in data && "output_per_sec" in data && "input_per_sec" in data &&
              "usec_per_mirrored_write_op" in data && "mirrored_writes_per_sec" in data && "mirrored_input_per_sec" in data
  {
    var c := PerfColumns;
    assert c[0].field == "usec_per_read_op" && c[1].field == "usec_per_write_op" && c[2].field == "reads_per_sec" &&
           c[3].field == "writes_per_sec" && c[4].field == "output_per_sec" && c[5].field == "input_per_sec" &&
           c[6].field == "usec_per_mirrored_write_op" && c[7].field == "mirrored_writes_per_sec" &&
           c[8].field == "mirrored_input_per_sec";
    if "usec_per_read_op" in data && "usec_per_write_op" in data && "reads_per_sec" in data &&
       "writes_per_sec" in data && "output_per_sec" in data && "input_per_sec" in data &&
       "usec_per_mirrored_write_op" in data && "mirrored_writes_per_sec" in data && "mirrored_input_per_sec" in data {
      forall j | 0 <= j < |c| ensures c[j].field in data {
        assert j == 0 || j == 1 || j == 2 || j == 3 || j == 4 || j == 5 || j == 6 || j == 7 || j == 8;
      }
    }
  }

  /** The six performance families: read is the output direction and write the input one, so the
    * throughput family carries `output_per_sec` as `read` and `input_per_sec` as `write`; the
    * mirror families have no labels; any absent field fails the call. */
  lemma PerfFamiliesShape(api: LegacyApi)
    requires First(api.monitor).Ok?
    ensures PerfOutput(api).Ok? <==> FieldsIn(api.monitor.data[0], PerfColumns)
    ensures var data := api.monitor.data[0];
            PerfOutput(api).Ok? ==>
              "usec_per_read_op" in data && "usec_per_write_op" in data && "reads_per_sec" in data &&
              "writes_per_sec" in data && "output_per_sec" in data && "input_per_sec" in data &&
              "usec_per_mirrored_write_op" in data && "mirrored_writes_per_sec" in data && "mirrored_input_per_sec" in data &&
              PerfOutput(api).value ==
                [Snapshot(PerfFamilies[0], ["dimension"], [Sample(["read"], data["usec_per_read_op"]), Sample(["write"], data["usec_per_write_op"])]),
                 Snapshot(PerfFamilies[1], ["dimension"], [Sample(["read"], data["reads_per_sec"]), Sample(["write"], data["writes_per_sec"])]),
                 Snapshot(PerfFamilies[2], ["dimension"], [Sample(["read"], data["output_per_sec"]), Sample(["write"], data["input_per_sec"])]),
                 Snapshot(PerfFamilies[3], [], [Sample([], data["usec_per_mirrored_write_op"])]),
                 Snapshot(PerfFamilies[4], [], [Sample([], data["mirrored_writes_per_sec"])]),
                 Snapshot(PerfFamilies[5], [], [Sample([], data["mirrored_input_per_sec"])])]
  {
    var data := api.monitor.data[0];
    CellsSucceedByKey(data, [], PerfColumns);
    PerfFields(data);
    if PerfOutput(api).Ok? {
      CellsAllPresent(data, [], PerfColumns);
      var s := Cells(data, [], PerfColumns, ByKey).value;
      assert s[0] == Sample(["read"], data["usec_per_read_op"]) && s[1] == Sample(["write"], data["usec_per_write_op"]);
      assert s[2] == Sample(["read"], data["reads_per_sec"]) && s[3] == Sample(["write"], data["writes_per_sec"]);
      assert s[4] == Sample(["read"], data["output_per_sec"]) && s[5] == Sample(["write"], data["input_per_sec"]);
      assert s[6] == Sample([], data["usec_per_mirrored_write_op"]) && s[7] == Sample([], data["mirrored_writes_per_sec"]);
      assert s[8] == Sample([], data["mirrored_input_per_sec"]);
      assert s[0..2] == [s[0], s[1]] && s[2..4] == [s[2], s[3]] && s[4..6] == [s[4], s[5]];
    }
  }

  /** The six read/write `add_metric` calls of `array_perf`. */
  method AddDirections(data: Record, latency: MetricFamily, iops: MetricFamily, throughput: MetricFamily) returns (out: Outcome)
    requires latency != iops && latency != throughput && iops != throughput
    requires latency.samples == [] && iops.samples == [] && throughput.samples == []
    modifies latency, iops, throughput
    ensures out.Pass? <==>
              "usec_per_read_op" in data && "usec_per_write_op" in data && "reads_per_sec" in data &&
              "writes_per_sec" in data && "output_per_sec" in data && "input_per_sec" in data
    ensures out.Fail? ==> Cells(data, [], PerfColumns, ByKey) == Err(out.error)
    ensures out.Pass? ==>
              latency.samples == [Sample(["read"], data["usec_per_read_op"]), Sample(["write"], data["usec_per_write_op"])] &&
              iops.samples == [Sample(["read"], data["reads_per_sec"]), Sample(["write"], data["writes_per_sec"])] &&
              throughput.samples == [Sample(["read"], data["output_per_sec"]), Sample(["write"], data["input_per_sec"])]
  {
    out := AddReadWrite(data, latency, 0);
    if out.Fail? {
      return;
    }
    out := AddReadWrite(data, iops, 2);
    if out.Fail? {
      return;
    }
    assert forall j :: 0 <= j < 4 ==> PerfColumns[j].field in data by {
      forall j | 0 <= j < 4 ensures PerfColumns[j].field in data {
        assert j == 0 || j == 1 || j == 2 || j == 3;
      }
    }
    out := AddReadWrite(data, throughput, 4);
  }

  /** One family's read and write `add_metric` calls of `array_perf`: columns `k` and `k + 1`. */
  method AddReadWrite(data: Record, fam: MetricFamily, k: nat) returns (out: Outcome)
    requires k + 1 < |PerfColumns| && forall j :: 0 <= j < k ==> PerfColumns[j].field in data
    modifies fam
    ensures out.Pass? <==> PerfColumns[k].field in data && PerfColumns[k + 1].field in data
    ensures out.Fail? ==> Cells(data, [], PerfColumns, ByKey) == Err(out.error)
    ensures out.Pass? ==>
              fam.samples == old(fam.samples) + [Sample(["read"], data[PerfColumns[k].field]), Sample(["write"], data[PerfColumns[k + 1].field])]
  {
    out := AddField(fam, ["read"], data, PerfColumns[k].field);
    if out.Fail? {
      CellsFirstMissing(data, [], PerfColumns, k);
      return;
    }
    out := AddField(fam, ["write"], data, PerfColumns[k + 1].field);
    if out.Fail? {
      CellsFirstMissing(data, [], PerfColumns, k + 1);
      return;
    }
  }

  /** The three mirrored-write `add_metric` calls of `array_perf`, after the read/write ones. */
  method AddMirrors(data: Record, latency: MetricFamily, iops: MetricFamily, throughput: MetricFamily) returns (out: Outcome)
    requires latency != iops && latency != throughput && iops != throughput
    requires "usec_per_read_op" in data && "usec_per_write_op" in data && "reads_per_sec" in data &&
             "writes_per_sec" in data && "output_per_sec" in data && "input_per_sec" in data
    requires latency.samples == [] && iops.samples == [] && throughput.samples == []
    modifies latency, iops, throughput
    ensures out.Pass? <==> "usec_per_mirrored_write_op" in data && "mirrored_writes_per_sec" in data && "mirrored_input_per_sec" in data
    ensures out.Fail? ==> Cells(data, [], PerfColumns, ByKey) == Err(out.error)
    ensures out.Pass? ==>
              latency.samples == [Sample([], data["usec_per_mirrored_write_op"])] &&
              iops.samples == [Sample([], data["mirrored_writes_per_sec"])] &&
              throughput.samples == [Sample([], data["mirrored_input_per_sec"])]
  {
    out := AddField(latency, [], data, "usec_per_mirrored_write_op");
    if out.Fail? {
      CellsFirstMissing(data, [], PerfColumns, 6);
      return;
    }
    out := AddField(iops, [], data, "mirrored_writes_per_sec");
    if out.Fail? {
      CellsFirstMissing(data, [], PerfColumns, 7);
      return;
    }
    out := AddField(throughput, [], data, "mirrored_input_per_sec");
    if out.Fail? {
      CellsFirstMissing(data, [], PerfColumns, 8);
      return;
    }
  }

  /** The reduction, capacity and provisioned `add_metric` calls of `array_space`. */
  method AddTotals(data: Record, reduction: MetricFamily, capacity: MetricFamily, provisioned: MetricFamily) returns (out: Outcome)
    requires reduction != capacity && reduction != provisioned && capacity != provisioned
    modifies reduction, capacity, provisioned
    ensures out.Pass? <==> "data_reduction" in data && "capacity" in data && "provisioned" in data
    ensures out.Fail? ==> Cells(data, [], SpaceColumns, ByKey) == Err(out.error)
    ensures out.Pass? ==>
              reduction.samples == old(reduction.samples) + [Sample([], data["data_reduction"])] &&
              capacity.samples == old(capacity.samples) + [Sample([], data["capacity"])] &&
              provisioned.samples == old(provisioned.samples) + [Sample([], data["provisioned"])]
  {
    out := AddField(reduction, [], data, "data_reduction");
    if out.Fail? {
      CellsFirstMissing(data, [], SpaceColumns, 0);
      return;
    }
    out := AddField(capacity, [], data, "capacity");
    if out.Fail? {
      CellsFirstMissing(data, [], SpaceColumns, 1);
      return;
    }
    out := AddField(provisioned, [], data, "provisioned");
    if out.Fail? {
      CellsFirstMissing(data, [], SpaceColumns, 2);
      return;
    }
  }

  /** The four `used` dimensions of `array_space`, after the totals. */
  method AddUsed(data: Record, used: MetricFamily) returns (out: Outcome)
    requires "data_reduction" in data && "capacity" in data && "provisioned" in data
    modifies used
    ensures out.Pass? <==> "shared_space" in data && "system" in data && "volumes" in data
    ensures out.Fail? ==> Cells(data, [], SpaceColumns, ByKey) == Err(out.error)
    ensures out.Pass? ==>
              used.samples == old(used.samples) +
                [Sample(["shared"], data["shared_space"]), Sample(["system"], data["system"]),
                 Sample(["volumes"], data["volumes"]), Sample(["snapshots"], data["volumes"])]
  {
    out := AddField(used, ["shared"], data, "shared_space");
    if out.Fail? {
      CellsFirstMissing(data, [], SpaceColumns, 3);
      return;
    }
    out := AddField(used, ["system"], data, "system");
    if out.Fail? {
      CellsFirstMissing(data, [], SpaceColumns, 4);
      return;
    }
    out := AddField(used, ["volumes"], data, "volumes");
    if out.Fail? {
      CellsFirstMissing(data, [], SpaceColumns, 5);
      return;
    }
    out := AddField(used, ["snapshots"], data, "volumes");
  }

  /** The space families built from samples that carry the fields they are named after. */
  lemma SpaceOutputIs(api: LegacyApi, reduction: seq<Sample>, capacity: seq<Sample>, provisioned: seq<Sample>, used: seq<Sample>)
    requires First(api.space).Ok?
    requires var data := api.space.data[0];
             "data_reduction" in data && "capacity" in data && "provisioned" in data &&
             "shared_space" in data && "system" in data && "volumes" in data &&
             reduction == [Sample([], data["data_reduction"])] && capacity == [Sample([], data["capacity"])] &&
             provisioned == [Sample([], data["provisioned"])] &&
             used == [Sample(["shared"], data["shared_space"]), Sample(["system"], data["system"]),
                      Sample(["volumes"], data["volumes"]), Sample(["snapshots"], data["volumes"])]
    ensures SpaceOutput(api) == Ok([Snapshot(CapacityFamily, [], capacity), Snapshot(ReductionFamily, [], reduction),
                                    Snapshot(ProvisionedFamily, [], provisioned), Snapshot(UsedFamily, ["dimension"], used)])
  {
    SpaceFamilies(api);
  }

  /** The performance families built from samples that carry the fields they are named after. */
  lemma PerfOutputIs(api: LegacyApi, latency: seq<Sample>, iops: seq<Sample>, throughput: seq<Sample>,
                     mirrorLatency: seq<Sample>, mirrorIops: seq<Sample>, mirrorThroughput: seq<Sample>)
    requires First(api.monitor).Ok?
    requires var data := api.monitor.data[0];
             "usec_per_read_op" in data && "usec_per_write_op" in data && "reads_per_sec" in data &&
             "writes_per_sec" in data && "output_per_sec" in data && "input_per_sec" in data &&
             "usec_per_mirrored_write_op" in data && "mirrored_writes_per_sec" in data && "mirrored_input_per_sec" in data &&
             latency == [Sample(["read"], data["usec_per_read_op"]), Sample(["write"], data["usec_per_write_op"])] &&
             iops == [Sample(["read"], data["reads_per_sec"]), Sample(["write"], data["writes_per_sec"])] &&
             throughput == [Sample(["read"], data["output_per_sec"]), Sample(["write"], data["input_per_sec"])] &&
             mirrorLatency == [Sample([], data["usec_per_mirrored_write_op"])] &&
             mirrorIops == [Sample([], data["mirrored_writes_per_sec"])] &&
             mirrorThroughput == [Sample([], data["mirrored_input_per_sec"])]
    ensures PerfOutput(api) == Ok([Snapshot(PerfFamilies[0], ["dimension"], latency), Snapshot(PerfFamilies[1], ["dimension"], iops),
                                   Snapshot(PerfFamilies[2], ["dimension"], throughput), Snapshot(PerfFamilies[3], [], mirrorLatency),
                                   Snapshot(PerfFamilies[4], [], mirrorIops), Snapshot(PerfFamilies[5], [], mirrorThroughput)])
  {
    PerfFields(api.monitor.data[0]);
    PerfFamiliesShape(api);
  }

  /** The first missing counter is the error `array_perf` raises. */
  lemma PerfOutputFails(api: LegacyApi, f: Failure)
    requires First(api.monitor).Ok? && Cells(api.monitor.data[0], [], PerfColumns, ByKey) == Err(f)
    ensures PerfOutput(api) == Err(f)
  {
  }

  // ---------------------------------------------------------------- vol_space and vol_perf

  /** Which of the two per-volume generators. */
  datatype VolumeKind = VolumeSpace | VolumePerformance

  /** The samples one volume adds to each of the generator's three families. */
  datatype Row3 = Row3(first: seq<Sample>, second: seq<Sample>, third: seq<Sample>)

  /** The three families of a generator, in the order they are yielded. */
  function VolumeFamilyNames(kind: VolumeKind): seq<string>
  {
    match kind
    case VolumeSpace => ["purefa_volume_datareduction_ratio", "purefa_volume_size_bytes", "purefa_volume_space_bytes"]
    case VolumePerformance => ["purefa_volume_latency_usec", "purefa_volume_throughput_bytes", "purefa_volume_iops"]
  }

  function VolumeLabelKeys(kind: VolumeKind): seq<seq<string>>
  {
    match kind
    case VolumeSpace => [["volume"], ["volume"], ["volume", "dimension"]]
    case VolumePerformance => [["volume", "dimension"], ["volume", "dimension"], ["volume", "dimension"]]
  }

  /** The subscripted fields of one volume, in `add_metric` order. */
  function VolumeColumns(kind: VolumeKind): seq<Column>
  {
    match kind
    case VolumeSpace => [
      Column([], "data_reduction", PassThrough), Column([], "size", PassThrough),
      Column(["volumes"], "volumes", PassThrough), Column(["snapshots"], "snapshots", PassThrough)]
    case VolumePerformance => [
      Column(["read"], "usec_per_read_op", PassThrough), Column(["write"], "usec_per_write_op", PassThrough),
      Column(["read"], "output_per_sec", PassThrough), Column(["write"], "input_per_sec", PassThrough),
      Column(["read"], "reads_per_sec", PassThrough), Column(["write"], "writes_per_sec", PassThrough)]
  }

  /** `v[key] if key in v else 0`. */
  function Present(v: Record, key: string): Value
  {
    if key in v then v[key] else Num(0)
  }

  /** The samples of one loop iteration: `name` is subscripted before every field. */
  function VolumeRow(kind: VolumeKind, v: Record): Result<Row3>
  {
    match Subscript(v, "name")
    case Err(f) => Err(f)
    case Ok(name) =>
      var n := Text(name);
      match Cells(v, [n], VolumeColumns(kind), ByKey)
      case Err(f) => Err(f)
      case Ok(s) =>
        CellsShape(v, [n], VolumeColumns(kind), ByKey);
        if kind.VolumeSpace? then
          Ok(Row3([s[0]], [s[1]], s[2..] + [Sample([n, "shared"], Present(v, "shared")), Sample([n, "system_space"], Present(v, "system_space"))]))
        else Ok(Row3(s[0..2], s[2..4], s[4..]))
  }

  /** The families' samples after some volumes, and everything yielded so far. */
  datatype VolumeRun = VolumeRun(acc: Row3, yielded: seq<Snapshot>)

  /** The three families as they stand, in the order yielded. */
  function Yield(kind: VolumeKind, acc: Row3): seq<Snapshot>
  {
    var names := VolumeFamilyNames(kind);
    var keys := VolumeLabelKeys(kind);
    [Snapshot(names[0], keys[0], acc.first), Snapshot(names[1], keys[1], acc.second), Snapshot(names[2], keys[2], acc.third)]
  }

  /** The loop over the volumes: each iteration adds its samples, then yields all three families. */
  function RunVolumes(kind: VolumeKind, vols: seq<Record>): Result<VolumeRun>
  {
    if |vols| == 0 then Ok(VolumeRun(Row3([], [], []), []))
    else
      match RunVolumes(kind, vols[..|vols| - 1])
      case Err(f) => Err(f)
      case Ok(run) =>
        match VolumeRow(kind, vols[|vols| - 1])
        case Err(f) => Err(f)
        case Ok(row) =>
          var acc := Row3(run.acc.first + row.first, run.acc.second + row.second, run.acc.third + row.third);
          Ok(VolumeRun(acc, run.yielded + Yield(kind, acc)))
  }

  function VolumeOutput(kind: VolumeKind, listing: Reply<seq<Record>>): Result<seq<Snapshot>>
  {
    match Listing(listing)
    case Err(f) => Err(f)
    case Ok(vols) => match RunVolumes(kind, vols) case Err(f) => Err(f) case Ok(run) => Ok(run.yielded)
  }

  /** `vol_space` subscripts exactly these fields after `name`. */
  lemma VolumeSpaceFields(v: Record)
    ensures FieldsIn(v, VolumeColumns(VolumeSpace)) <==>
              "data_reduction" in v && "size" in v && "volumes" in v && "snapshots" in v
  {
    var c := VolumeColumns(VolumeSpace);
    assert c[0].field == "data_reduction" && c[1].field == "size" && c[2].field == "volumes" && c[3].field == "snapshots";
    if "data_reduction" in v && "size" in v && "volumes" in v && "snapshots" in v {
      forall j | 0 <= j < |c| ensures c[j].field in v {
        assert j == 0 || j == 1 || j == 2 || j == 3;
      }
    }
  }

  /** `vol_perf` subscripts exactly these fields after `name`. */
  lemma VolumePerformanceFields(v: Record)
    ensures FieldsIn(v, VolumeColumns(VolumePerformance)) <==>
              "usec_per_read_op" in v && "usec_per_write_op" in v && "output_per_sec" in v &&
              "input_per_sec" in v && "reads_per_sec" in v && "writes_per_sec" in v
  {
    var c := VolumeColumns(VolumePerformance);
    assert c[0].field == "usec_per_read_op" && c[1].field == "usec_per_write_op" && c[2].field == "output_per_sec" &&
           c[3].field == "input_per_sec" && c[4].field == "reads_per_sec" && c[5].field == "writes_per_sec";
    if "usec_per_read_op" in v && "usec_per_write_op" in v && "output_per_sec" in v &&
       "input_per_sec" in v && "reads_per_sec" in v && "writes_per_sec" in v {
      forall j | 0 <= j < |c| ensures c[j].field in v {
        assert j == 0 || j == 1 || j == 2 || j == 3 || j == 4 || j == 5;
      }
    }
  }

  /** A volume's samples: present fields pass unchanged, `shared` and `system_space` read 0 only
    * when the key is absent (a present `None` stays), and the row fails on any absent field. */
  lemma VolumeSpaceRow(v: Record)
    ensures VolumeRow(VolumeSpace, v).Ok? <==>
              "name" in v && "data_reduction" in v && "size" in v && "volumes" in v && "snapshots" in v
    ensures VolumeRow(VolumeSpace, v).Ok? ==>
              var n := Text(v["name"]);
              VolumeRow(VolumeSpace, v).value ==
                Row3([Sample([n], v["data_reduction"])], [Sample([n], v["size"])],
                     [Sample([n, "volumes"], v["volumes"]), Sample([n, "snapshots"], v["snapshots"]),
                      Sample([n, "shared"], if "shared" in v then v["shared"] else Num(0)),
                      Sample([n, "system_space"], if "system_space" in v then v["system_space"] else Num(0))])
  {
    if "name" in v {
      var n := Text(v["name"]);
      CellsSucceedByKey(v, [n], VolumeColumns(VolumeSpace));
      VolumeSpaceFields(v);
      if VolumeRow(VolumeSpace, v).Ok? {
        CellsAllPresent(v, [n], VolumeColumns(VolumeSpace));
        var s := Cells(v, [n], VolumeColumns(VolumeSpace), ByKey).value;
        assert s[0] == Sample([n], v["data_reduction"]) && s[1] == Sample([n], v["size"]);
        assert s[2] == Sample([n, "volumes"], v["volumes"]) && s[3] == Sample([n, "snapshots"], v["snapshots"]);
        assert s[2..] == [s[2], s[3]];
      }
    }
  }

  /** A volume's performance samples: latency, throughput (read is `output_per_sec`) and IOPS;
    * the row fails on any absent field. */
  lemma VolumePerformanceRow(v: Record)
    ensures VolumeRow(VolumePerformance, v).Ok? <==>
              "name" in v && "usec_per_read_op" in v && "usec_per_write_op" in v && "output_per_sec" in v &&
              "input_per_sec" in v && "reads_per_sec" in v && "writes_per_sec" in v
    ensures VolumeRow(VolumePerformance, v).Ok? ==>
              var n := Text(v["name"]);
              VolumeRow(VolumePerformance, v).value ==
                Row3([Sample([n, "read"], v["usec_per_read_op"]), Sample([n, "write"], v["usec_per_write_op"])],
                     [Sample([n, "read"], v["output_per_sec"]), Sample([n, "write"], v["input_per_sec"])],
                     [Sample([n, "read"], v["reads_per_sec"]), Sample([n, "write"], v["writes_per_sec"])])
  {
    if "name" in v {
      var n := Text(v["name"]);
      CellsSucceedByKey(v, [n], VolumeColumns(VolumePerformance));
      VolumePerformanceFields(v);
      if VolumeRow(VolumePerformance, v).Ok? {
        CellsAllPresent(v, [n], VolumeColumns(VolumePerformance));
        var s := Cells(v, [n], VolumeColumns(VolumePerformance), ByKey).value;
        assert s[0] == Sample([n, "read"], v["usec_per_read_op"]) && s[1] == Sample([n, "write"], v["usec_per_write_op"]);
        assert s[2] == Sample([n, "read"], v["output_per_sec"]) && s[3] == Sample([n, "write"], v["input_per_sec"]);
        assert s[4] == Sample([n, "read"], v["reads_per_sec"]) && s[5] == Sample([n, "write"], v["writes_per_sec"]);
        assert s[0..2] == [s[0], s[1]] && s[2..4] == [s[2], s[3]] && s[4..] == [s[4], s[5]];
      }
    }
  }

  /** The generator yields three families per volume, so nothing at all for an empty listing,
    * and the last three yielded hold every volume's samples. */
  lemma {:induction false} VolumeYields(kind: VolumeKind, vols: seq<Record>)
    requires RunVolumes(kind, vols).Ok?
    ensures |RunVolumes(kind, vols).value.yielded| == 3 * |vols|
    ensures |vols| > 0 ==> RunVolumes(kind, vols).value.yielded[3 * |vols| - 3..] == Yield(kind, RunVolumes(kind, vols).value.acc)
    decreases |vols|
  {
    if |vols| > 0 {
      VolumeYields(kind, vols[..|vols| - 1]);
    }
  }

  /** What is yielded after the first `k` volumes is a prefix of what the whole loop yields. */
  lemma {:induction false} VolumeYieldsPrefix(kind: VolumeKind, vols: seq<Record>, k: nat)
    requires RunVolumes(kind, vols).Ok? && k <= |vols|
    ensures RunVolumes(kind, vols[..k]).Ok? && RunVolumes(kind, vols[..k]).value.yielded <= RunVolumes(kind, vols).value.yielded
    decreases |vols|
  {
    if k == |vols| {
      assert vols[..k] == vols;
    } else {
      var n := |vols| - 1;
      assert vols[..n][..k] == vols[..k];
      VolumeYieldsPrefix(kind, vols[..n], k);
    }
  }

  /** The generator succeeds exactly when every volume's iteration does. */
  lemma {:induction false} RunVolumesSucceeds(kind: VolumeKind, vols: seq<Record>)
    ensures RunVolumes(kind, vols).Ok? <==> forall i :: 0 <= i < |vols| ==> VolumeRow(kind, vols[i]).Ok?
    decreases |vols|
  {
    if |vols| > 0 {
      var n := |vols| - 1;
      RunVolumesSucceeds(kind, vols[..n]);
      assert forall i :: 0 <= i < n ==> vols[..n][i] == vols[i];
    }
  }

  lemma {:induction false} RunVolumesPrefixFailure(kind: VolumeKind, vols: seq<Record>, k: nat)
    requires k <= |vols| && RunVolumes(kind, vols[..k]).Err?
    ensures RunVolumes(kind, vols) == RunVolumes(kind, vols[..k])
    decreases |vols|
  {
    if k < |vols| {
      var n := |vols| - 1;
      assert vols[..n][..k] == vols[..k];
      RunVolumesPrefixFailure(kind, vols[..n], k);
    } else {
      assert vols[..k] == vols;
    }
  }

  /** One iteration of `vol_space`: six `add_metric` calls. */
  method AddVolumeSpace(v: Record, dr: MetricFamily, size: MetricFamily, alloc: MetricFamily) returns (out: Outcome)
    requires dr != size && dr != alloc && size != alloc
    modifies dr, size, alloc
    ensures out.Pass? <==> VolumeRow(VolumeSpace, v).Ok?
    ensures out.Fail? ==> out.error == VolumeRow(VolumeSpace, v).error
    ensures out.Pass? ==> var row := VolumeRow(VolumeSpace, v).value;
              dr.samples == old(dr.samples) + row.first && size.samples == old(size.samples) + row.second &&
              alloc.samples == old(alloc.samples) + row.third
  {
    VolumeSpaceRow(v);
    var name := Subscript(v, "name");
    if name.Err? {
      return Fail(name.error);
    }
    var n := Text(name.value);
    ghost var cols := VolumeColumns(VolumeSpace);
    out := AddField(dr, [n], v, "data_reduction");
    if out.Fail? {
      CellsFirstMissing(v, [n], cols, 0);
      return;
    }
    out := AddField(size, [n], v, "size");
    if out.Fail? {
      CellsFirstMissing(v, [n], cols, 1);
      return;
    }
    out := AddField(alloc, [n, "volumes"], v, "volumes");
    if out.Fail? {
      CellsFirstMissing(v, [n], cols, 2);
      return;
    }
    out := AddField(alloc, [n, "snapshots"], v, "snapshots");
    if out.Fail? {
      CellsFirstMissing(v, [n], cols, 3);
      return;
    }
    alloc.AddMetric([n, "shared"], if "shared" in v then v["shared"] else Num(0));
    alloc.AddMetric([n, "system_space"], if "system_space" in v then v["system_space"] else Num(0));
  }

  /** One iteration of `vol_perf`: six `add_metric` calls. */
  method AddVolumePerformance(v: Record, latency: MetricFamily, throughput: MetricFamily, iops: MetricFamily) returns (out: Outcome)
    requires latency != throughput && latency != iops && throughput != iops
    modifies latency, throughput, iops
    ensures out.Pass? <==> VolumeRow(VolumePerformance, v).Ok?
    ensures out.Fail? ==> out.error == VolumeRow(VolumePerformance, v).error
    ensures out.Pass? ==> var row := VolumeRow(VolumePerformance, v).value;
              latency.samples == old(latency.samples) + row.first && throughput.samples == old(throughput.samples) + row.second &&
              iops.samples == old(iops.samples) + row.third
  {
    VolumePerformanceRow(v);
    var name := Subscript(v, "name");
    if name.Err? {
      return Fail(name.error);
    }
    var n := Text(name.value);
    ghost var cols := VolumeColumns(VolumePerformance);
    out := AddField(latency, [n, "read"], v, "usec_per_read_op");
    if out.Fail? {
      CellsFirstMissing(v, [n], cols, 0);
      return;
    }
    out := AddField(latency, [n, "write"], v, "usec_per_write_op");
    if out.Fail? {
      CellsFirstMissing(v, [n], cols, 1);
      return;
    }
    out := AddField(throughput, [n, "read"], v, "output_per_sec");
    if out.Fail? {
      CellsFirstMissing(v, [n], cols, 2);
      return;
    }
    out := AddField(throughput, [n, "write"], v, "input_per_sec");
    if out.Fail? {
      CellsFirstMissing(v, [n], cols, 3);
      return;
    }
    out := AddField(iops, [n, "read"], v, "reads_per_sec");
    if out.Fail? {
      CellsFirstMissing(v, [n], cols, 4);
      return;
    }
    out := AddField(iops, [n, "write"], v, "writes_per_sec");
    if out.Fail? {
      CellsFirstMissing(v, [n], cols, 5);
      return;
    }
  }

  /** One loop iteration of `vol_space` or `vol_perf`. */
  method AddVolume(kind: VolumeKind, v: Record, f1: MetricFamily, f2: MetricFamily, f3: MetricFamily) returns (out: Outcome)
    requires f1 != f2 && f1 != f3 && f2 != f3
    modifies f1, f2, f3
    ensures out.Pass? <==> VolumeRow(kind, v).Ok?
    ensures out.Fail? ==> out.error == VolumeRow(kind, v).error
    ensures out.Pass? ==> var row := VolumeRow(kind, v).value;
              f1.samples == old(f1.samples) + row.first && f2.samples == old(f2.samples) + row.second &&
              f3.samples == old(f3.samples) + row.third
  {
    if kind.VolumeSpace? {
      out := AddVolumeSpace(v, f1, f2, f3);
    } else {
      out := AddVolumePerformance(v, f1, f2, f3);
    }
  }

  /** An iteration that fails ends the loop with its failure. */
  lemma RunVolumesFailsAt(kind: VolumeKind, vols: seq<Record>, i: nat)
    requires i < |vols| && RunVolumes(kind, vols[..i]).Ok? && VolumeRow(kind, vols[i]).Err?
    ensures RunVolumes(kind, vols) == Err(VolumeRow(kind, vols[i]).error)
  {
    assert vols[..i + 1][..i] == vols[..i];
    RunVolumesPrefixFailure(kind, vols, i + 1);
  }

  /** An iteration that succeeds adds its row and yields the three families. */
  lemma RunVolumesStep(kind: VolumeKind, vols: seq<Record>, i: nat, before: Row3, yielded: seq<Snapshot>, after: Row3)
    requires i < |vols| && RunVolumes(kind, vols[..i]) == Ok(VolumeRun(before, yielded)) && VolumeRow(kind, vols[i]).Ok?
    requires var row := VolumeRow(kind, vols[i]).value;
             after == Row3(before.first + row.first, before.second + row.second, before.third + row.third)
    ensures RunVolumes(kind, vols[..i + 1]) == Ok(VolumeRun(after, yielded + Yield(kind, after)))
  {
    assert vols[..i + 1][..i] == vols[..i];
  }

  /** The loop of `vol_space` / `vol_perf` over three fresh families. */
  method WalkVolumes(kind: VolumeKind, vols: seq<Record>, f1: MetricFamily, f2: MetricFamily, f3: MetricFamily)
      returns (r: Result<seq<Snapshot>>)
    requires f1 != f2 && f1 != f3 && f2 != f3
    requires f1.name == VolumeFamilyNames(kind)[0] && f2.name == VolumeFamilyNames(kind)[1] && f3.name == VolumeFamilyNames(kind)[2]
    requires f1.labelKeys == VolumeLabelKeys(kind)[0] && f2.labelKeys == VolumeLabelKeys(kind)[1] && f3.labelKeys == VolumeLabelKeys(kind)[2]
    requires f1.samples == [] && f2.samples == [] && f3.samples == []
    modifies f1, f2, f3
    ensures r.Ok? <==> RunVolumes(kind, vols).Ok?
    ensures r.Err? ==> r.error == RunVolumes(kind, vols).error
    ensures r.Ok? ==> r.value == RunVolumes(kind, vols).value.yielded
  {
    var yielded: seq<Snapshot> := [];
    var i := 0;
    while i < |vols|
      invariant 0 <= i <= |vols|
      invariant RunVolumes(kind, vols[..i]) == Ok(VolumeRun(Row3(f1.samples, f2.samples, f3.samples), yielded))
    {
      ghost var before := Row3(f1.samples, f2.samples, f3.samples);
      var out := AddVolume(kind, vols[i], f1, f2, f3);
      if out.Fail? {
        RunVolumesFailsAt(kind, vols, i);
        return Err(out.error);
      }
      RunVolumesStep(kind, vols, i, before, yielded, Row3(f1.samples, f2.samples, f3.samples));
      assert Yield(kind, Row3(f1.samples, f2.samples, f3.samples)) == [f1.Snap(), f2.Snap(), f3.Snap()];
      yielded := yielded + [f1.Snap(), f2.Snap(), f3.Snap()];
      i := i + 1;
    }
    assert vols[..i] == vols;
    r := Ok(yielded);
  }

  // ---------------------------------------------------------------- collect

  /** What the seven generators yield, in the order `collect` runs them. */
  function Parts(api: LegacyApi): seq<Result<seq<Snapshot>>>
  {
    [InfoOutput(api), HwOutput(api), EventsOutput(api), SpaceOutput(api), PerfOutput(api),
     VolumeOutput(VolumeSpace, api.volumeSpace), VolumeOutput(VolumePerformance, api.volumeMonitor)]
  }

  /** Everything `collect` yields, or the first exception a generator raises. */
  function LegacyScrape(api: LegacyApi): Result<seq<Snapshot>>
  {
    Joined(Parts(api))
  }

  /** A scrape succeeds exactly when all seven generators do, and then holds one info family,
    * five hardware, one events, four space and six performance families, then three families
    * per volume of each of the two volume listings. */
  lemma ScrapeSize(api: LegacyApi)
    ensures LegacyScrape(api).Ok? <==>
              InfoOutput(api).Ok? && HwOutput(api).Ok? && EventsOutput(api).Ok? && SpaceOutput(api).Ok? &&
              PerfOutput(api).Ok? && VolumeOutput(VolumeSpace, api.volumeSpace).Ok? &&
              VolumeOutput(VolumePerformance, api.volumeMonitor).Ok?
    ensures LegacyScrape(api).Ok? ==>
              |LegacyScrape(api).value| == 17 + 3 * |api.volumeSpace.data| + 3 * |api.volumeMonitor.data|
  {
    ChainSeven(Parts(api));
    FixedSizes(api);
    VolumeOutputSize(VolumeSpace, api.volumeSpace);
    VolumeOutputSize(VolumePerformance, api.volumeMonitor);
  }

  /** The first five generators yield a fixed number of families each. */
  lemma FixedSizes(api: LegacyApi)
    ensures InfoOutput(api).Ok? ==> |InfoOutput(api).value| == 1
    ensures HwOutput(api).Ok? ==> |HwOutput(api).value| == 5
    ensures EventsOutput(api).Ok? ==> |EventsOutput(api).value| == 1
    ensures SpaceOutput(api).Ok? ==> |SpaceOutput(api).value| == 4
    ensures PerfOutput(api).Ok? ==> |PerfOutput(api).value| == 6
  {
  }

  /** A volume generator that finishes has yielded three families per volume of its listing. */
  lemma VolumeOutputSize(kind: VolumeKind, listing: Reply<seq<Record>>)
    ensures VolumeOutput(kind, listing).Ok? ==> listing.Answered? && |VolumeOutput(kind, listing).value| == 3 * |listing.data|
  {
    if VolumeOutput(kind, listing).Ok? {
      VolumeYields(kind, listing.data);
    }
  }

  /** The first-generation collector: a connection and the generators that read it. */
  class FlasharrayCollector {
    const api: LegacyApi

    constructor (api: LegacyApi)
      ensures this.api == api
    {
      this.api := api;
    }

    /** `array_info`. */
    method ArrayInfo() returns (r: Result<seq<Snapshot>>)
      ensures r == InfoOutput(api)
    {
      var data := Listing(api.identity);
      if data.Err? {
        return Err(data.error);
      }
      var info := InfoFamily(data.value);
      if info.Err? {
        return Err(info.error);
      }
      r := Ok([info.value]);
    }

    /** `array_hw`: five families, one pass over the hardware listing, then five yields. */
    method ArrayHw() returns (r: Result<seq<Snapshot>>)
      ensures r == HwOutput(api)
    {
      var data := Listing(api.hardware);
      if data.Err? {
        return Err(data.error);
      }
      var ch := new MetricFamily(ChassisFamily, []);
      var ct := new MetricFamily(ControllerFamily, ["controller"]);
      var cp := new MetricFamily(ComponentFamily, ["chassis", "controller", "component", "index"]);
      var tm := new MetricFamily(TemperatureFamily, ["chassis", "controller", "sensor"]);
      var pw := new MetricFamily(PowerFamily, ["chassis", "power_supply"]);
      var out := WalkHardware(data.value, ch, ct, cp, tm, pw);
      if out.Fail? {
        return Err(out.error);
      }
      r := Ok([ch.Snap(), ct.Snap(), cp.Snap(), tm.Snap(), pw.Snap()]);
    }

    /** `array_events`: an `elif` chain of three counters over the open alerts. */
    method ArrayEvents() returns (r: Result<seq<Snapshot>>)
      ensures r == EventsOutput(api)
    {
      var data := Listing(api.openMessages);
      if data.Err? {
        return Err(data.error);
      }
      var alerts := data.value;
      var events := new MetricFamily(AlertsFamily, ["severity"]);
      var cCrit, cWarn, cInfo := 0, 0, 0;
      var i := 0;
      while i < |alerts|
        invariant 0 <= i <= |alerts|
        invariant HasSeverity(alerts[..i])
        invariant cCrit == Count(alerts[..i], "current_severity", "critical")
        invariant cWarn == Count(alerts[..i], "current_severity", "warning")
        invariant cInfo == Count(alerts[..i], "current_severity", "info")
      {
        assert alerts[..i + 1][..i] == alerts[..i];
        var sev := Subscript(alerts[i], "current_severity");
        if sev.Err? {
          assert !HasSeverity(alerts) by {
            assert "current_severity" !in alerts[i];
          }
          return Err(sev.error);
        }
        if sev.value == Str("critical") {
          cCrit := cCrit + 1;
        } else if sev.value == Str("warning") {
          cWarn := cWarn + 1;
        } else if sev.value == Str("info") {
          cInfo := cInfo + 1;
        }
        i := i + 1;
      }
      assert alerts[..i] == alerts;
      events.AddMetric(["critical"], Num(cCrit));
      events.AddMetric(["warning"], Num(cWarn));
      events.AddMetric(["info"], Num(cInfo));
      assert events.samples == SeveritySamples(alerts, "current_severity");
      r := Ok([events.Snap()]);
    }

    /** `array_space`: seven `add_metric` calls, then capacity, reduction, provisioned and used. */
    method ArraySpace() returns (r: Result<seq<Snapshot>>)
      ensures r == SpaceOutput(api)
    {
      var got := First(api.space);
      if got.Err? {
        return Err(got.error);
      }
      var data := got.value;
      var reduction := new MetricFamily(ReductionFamily, []);
      var capacity := new MetricFamily(CapacityFamily, []);
      var provisioned := new MetricFamily(ProvisionedFamily, []);
      var used := new MetricFamily(UsedFamily, ["dimension"]);
      var out := AddTotals(data, reduction, capacity, provisioned);
      if out.Fail? {
        return Err(out.error);
      }
      out := AddUsed(data, used);
      if out.Fail? {
        return Err(out.error);
      }
      SpaceOutputIs(api, reduction.samples, capacity.samples, provisioned.samples, used.samples);
      r := Ok([capacity.Snap(), reduction.Snap(), provisioned.Snap(), used.Snap()]);
    }

    /** `array_perf`: nine `add_metric` calls, then the six families. */
    method ArrayPerf() returns (r: Result<seq<Snapshot>>)
      ensures r == PerfOutput(api)
    {
      var got := First(api.monitor);
      if got.Err? {
        return Err(got.error);
      }
      var data := got.value;
      var latency := new MetricFamily(PerfFamilies[0], ["dimension"]);
      var iops := new MetricFamily(PerfFamilies[1], ["dimension"]);
      var throughput := new MetricFamily(PerfFamilies[2], ["dimension"]);
      var mirrorLatency := new MetricFamily(PerfFamilies[3], []);
      var mirrorIops := new MetricFamily(PerfFamilies[4], []);
      var mirrorThroughput := new MetricFamily(PerfFamilies[5], []);
      var out := AddDirections(data, latency, iops, throughput);
      if out.Fail? {
        PerfOutputFails(api, out.error);
        return Err(out.error);
      }
      out := AddMirrors(data, mirrorLatency, mirrorIops, mirrorThroughput);
      if out.Fail? {
        PerfOutputFails(api, out.error);
        return Err(out.error);
      }
      PerfOutputIs(api, latency.samples, iops.samples, throughput.samples,
                   mirrorLatency.samples, mirrorIops.samples, mirrorThroughput.samples);
      r := Ok([latency.Snap(), iops.Snap(), throughput.Snap(), mirrorLatency.Snap(), mirrorIops.Snap(), mirrorThroughput.Snap()]);
    }

    /** `vol_space` (on the space listing) or `vol_perf` (on the monitor listing): the per-volume
      * loop, yielding the three families at the end of every iteration. */
    method VolumeGenerator(kind: VolumeKind) returns (r: Result<seq<Snapshot>>)
      ensures r == VolumeOutput(kind, if kind.VolumeSpace? then api.volumeSpace else api.volumeMonitor)
    {
      var data := Listing(if kind.VolumeSpace? then api.volumeSpace else api.volumeMonitor);
      if data.Err? {
        return Err(data.error);
      }
      var names := VolumeFamilyNames(kind);
      var keys := VolumeLabelKeys(kind);
      var f1 := new MetricFamily(names[0], keys[0]);
      var f2 := new MetricFamily(names[1], keys[1]);
      var f3 := new MetricFamily(names[2], keys[2]);
      r := WalkVolumes(kind, data.value, f1, f2, f3);
    }

    /** `collect`: the seven generators in turn. */
    method Collect() returns (r: Result<seq<Snapshot>>)
      ensures r == LegacyScrape(api)
    {
      ghost var parts := Parts(api);
      var info := ArrayInfo();
      var hw := ArrayHw();
      var events := ArrayEvents();
      var space := ArraySpace();
      var perf := ArrayPerf();
      var volSpace := VolumeGenerator(VolumeSpace);
      var volPerf := VolumeGenerator(VolumePerformance);
      r := Chain(Chain(Chain(Chain(Chain(Chain(Chain(Ok([]), info), hw), events), space), perf), volSpace), volPerf);
      JoinedSeven(parts);
    }
  }

  /** `yield from` seven generators in turn. */
  lemma JoinedSeven(p: seq<Result<seq<Snapshot>>>)
    requires |p| == 7
    ensures Joined(p) == Chain(Chain(Chain(Chain(Chain(Chain(Chain(Ok([]), p[0]), p[1]), p[2]), p[3]), p[4]), p[5]), p[6])
  {
    assert p[..0] == [];
    JoinedSnoc(p, 0);
    JoinedSnoc(p, 1);
    JoinedSnoc(p, 2);
    JoinedSnoc(p, 3);
    JoinedSnoc(p, 4);
    JoinedSnoc(p, 5);
    JoinedSnoc(p, 6);
    assert p[..7] == p;
  }

  /** Seven generators in turn finish exactly when each of them does, and yield what all of
    * them yield. */
  lemma ChainSeven(p: seq<Result<seq<Snapshot>>>)
    requires |p| == 7
    ensures Joined(p).Ok? <==> p[0].Ok? && p[1].Ok? && p[2].Ok? && p[3].Ok? && p[4].Ok? && p[5].Ok? && p[6].Ok?
    ensures Joined(p).Ok? ==>
              |Joined(p).value| == |p[0].value| + |p[1].value| + |p[2].value| + |p[3].value| + |p[4].value| + |p[5].value| + |p[6].value|
  {
    JoinedSeven(p);
  }

  /** Running one more generator chains its output onto what the earlier ones yielded. */
  lemma JoinedSnoc(p: seq<Result<seq<Snapshot>>>, k: nat)
    requires k < |p|
    ensures Joined(p[..k + 1]) == Chain(Joined(p[..k]), p[k])
  {
    assert p[..k + 1][..k] == p[..k];
  }
}
