/** FlashArray hardware health: the component-name grammar and the five families one
  * pass over the hardware listing fills (chassis, controller, component health,
  * temperature and power). */
module FaHardware {
  import opened Strings
  import opened Records
  import opened Families
  import opened FaSource

  // ---------------------------------------------------------------- the name grammar

  /** The text a pattern ending in `$` must match in full: Python's `$` also matches
    * just before one trailing newline. */
  function DollarBody(s: string): (b: string)
    ensures b == s || (b + "\n" == s)
  {
    if |s| > 0 && s[|s| - 1] == '\n' then s[..|s| - 1] else s
  }

  predicate IsUpper(c: char) { 'A' <= c <= 'Z' }

  predicate AllUpper(s: string) { forall i :: 0 <= i < |s| ==> IsUpper(s[i]) }

  /** Length of the longest run of decimal digits at the front of `s`. */
  function DigitRun(s: string): (n: nat)
    ensures n <= |s| && AllDigits(s[..n])
    ensures n < |s| ==> !IsDigit(s[n])
  {
    if |s| == 0 || !IsDigit(s[0]) then 0
    else
      var m := DigitRun(s[1..]);
      assert s[..m + 1] == [s[0]] + s[1..][..m];
      m + 1
  }

  /** Length of the longest run of capital letters at the front of `s`. */
  function UpperRun(s: string): (n: nat)
    ensures n <= |s| && AllUpper(s[..n])
    ensures n < |s| ==> !IsUpper(s[n])
  {
    if |s| == 0 || !IsUpper(s[0]) then 0
    else
      var m := UpperRun(s[1..]);
      assert s[..m + 1] == [s[0]] + s[1..][..m];
      m + 1
  }

  /** Whether a component hangs off a chassis (`CH`) or a controller (`CT`). */
  datatype Slot = ChassisSlot | ControllerSlot

  /** What the three patterns make of a component name: `CH<n>`, `CT<n>`,
    * `(CH|CT)<n>.<TYPE><m>`, or none of them. */
  datatype HwName =
    | ChassisName(index: string)
    | ControllerName(index: string)
    | ComponentName(base: Slot, baseIndex: string, kind: string, index: string)
    | OtherName

  /** The regular expressions `^CH\d+$`, `^CT\d+$` and `^C(H|T)\d+\.[A-Z]+[0-9]+$`, tried in that order. */
  function ParseHwName(name: string): HwName
  {
    ParseBody(DollarBody(name))
  }

  /** `C`, then `H` or `T`, then the rest. */
  function ParseBody(b: string): HwName
  {
    if |b| < 3 || b[0] != 'C' || (b[1] != 'H' && b[1] != 'T') then OtherName
    else ParseRest(if b[1] == 'H' then ChassisSlot else ControllerSlot, b[2..])
  }

  /** After `CH`/`CT`: only digits (a chassis or controller), or digits, a dot and a type with its index. */
  function ParseRest(slot: Slot, rest: string): HwName
  {
    if AllDigits(rest) then (if slot == ChassisSlot then ChassisName(rest) else ControllerName(rest))
    else
      var d := DigitRun(rest);
      if d == 0 || rest[d] != '.' then OtherName else ParseKind(slot, rest[..d], rest[d + 1..])
  }

  /** After the dot: capitals, then digits to the end. */
  function ParseKind(slot: Slot, baseIndex: string, tail: string): HwName
  {
    var u := UpperRun(tail);
    if u == 0 || u == |tail| || !AllDigits(tail[u..]) then OtherName
    else ComponentName(slot, baseIndex, tail[..u], tail[u..])
  }

  /** The names the grammar describes, written out. */
  function Render(h: HwName): string
  {
    match h
    case ChassisName(i) => "CH" + i
    case ControllerName(i) => "CT" + i
    case ComponentName(slot, bi, k, i) => (if slot == ChassisSlot then "CH" else "CT") + (bi + "." + k + i)
    case OtherName => ""
  }

  /** The parts a recognised name may have: non-empty digit runs and a non-empty run of capitals. */
  predicate WellFormedName(h: HwName)
  {
    match h
    case ChassisName(i) => |i| > 0 && AllDigits(i)
    case ControllerName(i) => |i| > 0 && AllDigits(i)
    case ComponentName(_, bi, k, i) => |bi| > 0 && AllDigits(bi) && |k| > 0 && AllUpper(k) && |i| > 0 && AllDigits(i)
    case OtherName => false
  }

  lemma {:induction false} DigitRunOf(a: string, b: string)
    requires AllDigits(a) && (|b| == 0 || !IsDigit(b[0]))
    ensures DigitRun(a + b) == |a|
    decreases |a|
  {
    if |a| > 0 {
      assert (a + b)[1..] == a[1..] + b;
      DigitRunOf(a[1..], b);
    } else {
      assert a + b == b;
    }
  }

  lemma {:induction false} UpperRunOf(a: string, b: string)
    requires AllUpper(a) && (|b| == 0 || !IsUpper(b[0]))
    ensures UpperRun(a + b) == |a|
    decreases |a|
  {
    if |a| > 0 {
      assert (a + b)[1..] == a[1..] + b;
      UpperRunOf(a[1..], b);
    } else {
      assert a + b == b;
    }
  }

  lemma {:induction false} ParseKindRender(slot: Slot, bi: string, k: string, i: string)
    requires |k| > 0 && AllUpper(k) && |i| > 0 && AllDigits(i)
    ensures ParseKind(slot, bi, k + i) == ComponentName(slot, bi, k, i)
  {
    UpperRunOf(k, i);
    assert (k + i)[..|k|] == k && (k + i)[|k|..] == i;
  }

  lemma {:induction false} ParseRestRender(slot: Slot, bi: string, k: string, i: string)
    requires |bi| > 0 && AllDigits(bi) && |k| > 0 && AllUpper(k) && |i| > 0 && AllDigits(i)
    ensures ParseRest(slot, bi + "." + k + i) == ComponentName(slot, bi, k, i)
  {
    var rest := bi + "." + k + i;
    assert rest == bi + ("." + k + i);
    assert rest[|bi|] == '.';
    DigitRunOf(bi, "." + k + i);
    assert rest[..|bi|] == bi;
    assert rest[|bi| + 1..] == k + i;
    ParseKindRender(slot, bi, k, i);
  }

  lemma ParseDigitsRender(slot: Slot, i: string)
    requires |i| > 0 && AllDigits(i)
    ensures ParseRest(slot, i) == (if slot == ChassisSlot then ChassisName(i) else ControllerName(i))
  {
  }

  /** The renderings of recognised names end in a digit, so `$` has no newline to skip. */
  lemma {:induction false} RenderBody(h: HwName)
    requires WellFormedName(h)
    ensures |Render(h)| >= 3 && DollarBody(Render(h)) == Render(h)
    ensures Render(h)[0] == 'C' && Render(h)[1] == (if h.ChassisName? || (h.ComponentName? && h.base == ChassisSlot) then 'H' else 'T')
  {
    var s := Render(h);
    match h
    case ChassisName(i) => assert s[|s| - 1] == i[|i| - 1];
    case ControllerName(i) => assert s[|s| - 1] == i[|i| - 1];
    case ComponentName(_, _, _, i) => assert s[|s| - 1] == i[|i| - 1];
  }

  /** Every well-formed name is recognised as itself. */
  lemma {:induction false} ParseRender(h: HwName)
    requires WellFormedName(h)
    ensures ParseHwName(Render(h)) == h
  {
    var s := Render(h);
    RenderBody(h);
    assert ParseHwName(s) == ParseBody(s);
    match h
    case ChassisName(i) =>
      assert s[2..] == i;
      ParseDigitsRender(ChassisSlot, i);
    case ControllerName(i) =>
      assert s[2..] == i;
      ParseDigitsRender(ControllerSlot, i);
    case ComponentName(slot, bi, k, i) =>
      assert s[2..] == bi + "." + k + i;
      ParseRestRender(slot, bi, k, i);
  }

  lemma {:induction false} ParsedKindRenders(slot: Slot, bi: string, tail: string)
    requires ParseKind(slot, bi, tail) != OtherName
    ensures var h := ParseKind(slot, bi, tail);
            h.ComponentName? && h.base == slot && h.baseIndex == bi && |h.kind| > 0 && AllUpper(h.kind) &&
            |h.index| > 0 && AllDigits(h.index) && h.kind + h.index == tail
  {
    var u := UpperRun(tail);
    assert tail[..u] + tail[u..] == tail;
  }

  lemma {:induction false} ParsedRestRenders(slot: Slot, rest: string)
    requires |rest| > 0 && ParseRest(slot, rest) != OtherName
    ensures WellFormedName(ParseRest(slot, rest))
    ensures Render(ParseRest(slot, rest)) == (if slot == ChassisSlot then "CH" else "CT") + rest
  {
    var lead := if slot == ChassisSlot then "CH" else "CT";
    if !AllDigits(rest) {
      var d := DigitRun(rest);
      var tail := rest[d + 1..];
      ParsedKindRenders(slot, rest[..d], tail);
      var h := ParseKind(slot, rest[..d], tail);
      assert ParseRest(slot, rest) == h;
      var mid := rest[..d] + ".";
      assert rest == mid + tail;
      calc {
        Render(h);
        lead + (mid + h.kind + h.index);
        { ConcatAssoc(mid, h.kind, h.index); }
        lead + (mid + (h.kind + h.index));
        lead + (mid + tail);
      }
    }
  }

  /** Every recognised name is well formed and is exactly the rendering of what was recognised
    * (up to the one trailing newline `$` tolerates). */
  lemma ParsedRenders(name: string)
    requires ParseHwName(name) != OtherName
    ensures WellFormedName(ParseHwName(name))
    ensures Render(ParseHwName(name)) == DollarBody(name)
  {
    var b := DollarBody(name);
    var slot := if b[1] == 'H' then ChassisSlot else ControllerSlot;
    var lead := if slot == ChassisSlot then "CH" else "CT";
    assert ParseHwName(name) == ParseRest(slot, b[2..]);
    ParsedRestRenders(slot, b[2..]);
    assert b[..2] == lead by {
      assert |b[..2]| == 2 && b[..2][0] == lead[0] && b[..2][1] == lead[1];
    }
    assert b == b[..2] + b[2..];
  }

  // ---------------------------------------------------------------- one component

  /** The samples one component contributes to each of the five families. */
  datatype HwOut = HwOut(chassis: seq<Sample>, controller: seq<Sample>, component: seq<Sample>,
                         temperature: seq<Sample>, power: seq<Sample>)

  const NoOut := HwOut([], [], [], [], [])

  function Join(a: HwOut, b: HwOut): HwOut
  {
    HwOut(a.chassis + b.chassis, a.controller + b.controller, a.component + b.component,
          a.temperature + b.temperature, a.power + b.power)
  }

  /** `1 if status == 'ok' else 0`. */
  function HealthState(status: Value): Value
  {
    Num(if status == Str("ok") then 1 else 0)
  }

  /** The component's slot labels: `[n, '', …]` on a chassis, `['', n, …]` on a controller. */
  function SlotLabels(slot: Slot, n: string): seq<string>
  {
    if slot == ChassisSlot then [n, ""] else ["", n]
  }

  /** The extra sample of a TMP or PWR component. */
  function Reading(comp: Record, state: Value, h: HwName): Result<HwOut>
    requires h.ComponentName?
  {
    var health := [Sample(SlotLabels(h.base, h.baseIndex) + [h.kind, h.index], state)];
    if h.kind == "TMP" then
      match Subscript(comp, "temperature")
      case Err(f) => Err(f)
      case Ok(t) =>
        match ToFloat(t)
        case Err(f) => Err(f)
        case Ok(v) => Ok(HwOut([], [], health, [Sample(SlotLabels(h.base, h.baseIndex) + [h.index], v)], []))
    else if h.kind == "PWR" then
      match Subscript(comp, "voltage")
      case Err(f) => Err(f)
      case Ok(volts) =>
        if volts.Null? then Ok(HwOut([], [], health, [], []))
        else
          match ToFloat(volts)
          case Err(f) => Err(f)
          case Ok(v) => Ok(HwOut([], [], health, [], [Sample([h.baseIndex, h.index], v)]))
    else Ok(HwOut([], [], health, [], []))
  }

  /** One iteration of the loop over the hardware listing. */
  function Contribution(comp: Record): Result<HwOut>
  {
    match Subscript(comp, "status")
    case Err(f) => Err(f)
    case Ok(status) =>
      if status == Str("not_installed") then Ok(NoOut)
      else
        match Subscript(comp, "name")
        case Err(f) => Err(f)
        case Ok(name) =>
          if !name.Str? then Err(TypeError) else Named(comp, HealthState(status), ParseHwName(name.s))
  }

  /** The samples of an installed component whose name the patterns made `h` of. */
  function Named(comp: Record, state: Value, h: HwName): Result<HwOut>
  {
    match h
    case ChassisName(n) => Ok(HwOut([Sample([n], state)], [], [], [], []))
    case ControllerName(n) => Ok(HwOut([], [Sample([n], state)], [], [], []))
    case OtherName => Ok(NoOut)
    case ComponentName(_, _, _, _) => Reading(comp, state, h)
  }

  /** The whole loop: the components' contributions in listing order; the first failure aborts. */
  function HwAll(comps: seq<Record>): Result<HwOut>
  {
    if |comps| == 0 then Ok(NoOut)
    else
      match HwAll(comps[..|comps| - 1])
      case Err(f) => Err(f)
      case Ok(front) =>
        match Contribution(comps[|comps| - 1])
        case Err(f) => Err(f)
        case Ok(c) => Ok(Join(front, c))
  }

  const ChassisFamily := "purefa_hardware_chassis_health"
  const ControllerFamily := "purefa_hardware_controller_health"
  const ComponentFamily := "purefa_hardware_component_health"
  const TemperatureFamily := "purefa_hardware_temperature_celsius"
  const PowerFamily := "purefa_hardware_power_volts"

  /** The five families `get_metrics` yields, in order. */
  function HardwareFamilies(api: FaApi): Result<seq<Snapshot>>
  {
    match Listing(api.hardware)
    case Err(f) => Err(f)
    case Ok(comps) =>
      match HwAll(comps)
      case Err(f) => Err(f)
      case Ok(o) =>
        Ok([Snapshot(ChassisFamily, [], o.chassis),
            Snapshot(ControllerFamily, ["controller"], o.controller),
            Snapshot(ComponentFamily, ["chassis", "controller", "component", "index"], o.component),
            Snapshot(TemperatureFamily, ["chassis", "controller", "sensor"], o.temperature),
            Snapshot(PowerFamily, ["chassis", "power_supply"], o.power)])
  }

  // ---------------------------------------------------------------- the builder

  class ArrayHardwareMetrics {
    const fa: FlashArray
    var chassisHealth: MetricFamily?
    var controllerHealth: MetricFamily?
    var componentHealth: MetricFamily?
    var temperature: MetricFamily?
    var power: MetricFamily?

    constructor (fa: FlashArray)
      ensures this.fa == fa
      ensures chassisHealth == null && controllerHealth == null && componentHealth == null
      ensures temperature == null && power == null
    {
      this.fa := fa;
      chassisHealth, controllerHealth, componentHealth, temperature, power := null, null, null, null, null;
    }

    /** The five families exist and are five distinct objects. */
    predicate Ready()
      reads this
    {
      chassisHealth != null && controllerHealth != null && componentHealth != null && temperature != null && power != null &&
      chassisHealth != controllerHealth && chassisHealth != componentHealth && chassisHealth != temperature &&
      chassisHealth != power && controllerHealth != componentHealth && controllerHealth != temperature &&
      controllerHealth != power && componentHealth != temperature && componentHealth != power && temperature != power
    }

    /** The samples the five families hold. */
    function Outputs(): HwOut
      requires Ready()
      reads this, chassisHealth, controllerHealth, componentHealth, temperature, power
    {
      HwOut(chassisHealth.samples, controllerHealth.samples, componentHealth.samples, temperature.samples, power.samples)
    }

    /** One iteration of the loop: skip `not_installed`, classify the name, append the health
      * sample and, for TMP and PWR components, the reading. */
    method AddComponent(comp: Record) returns (out: Outcome)
      requires Ready()
      modifies chassisHealth, controllerHealth, componentHealth, temperature, power
      ensures Ready()
      ensures out.Pass? <==> Contribution(comp).Ok?
      ensures out.Fail? ==> out.error == Contribution(comp).error
      ensures out.Pass? ==> Outputs() == Join(old(Outputs()), Contribution(comp).value)
    {
      var status := Subscript(comp, "status");
      if status.Err? {
        return Fail(status.error);
      }
      if status.value == Str("not_installed") {
        return Pass;
      }
      var name := Subscript(comp, "name");
      if name.Err? {
        return Fail(name.error);
      }
      if !name.value.Str? {
        return Fail(TypeError);
      }
      var state := HealthState(status.value);
      var h := ParseHwName(name.value.s);
      assert Contribution(comp) == Named(comp, state, h);
      if h.ChassisName? {
        chassisHealth.AddMetric([h.index], state);
      } else if h.ControllerName? {
        controllerHealth.AddMetric([h.index], state);
      } else if h.ComponentName? {
        var slot := SlotLabels(h.base, h.baseIndex);
        componentHealth.AddMetric(slot + [h.kind, h.index], state);
        if h.kind == "TMP" {
          var t := Subscript(comp, "temperature");
          if t.Err? {
            return Fail(t.error);
          }
          var v := ToFloat(t.value);
          if v.Err? {
            return Fail(v.error);
          }
          temperature.AddMetric(slot + [h.index], v.value);
        } else if h.kind == "PWR" {
          var volts := Subscript(comp, "voltage");
          if volts.Err? {
            return Fail(volts.error);
          }
          if !volts.value.Null? {
            var v := ToFloat(volts.value);
            if v.Err? {
              return Fail(v.error);
            }
            power.AddMetric([h.baseIndex, h.index], v.value);
          }
        }
      }
      out := Pass;
    }

    /** `_array_hardware_status`: declares the five families and fills them in one pass
      * over the hardware listing. */
    method ArrayHardwareStatus() returns (out: Outcome)
      modifies this, fa`fetches
      ensures Ready()
      ensures fresh(chassisHealth) && fresh(controllerHealth) && fresh(componentHealth) && fresh(temperature) && fresh(power)
      ensures chassisHealth.name == ChassisFamily && chassisHealth.labelKeys == []
      ensures out.Pass? <==> HardwareFamilies(fa.api).Ok?
      ensures out.Fail? ==> out.error == HardwareFamilies(fa.api).error
      ensures out.Pass? ==> Snaps() == HardwareFamilies(fa.api).value
    {
      var data := fa.GetHardwareStatus();
      var ch := new MetricFamily(ChassisFamily, []);
      var ct := new MetricFamily(ControllerFamily, ["controller"]);
      var cp := new MetricFamily(ComponentFamily, ["chassis", "controller", "component", "index"]);
      var tm := new MetricFamily(TemperatureFamily, ["chassis", "controller", "sensor"]);
      var pw := new MetricFamily(PowerFamily, ["chassis", "power_supply"]);
      chassisHealth, controllerHealth, componentHealth, temperature, power := ch, ct, cp, tm, pw;
      if data.Err? {
        return Fail(data.error);
      }
      out := Walk(data.value);
    }

    /** The loop of `_array_hardware_status` over the listing, into empty families. */
    method Walk(comps: seq<Record>) returns (out: Outcome)
      requires Ready() && Outputs() == NoOut
      modifies chassisHealth, controllerHealth, componentHealth, temperature, power
      ensures Ready()
      ensures out.Pass? <==> HwAll(comps).Ok?
      ensures out.Fail? ==> out.error == HwAll(comps).error
      ensures out.Pass? ==> Outputs() == HwAll(comps).value
    {
      var i := 0;
      while i < |comps|
        invariant 0 <= i <= |comps|
        invariant Ready()
        invariant HwAll(comps[..i]) == Ok(Outputs())
      {
        assert comps[..i + 1][..i] == comps[..i];
        var step := AddComponent(comps[i]);
        if step.Fail? {
          HwPrefixFailure(comps, i + 1);
          return step;
        }
        i := i + 1;
      }
      assert comps[..i] == comps;
      out := Pass;
    }

    /** The families as yielded: chassis, controller, component, temperature, power. */
    function Snaps(): seq<Snapshot>
      requires Ready()
      reads this, chassisHealth, controllerHealth, componentHealth, temperature, power
    {
      [chassisHealth.Snap(), controllerHealth.Snap(), componentHealth.Snap(), temperature.Snap(), power.Snap()]
    }

    /** `get_metrics`: runs the pass, then yields the five families in order. */
    method GetMetrics() returns (r: Result<seq<Snapshot>>)
      modifies this, fa`fetches
      ensures r == HardwareFamilies(fa.api)
    {
      var out := ArrayHardwareStatus();
      if out.Fail? {
        return Err(out.error);
      }
      r := Ok(Snaps());
    }
  }

  lemma {:induction false} HwPrefixFailure(comps: seq<Record>, k: nat)
    requires k <= |comps| && HwAll(comps[..k]).Err?
    ensures HwAll(comps) == HwAll(comps[..k])
    decreases |comps|
  {
    if k < |comps| {
      assert comps[..|comps| - 1][..k] == comps[..k];
      HwPrefixFailure(comps[..|comps| - 1], k);
    } else {
      assert comps[..k] == comps;
    }
  }

  // ---------------------------------------------------------------- what the pass promises

  /** A `not_installed` component contributes nothing, whatever its name. */
  lemma NotInstalledSilent(comp: Record)
    requires "status" in comp && comp["status"] == Str("not_installed")
    ensures Contribution(comp) == Ok(NoOut)
  {
  }

  /** A name none of the patterns recognises contributes nothing and raises nothing. */
  lemma UnrecognisedSilent(comp: Record)
    requires "status" in comp && "name" in comp && comp["name"].Str?
    requires ParseHwName(comp["name"].s) == OtherName
    ensures Contribution(comp) == Ok(NoOut)
  {
  }

  /** Every health sample of a component carries 1 exactly when its status is `ok`, and 0 otherwise;
    * a component feeds at most one of the three health families, with at most one sample. */
  lemma ContributionHealth(comp: Record)
    requires Contribution(comp).Ok?
    ensures var o := Contribution(comp).value;
            |o.chassis| + |o.controller| + |o.component| <= 1 &&
            forall s :: s in o.chassis + o.controller + o.component ==>
              s.value == Num(if comp["status"] == Str("ok") then 1 else 0)
  {
    var status := comp["status"];
    if status != Str("not_installed") {
      var h := ParseHwName(comp["name"].s);
      assert Contribution(comp) == Named(comp, HealthState(status), h);
      NamedHealth(comp, HealthState(status), h);
    }
  }

  lemma NamedHealth(comp: Record, state: Value, h: HwName)
    requires Named(comp, state, h).Ok?
    ensures var o := Named(comp, state, h).value;
            |o.chassis| + |o.controller| + |o.component| <= 1 &&
            forall s :: s in o.chassis + o.controller + o.component ==> s.value == state
  {
  }

  /** `CH<n>` gives one chassis sample labelled `[n]`; `CT<n>` one controller sample labelled `[n]`. */
  lemma ChassisAndControllerSamples(comp: Record, n: string)
    requires "status" in comp && comp["status"] != Str("not_installed")
    requires |n| > 0 && AllDigits(n)
    ensures "name" in comp && comp["name"] == Str("CH" + n) ==>
              Contribution(comp) == Ok(HwOut([Sample([n], HealthState(comp["status"]))], [], [], [], []))
    ensures "name" in comp && comp["name"] == Str("CT" + n) ==>
              Contribution(comp) == Ok(HwOut([], [Sample([n], HealthState(comp["status"]))], [], [], []))
  {
    ParseRender(ChassisName(n));
    ParseRender(ControllerName(n));
  }

  /** `(CH|CT)<n>.<TYPE><m>` gives one component sample `[n, '', TYPE, m]` or `['', n, TYPE, m]`;
    * a TMP component adds a temperature sample with the same slot placement, and a PWR component
    * adds a power sample `[n, m]` exactly when its voltage is not `None`. */
  lemma ComponentSamples(comp: Record, h: HwName)
    requires h.ComponentName? && WellFormedName(h)
    requires "status" in comp && comp["status"] != Str("not_installed")
    requires "name" in comp && comp["name"] == Str(Render(h))
    requires Contribution(comp).Ok?
    ensures var o := Contribution(comp).value;
            o.component == [Sample(SlotLabels(h.base, h.baseIndex) + [h.kind, h.index], HealthState(comp["status"]))] &&
            o.chassis == [] && o.controller == []
    ensures h.kind == "TMP" ==>
              "temperature" in comp &&
              Contribution(comp).value.temperature == [Sample(SlotLabels(h.base, h.baseIndex) + [h.index], comp["temperature"])]
    ensures h.kind != "TMP" ==> Contribution(comp).value.temperature == []
    ensures h.kind == "PWR" ==>
              "voltage" in comp &&
              Contribution(comp).value.power == (if comp["voltage"] == Null then [] else [Sample([h.baseIndex, h.index], comp["voltage"])])
    ensures h.kind != "PWR" ==> Contribution(comp).value.power == []
  {
    ParseRender(h);
    var state := HealthState(comp["status"]);
    assert Contribution(comp) == Named(comp, state, ParseHwName(comp["name"].s));
    ReadingSamples(comp, state, h);
  }

  lemma ReadingSamples(comp: Record, state: Value, h: HwName)
    requires h.ComponentName? && Reading(comp, state, h).Ok?
    ensures var o := Reading(comp, state, h).value;
            o.component == [Sample(SlotLabels(h.base, h.baseIndex) + [h.kind, h.index], state)] &&
            o.chassis == [] && o.controller == []
    ensures h.kind == "TMP" ==>
              "temperature" in comp &&
              Reading(comp, state, h).value.temperature == [Sample(SlotLabels(h.base, h.baseIndex) + [h.index], comp["temperature"])]
    ensures h.kind != "TMP" ==> Reading(comp, state, h).value.temperature == []
    ensures h.kind == "PWR" ==>
              "voltage" in comp &&
              Reading(comp, state, h).value.power == (if comp["voltage"] == Null then [] else [Sample([h.baseIndex, h.index], comp["voltage"])])
    ensures h.kind != "PWR" ==> Reading(comp, state, h).value.power == []
  {
  }


  /** A temperature reading is converted without a `None` check: a TMP component whose
    * temperature is `None` aborts the whole pass. */
  lemma NullTemperatureAborts(comp: Record)
    requires "status" in comp && comp["status"] != Str("not_installed")
    requires "name" in comp && comp["name"].Str? && ParseHwName(comp["name"].s).ComponentName?
    requires ParseHwName(comp["name"].s).kind == "TMP"
    requires "temperature" in comp && comp["temperature"] == Null
    ensures Contribution(comp) == Err(TypeError)
  {
  }

  /** How many label values each family's samples carry. */
  predicate LabelWidths(o: HwOut)
  {
    (forall s :: s in o.chassis ==> |s.labels| == 1) &&
    (forall s :: s in o.controller ==> |s.labels| == 1) &&
    (forall s :: s in o.component ==> |s.labels| == 4) &&
    (forall s :: s in o.temperature ==> |s.labels| == 3) &&
    (forall s :: s in o.power ==> |s.labels| == 2)
  }

  lemma ReadingWidths(comp: Record, state: Value, h: HwName)
    requires h.ComponentName? && Reading(comp, state, h).Ok?
    ensures LabelWidths(Reading(comp, state, h).value)
  {
  }

  lemma NamedWidths(comp: Record, state: Value, h: HwName)
    requires Named(comp, state, h).Ok?
    ensures LabelWidths(Named(comp, state, h).value)
  {
    if h.ComponentName? {
      ReadingWidths(comp, state, h);
    }
  }

  lemma ContributionWidths(comp: Record)
    requires Contribution(comp).Ok?
    ensures LabelWidths(Contribution(comp).value)
  {
    var status := comp["status"];
    if status != Str("not_installed") {
      var h := ParseHwName(comp["name"].s);
      assert Contribution(comp) == Named(comp, HealthState(status), h);
      NamedWidths(comp, HealthState(status), h);
    }
  }

  /** Chassis and controller samples carry one label value, component samples four,
    * temperature samples three and power samples two. */
  lemma {:induction false} HwAllWidths(comps: seq<Record>)
    requires HwAll(comps).Ok?
    ensures LabelWidths(HwAll(comps).value)
  {
    if |comps| > 0 {
      HwAllWidths(comps[..|comps| - 1]);
      ContributionWidths(comps[|comps| - 1]);
    }
  }

  /** The chassis family is declared without label keys yet every chassis sample carries one
    * label value, so it is well labelled only while it is empty; the other four families are
    * always well labelled. */
  lemma ChassisFamilyMislabelled(api: FaApi)
    requires HardwareFamilies(api).Ok?
    ensures WellLabelled(HardwareFamilies(api).value[0]) <==> |HardwareFamilies(api).value[0].samples| == 0
    ensures forall k :: 1 <= k < 5 ==> WellLabelled(HardwareFamilies(api).value[k])
  {
    var comps := Listing(api.hardware).value;
    HwAllWidths(comps);
    var o := HwAll(comps).value;
    var f := HardwareFamilies(api).value;
    if |f[0].samples| > 0 {
      assert f[0].samples[0] in o.chassis;
    }
    forall k | 1 <= k < 5 ensures WellLabelled(f[k]) {
      forall i | 0 <= i < |f[k].samples| ensures |f[k].samples[i].labels| == |f[k].labelKeys| {
        assert f[k].samples[i] in f[k].samples;
      }
    }
  }

  /** Since the chassis family declares no label names, `add_metric` keeps none of the one
    * label value each chassis sample is given: the chassis index is dropped, and all chassis
    * samples are served with an empty label set. */
  lemma ChassisIndexDropped(api: FaApi, i: nat)
    requires HardwareFamilies(api).Ok? && i < |HardwareFamilies(api).value[0].samples|
    ensures |HardwareFamilies(api).value[0].samples[i].labels| == 1
    ensures Served(HardwareFamilies(api).value[0].labelKeys, HardwareFamilies(api).value[0].samples[i].labels) == []
  {
    var comps := Listing(api.hardware).value;
    HwAllWidths(comps);
    assert HardwareFamilies(api).value[0].samples[i] in HwAll(comps).value.chassis;
  }

  /** The evidently intended chassis family: declared with the one `chassis` label its
    * samples carry. Everything else is as in `HardwareFamilies`. */
  function CorrectedHardwareFamilies(api: FaApi): Result<seq<Snapshot>>
  {
    match HardwareFamilies(api)
    case Err(f) => Err(f)
    case Ok(fs) => Ok([fs[0].(labelKeys := ["chassis"])] + fs[1..])
  }

  /** With the chassis label declared, all five families are well labelled whatever the
    * listing, and they hold the same samples as the families the builder declares. */
  lemma CorrectedHardwareWellLabelled(api: FaApi)
    requires HardwareFamilies(api).Ok?
    ensures CorrectedHardwareFamilies(api).Ok? && |CorrectedHardwareFamilies(api).value| == 5
    ensures forall k :: 0 <= k < 5 ==> WellLabelled(CorrectedHardwareFamilies(api).value[k])
    ensures forall k :: 0 <= k < 5 ==>
              CorrectedHardwareFamilies(api).value[k].samples == HardwareFamilies(api).value[k].samples
    ensures forall i :: 0 <= i < |CorrectedHardwareFamilies(api).value[0].samples| ==>
              |CorrectedHardwareFamilies(api).value[0].samples[i].labels| == 1 &&
              Served(["chassis"], CorrectedHardwareFamilies(api).value[0].samples[i].labels) ==
              [("chassis", CorrectedHardwareFamilies(api).value[0].samples[i].labels[0])]
  {
    var comps := Listing(api.hardware).value;
    HwAllWidths(comps);
    ChassisFamilyMislabelled(api);
    var f := HardwareFamilies(api).value;
    var g := CorrectedHardwareFamilies(api).value;
    forall i | 0 <= i < |g[0].samples| ensures |g[0].samples[i].labels| == 1 {
      assert g[0].samples[i] in HwAll(comps).value.chassis;
    }
    forall k | 1 <= k < 5 ensures g[k] == f[k] {
    }
  }
}
