/**
 * Post-processing of a generated build plan (`backend/ai_engine.py`): a
 * missing parts list becomes empty, missing or empty wiring is replaced by
 * a fallback wiring derived from the parts, and every wire's
 * `"Part (Pin)"` endpoints are split into part and pin fields. An
 * exception anywhere turns the result into an error record.
 */
module Plans {
  import opened Wrappers
  import opened Text
  import opened Records
  import opened Seqs

  /** The message of a `KeyError` on the key `name`. */
  const MissingName: string := "'name'"
  /** The message of the `IndexError` raised by `parts[1]` on a one-piece split. */
  const IndexOutOfRange: string := "list index out of range"
  /** The `details` of every error record. */
  const PlanFailed: string := "Failed to generate valid plan."

  /** The parsed plan, as far as post-processing reads it; `None` is a missing key. */
  datatype Plan = Plan(parts: Option<seq<Dict>>, wiring: Option<seq<Dict>>)

  /** The plan handed back: parts and normalised wiring. */
  datatype Checked = Checked(parts: seq<Dict>, wiring: seq<Dict>)

  /** The `{"error": str(e), "details": ...}` record. */
  datatype PlanError = PlanError(error: string, details: string)

  // ------------------------------------------------------- fallback wiring

  /** `p.get("type") == value`. */
  predicate TypeIs(p: Dict, value: string) {
    "type" in p && p["type"] == value
  }

  predicate IsBattery(p: Dict) {
    TypeIs(p, "battery")
  }

  predicate IsController(p: Dict) {
    TypeIs(p, "microcontroller") || TypeIs(p, "camera")
  }

  /** Frames, enclosures, wheels and propellers get no wires. */
  predicate IsStructural(p: Dict) {
    TypeIs(p, "frame") || TypeIs(p, "enclosure") || TypeIs(p, "wheel") || TypeIs(p, "propeller")
  }

  /** Which of the two searched roles. */
  datatype Role = Power | Control

  predicate HasRole(p: Dict, role: Role) {
    match role
    case Power => IsBattery(p)
    case Control => IsController(p)
  }

  /** The index of the first part at or after `k` with the role, or -1. */
  function RoleFrom(parts: seq<Dict>, role: Role, k: nat): (r: int)
    requires k <= |parts|
    decreases |parts| - k
    ensures r == -1 || k <= r < |parts|
    ensures r >= 0 ==> HasRole(parts[r], role)
    ensures forall j :: k <= j < |parts| && (r == -1 || j < r) ==> !HasRole(parts[j], role)
  {
    if k == |parts| then -1
    else if HasRole(parts[k], role) then k
    else RoleFrom(parts, role, k + 1)
  }

  /** `next((p for p in parts if ...), None)`. */
  function FirstWith(parts: seq<Dict>, role: Role): Option<Dict> {
    var k := RoleFrom(parts, role, 0);
    if k == -1 then None else Some(parts[k])
  }

  /** The four keys of a generated wire. */
  function MakeWire(from: string, to: string, caption: string, colour: string): Dict {
    map["from" := from, "to" := to, "label" := caption, "wire_color" := colour]
  }

  /** The generated end text `f"{name} (pin)"`. */
  function PinRef(name: string, pin: string): string {
    name + " (" + pin + ")"
  }

  /** The first two wires when there is a battery: the controller powered from it. */
  function SupplyWires(controller: string, battery: string): seq<Dict> {
    [ MakeWire(PinRef(controller, "5V/VCC"), PinRef(battery, "VCC"), "Power", "Red"),
      MakeWire(PinRef(controller, "GND"), PinRef(battery, "GND"), "GND", "Black") ]
  }

  /** The wires for one other part, with a battery present: power, ground and signal. */
  function PoweredWires(part: string, controller: string): seq<Dict> {
    [ MakeWire(PinRef(part, "VCC"), PinRef(controller, "3V3/5V"), "Power", "Red"),
      MakeWire(PinRef(part, "GND"), PinRef(controller, "GND"), "GND", "Black"),
      MakeWire(PinRef(part, "Data"), PinRef(controller, "GPIO"), "Signal", "Yellow") ]
  }

  /** The wires for one other part, powered over USB: power and ground. */
  function UsbWires(part: string, controller: string): seq<Dict> {
    [ MakeWire(PinRef(part, "VCC"), PinRef(controller, "3V3"), "Power", "Red"),
      MakeWire(PinRef(part, "GND"), PinRef(controller, "GND"), "GND", "Black") ]
  }

  /** The loop's `continue` tests: the battery, the controller and structural parts are skipped. */
  predicate Skipped(p: Dict, battery: Option<Dict>, controller: Dict) {
    (battery.Some? && p == battery.value) || p == controller || IsStructural(p)
  }

  /** How many parts the loop wires. */
  function EligibleCount(parts: seq<Dict>, battery: Option<Dict>, controller: Dict): (n: nat)
    ensures n <= |parts|
  {
    if parts == [] then 0
    else EligibleCount(parts[..|parts| - 1], battery, controller)
         + (if Skipped(parts[|parts| - 1], battery, controller) then 0 else 1)
  }

  /**
   * The wires the `for p in parts` loop appends, with the battery (three per
   * wired part) or without it (two); reading the name of a wired part, or of
   * the controller, raises when the key is missing.
   */
  function LoopWires(parts: seq<Dict>, battery: Option<Dict>, controller: Dict): Result<seq<Dict>, string> {
    if parts == [] then Ok([])
    else
      match LoopWires(parts[..|parts| - 1], battery, controller)
      case Err(e) => Err(e)
      case Ok(ws) =>
        var p := parts[|parts| - 1];
        if Skipped(p, battery, controller) then Ok(ws)
        else if "name" !in p || "name" !in controller then Err(MissingName)
        else if battery.Some? then Ok(ws + PoweredWires(p["name"], controller["name"]))
        else Ok(ws + UsbWires(p["name"], controller["name"]))
  }

  /** The fallback wiring: nothing without a controller. */
  function Fallback(parts: seq<Dict>): Result<seq<Dict>, string> {
    var battery := FirstWith(parts, Power);
    var controller := FirstWith(parts, Control);
    if battery.Some? && controller.Some? then
      var c := controller.value;
      var b := battery.value;
      if "name" !in c || "name" !in b then Err(MissingName)
      else
        match LoopWires(parts, battery, c)
        case Err(e) => Err(e)
        case Ok(ws) => Ok(SupplyWires(c["name"], b["name"]) + ws)
    else if controller.Some? then LoopWires(parts, None, controller.value)
    else Ok([])
  }

  /** The wiring loop of the fallback, appending to `wiring` as the source does. */
  method AppendLoopWires(parts: seq<Dict>, battery: Option<Dict>, controller: Dict) returns (r: Result<seq<Dict>, string>)
    ensures r == LoopWires(parts, battery, controller)
  {
    var wiring: seq<Dict> := [];
    for i := 0 to |parts|
      invariant LoopWires(parts[..i], battery, controller) == Ok(wiring)
    {
      assert parts[..i + 1][..i] == parts[..i];
      var p := parts[i];
      if Skipped(p, battery, controller) {
        continue;
      }
      if "name" !in p || "name" !in controller {
        assert parts[..i + 1] == parts[..i] + [p];
        LoopErrorPersists(parts, i + 1, battery, controller);
        return Err(MissingName);
      }
      if battery.Some? {
        wiring := wiring + PoweredWires(p["name"], controller["name"]);
      } else {
        wiring := wiring + UsbWires(p["name"], controller["name"]);
      }
    }
    assert parts[..|parts|] == parts;
    r := Ok(wiring);
  }

  /** Once a prefix of the loop raises, the whole loop does. */
  lemma {:induction false} LoopErrorPersists(parts: seq<Dict>, k: nat, battery: Option<Dict>, controller: Dict)
    requires k <= |parts|
    requires LoopWires(parts[..k], battery, controller) == Err(MissingName)
    ensures LoopWires(parts, battery, controller) == Err(MissingName)
    decreases |parts| - k
  {
    if k < |parts| {
      assert parts[..k + 1][..k] == parts[..k];
      LoopErrorPersists(parts, k + 1, battery, controller);
    } else {
      assert parts[..k] == parts;
    }
  }

  /** Step 2 of post-processing: the battery and controller search, then the wiring for each case. */
  method FallbackWiring(parts: seq<Dict>) returns (r: Result<seq<Dict>, string>)
    ensures r == Fallback(parts)
  {
    var battery := FirstWith(parts, Power);
    var controller := FirstWith(parts, Control);
    if battery.Some? && controller.Some? {
      var c := controller.value;
      var b := battery.value;
      if "name" !in c || "name" !in b {
        return Err(MissingName);
      }
      var wiring := SupplyWires(c["name"], b["name"]);
      var rest := AppendLoopWires(parts, battery, c);
      if rest.Err? {
        return Err(rest.error);
      }
      r := Ok(wiring + rest.value);
    } else if controller.Some? {
      r := AppendLoopWires(parts, None, controller.value);
    } else {
      r := Ok([]);
    }
  }

  // --------------------------------------------------------- normalisation

  /** The key names of one end of a wire. */
  datatype End = End(raw: string, part: string, pin: string)

  const FromEnd := End("from", "from_part", "from_pin")
  const ToEnd := End("to", "to_part", "to_pin")

  /**
   * One end of a wire: a raw value holding `(` is split at its last ` (`
   * (a one-piece split raises), with the pin's `)` removed and both pieces
   * stripped; without `(` and without an existing part field, the raw value
   * (or "Unknown") becomes the part and "Pin" the pin; otherwise nothing
   * changes. The tests read the original wire `w`; the fields are written to `acc`.
   */
  function NormaliseEnd(w: Dict, e: End, acc: Dict): Result<Dict, string> {
    if e.raw in w && Contains(w[e.raw], "(") then
      var pieces := RSplitOnce(w[e.raw], " (");
      if |pieces| < 2 then Err(IndexOutOfRange)
      else Ok(acc[e.part := Trim(Py, pieces[0])][e.pin := Trim(Py, RemoveChar(pieces[1], ')'))])
    else if e.part !in w then
      Ok(acc[e.part := Get(w, e.raw, "Unknown")][e.pin := "Pin"])
    else Ok(acc)
  }

  /** A copy of the wire with both ends normalised, `from` first. */
  function NormaliseWire(w: Dict): Result<Dict, string> {
    match NormaliseEnd(w, FromEnd, w)
    case Err(e) => Err(e)
    case Ok(acc) => NormaliseEnd(w, ToEnd, acc)
  }

  /** All wires in order; the first failing wire's error aborts. */
  function NormaliseAll(ws: seq<Dict>): Result<seq<Dict>, string> {
    MapAll(NormaliseWire, ws)
  }

  /** One end, updating the copy `newWire` in place as the source does. */
  method ParseEnd(w: Dict, e: End, newWire: Dict) returns (r: Result<Dict, string>)
    ensures r == NormaliseEnd(w, e, newWire)
  {
    var updated := newWire;
    if e.raw in w && Contains(w[e.raw], "(") {
      var pieces := RSplitOnce(w[e.raw], " (");
      if |pieces| < 2 {
        return Err(IndexOutOfRange);
      }
      updated := updated[e.part := Trim(Py, pieces[0])];
      updated := updated[e.pin := Trim(Py, RemoveChar(pieces[1], ')'))];
    } else if e.part !in w {
      updated := updated[e.part := Get(w, e.raw, "Unknown")];
      updated := updated[e.pin := "Pin"];
    }
    r := Ok(updated);
  }

  /** The loop body: a copy of the wire, its `from` end parsed, then its `to` end. */
  method ParseWire(wire: Dict) returns (r: Result<Dict, string>)
    ensures r == NormaliseWire(wire)
  {
    var afterFrom := ParseEnd(wire, FromEnd, wire);
    if afterFrom.Err? {
      return Err(afterFrom.error);
    }
    r := ParseEnd(wire, ToEnd, afterFrom.value);
  }

  /** Step 3 of post-processing: the normalisation loop. */
  method NormaliseWiring(ws: seq<Dict>) returns (r: Result<seq<Dict>, string>)
    ensures r == NormaliseAll(ws)
  {
    var normalized: seq<Dict> := [];
    for i := 0 to |ws|
      invariant NormaliseAll(ws[..i]) == Ok(normalized)
    {
      MapAllStep(NormaliseWire, ws, i);
      var newWire := ParseWire(ws[i]);
      if newWire.Err? {
        MapAllErrorPersists(NormaliseWire, ws, i + 1, newWire.error);
        return Err(newWire.error);
      }
      normalized := normalized + [newWire.value];
    }
    assert ws[..|ws|] == ws;
    r := Ok(normalized);
  }

  // -------------------------------------------------------- post-processing

  /** Missing or empty wiring is regenerated; then every wire is normalised. */
  function PostProcess(data: Plan): Result<Checked, PlanError> {
    var parts := data.parts.GetOr([]);
    var wiring := if data.wiring.None? || data.wiring.value == [] then Fallback(parts) else Ok(data.wiring.value);
    match wiring
    case Err(e) => Err(PlanError(e, PlanFailed))
    case Ok(ws) =>
      match NormaliseAll(ws)
      case Err(e) => Err(PlanError(e, PlanFailed))
      case Ok(out) => Ok(Checked(parts, out))
  }

  /** The post-processing steps in the source's order, each exception caught at the end. */
  method PostProcessPlan(data: Plan) returns (r: Result<Checked, PlanError>)
    ensures r == PostProcess(data)
  {
    var parts: seq<Dict> := [];
    if data.parts.Some? {
      parts := data.parts.value;
    }
    var wiring: seq<Dict>;
    if data.wiring.None? || data.wiring.value == [] {
      var fallback := FallbackWiring(parts);
      if fallback.Err? {
        return Err(PlanError(fallback.error, PlanFailed));
      }
      wiring := fallback.value;
    } else {
      wiring := data.wiring.value;
    }
    var normalized := NormaliseWiring(wiring);
    if normalized.Err? {
      return Err(PlanError(normalized.error, PlanFailed));
    }
    r := Ok(Checked(parts, normalized.value));
  }

  // ------------------------------------------------------------- properties

  /** The colour of wire `k` of a wired part's group: Red, Black, then Yellow with a battery. */
  function GroupColour(withBattery: bool, k: nat): string {
    if withBattery then ["Red", "Black", "Yellow"][k % 3] else ["Red", "Black"][k % 2]
  }

  /** The keys of every generated wire. */
  predicate GeneratedKeys(w: Dict) {
    w.Keys == {"from", "to", "label", "wire_color"}
  }

  /**
   * The loop wires three (with a battery) or two (without) wires for each
   * part it does not skip, coloured Red, Black (and Yellow) in turn, each
   * with exactly the four generated keys.
   */
  lemma {:induction false} LoopWiresShape(parts: seq<Dict>, battery: Option<Dict>, controller: Dict)
    requires LoopWires(parts, battery, controller).Ok?
    ensures CycleShaped(LoopWires(parts, battery, controller).value, battery.Some?, EligibleCount(parts, battery, controller))
    decreases |parts|
  {
    if parts != [] {
      var prefix := parts[..|parts| - 1];
      LoopWiresShape(prefix, battery, controller);
      var p := parts[|parts| - 1];
      if !Skipped(p, battery, controller) {
        var before := LoopWires(prefix, battery, controller).value;
        GroupExtendsCycle(before, battery.Some?, EligibleCount(prefix, battery, controller), p["name"], controller["name"]);
      }
    }
  }

  /**
   * `n` groups of generated wires, three (with a battery) or two per group,
   * coloured Red, Black (and Yellow) in turn.
   */
  predicate CycleShaped(ws: seq<Dict>, withBattery: bool, n: nat) {
    && |ws| == (if withBattery then 3 else 2) * n
    && forall k :: 0 <= k < |ws| ==> GeneratedKeys(ws[k]) && ws[k]["wire_color"] == GroupColour(withBattery, k)
  }

  /** Appending one more part's group keeps the colour cycle. */
  lemma GroupExtendsCycle(before: seq<Dict>, withBattery: bool, n: nat, part: string, controller: string)
    requires CycleShaped(before, withBattery, n)
    ensures CycleShaped(before + Group(withBattery, part, controller), withBattery, n + 1)
  {
    var g := Group(withBattery, part, controller);
    var ws := before + g;
    GroupShape(withBattery, part, controller);
    forall k | |before| <= k < |ws|
      ensures GeneratedKeys(ws[k]) && ws[k]["wire_color"] == GroupColour(withBattery, k)
    {
      var j := k - |before|;
      assert ws[k] == g[j];
      GroupColourShift(withBattery, n, j);
    }
  }

  /** The position inside a group of wires. */
  lemma ModGroup(width: nat, n: nat, j: nat)
    requires width == 2 || width == 3
    requires j < width
    ensures (width * n + j) % width == j
  {
  }

  /** The wires one part gets: with a battery three, otherwise two. */
  function Group(withBattery: bool, part: string, controller: string): seq<Dict> {
    if withBattery then PoweredWires(part, controller) else UsbWires(part, controller)
  }

  /** One part's group is a full colour cycle of generated wires. */
  lemma GroupShape(withBattery: bool, part: string, controller: string)
    ensures var g := Group(withBattery, part, controller);
      && |g| == (if withBattery then 3 else 2)
      && forall j :: 0 <= j < |g| ==> GeneratedKeys(g[j]) && g[j]["wire_color"] == GroupColour(withBattery, j)
  {
  }

  /** The colour cycle restarts with every group. */
  lemma GroupColourShift(withBattery: bool, n: nat, j: nat)
    requires j < (if withBattery then 3 else 2)
    ensures GroupColour(withBattery, (if withBattery then 3 else 2) * n + j) == GroupColour(withBattery, j)
  {
    ModGroup(if withBattery then 3 else 2, n, j);
  }

  /** The loop raises exactly when some part it wires, or the controller it then names, has no name. */
  lemma {:induction false} LoopWiresRaises(parts: seq<Dict>, battery: Option<Dict>, controller: Dict)
    ensures LoopWires(parts, battery, controller).Err? <==>
      exists j :: 0 <= j < |parts| && !Skipped(parts[j], battery, controller) &&
        ("name" !in parts[j] || "name" !in controller)
    decreases |parts|
  {
    if parts != [] {
      var prefix := parts[..|parts| - 1];
      LoopWiresRaises(prefix, battery, controller);
      if exists j :: 0 <= j < |prefix| && !Skipped(prefix[j], battery, controller) &&
          ("name" !in prefix[j] || "name" !in controller) {
        var j :| 0 <= j < |prefix| && !Skipped(prefix[j], battery, controller) &&
          ("name" !in prefix[j] || "name" !in controller);
        assert parts[j] == prefix[j];
      }
      if exists j :: 0 <= j < |parts| && !Skipped(parts[j], battery, controller) &&
          ("name" !in parts[j] || "name" !in controller) {
        var j :| 0 <= j < |parts| && !Skipped(parts[j], battery, controller) &&
          ("name" !in parts[j] || "name" !in controller);
        if j < |prefix| {
          assert prefix[j] == parts[j];
        }
      }
    }
  }

  /** The fallback sizes: 2 + 3k with a battery, 2k without, none without a controller. */
  lemma FallbackCount(parts: seq<Dict>)
    requires Fallback(parts).Ok?
    ensures var ws := Fallback(parts).value;
      var battery := FirstWith(parts, Power);
      var controller := FirstWith(parts, Control);
      && (controller.None? ==> ws == [])
      && (controller.Some? && battery.Some? ==> |ws| == 2 + 3 * EligibleCount(parts, battery, controller.value))
      && (controller.Some? && battery.None? ==> |ws| == 2 * EligibleCount(parts, None, controller.value))
  {
    var battery := FirstWith(parts, Power);
    var controller := FirstWith(parts, Control);
    if controller.Some? {
      LoopWiresShape(parts, if battery.Some? then battery else None, controller.value);
    }
  }

  /** With a battery, the wiring starts with the controller's supply: Red, then Black. */
  lemma FallbackStartsWithSupply(parts: seq<Dict>)
    requires Fallback(parts).Ok?
    requires FirstWith(parts, Power).Some? && FirstWith(parts, Control).Some?
    ensures var ws := Fallback(parts).value;
      var c := FirstWith(parts, Control).value;
      var b := FirstWith(parts, Power).value;
      && |ws| >= 2 && ws[..2] == SupplyWires(c["name"], b["name"])
      && ws[0]["wire_color"] == "Red" && ws[1]["wire_color"] == "Black"
  {
  }

  // every end of a generated wire names its pin after " ("

  /** A pin text the split gives back unchanged. */
  predicate CleanPin(pin: string) {
    && pin != []
    && !IsSpace(Py, pin[0]) && !IsSpace(Py, pin[|pin| - 1])
    && forall k :: 0 <= k < |pin| ==> pin[k] != '(' && pin[k] != ')'
  }

  /** No ` (` starts after the one that precedes a clean pin. */
  lemma NoSplitAfterName(name: string, pin: string, k: int)
    requires CleanPin(pin) && k > |name|
    ensures !OccursAt(name + " (" + pin + ")", " (", k)
  {
    var s := name + " (" + pin + ")";
    if k + 2 <= |s| {
      assert s[k..k + 2][1] == s[k + 1];
      if k + 1 < |s| - 1 {
        assert s[k + 1] == pin[k + 1 - |name| - 2];
      } else {
        assert s[k + 1] == ')';
      }
    }
  }

  /** Splitting `name (pin)` gives the stripped name and the pin, whatever the name holds. */
  lemma SplitGenerated(name: string, pin: string)
    requires CleanPin(pin)
    ensures var s := name + " (" + pin + ")"; var pieces := RSplitOnce(s, " (");
      && Contains(s, "(") && |pieces| == 2
      && Trim(Py, pieces[0]) == Trim(Py, name)
      && Trim(Py, RemoveChar(pieces[1], ')')) == pin
  {
    var s := name + " (" + pin + ")";
    assert s[|name|..|name| + 2] == " (";
    ContainsSelf(" (");
    ContainsInSlice(s, |name|, |name| + 2, " (");
    assert s[|name| + 1..|name| + 2] == "(";
    ContainsSelf("(");
    ContainsInSlice(s, |name| + 1, |name| + 2, "(");
    var pieces := RSplitOnce(s, " (");
    assert OccursAt(s, " (", |name|);
    var k := |pieces[0]|;
    assert OccursAt(s, " (", k);
    if k > |name| {
      NoSplitAfterName(name, pin, k);
    }
    assert pieces[0] == name;
    assert pieces[1] == pin + ")";
    RemoveTrailingChar(pin, ')');
    TrimClean(Py, pin);
  }

  /** An end written as `name (pin)` normalises to the stripped name and the pin. */
  lemma EndRoundTrip(w: Dict, e: End, acc: Dict, name: string, pin: string)
    requires e.raw in w && w[e.raw] == name + " (" + pin + ")" && CleanPin(pin)
    ensures NormaliseEnd(w, e, acc) == Ok(acc[e.part := Trim(Py, name)][e.pin := pin])
  {
    SplitGenerated(name, pin);
  }

  /** A wire written as `a (pa)` to `b (pb)` normalises to the stripped names and the pins. */
  lemma WireRoundTrip(a: string, pa: string, b: string, pb: string, caption: string, colour: string)
    requires CleanPin(pa) && CleanPin(pb)
    ensures var w := MakeWire(a + " (" + pa + ")", b + " (" + pb + ")", caption, colour);
      NormaliseWire(w) == Ok(w["from_part" := Trim(Py, a)]["from_pin" := pa]["to_part" := Trim(Py, b)]["to_pin" := pb])
  {
    var w := MakeWire(a + " (" + pa + ")", b + " (" + pb + ")", caption, colour);
    EndRoundTrip(w, FromEnd, w, a, pa);
    EndRoundTrip(w, ToEnd, w["from_part" := Trim(Py, a)]["from_pin" := pa], b, pb);
  }

  /** The pins the fallback writes on the wired part's side, and on the controller's side. */
  function PartPins(withBattery: bool): seq<string> {
    if withBattery then ["VCC", "GND", "Data"] else ["VCC", "GND"]
  }

  function ControllerPins(withBattery: bool): seq<string> {
    if withBattery then ["3V3/5V", "GND", "GPIO"] else ["3V3", "GND"]
  }

  /** Every pin the fallback writes is clean. */
  lemma GeneratedPinsClean(withBattery: bool)
    ensures forall k :: 0 <= k < |PartPins(withBattery)| ==> CleanPin(PartPins(withBattery)[k])
    ensures forall k :: 0 <= k < |ControllerPins(withBattery)| ==> CleanPin(ControllerPins(withBattery)[k])
  {
  }

  /** Wire `k` of one part's group runs from the part's pin `k` to the controller's pin `k`. */
  lemma GroupWire(withBattery: bool, part: string, controller: string, k: nat)
    requires k < |Group(withBattery, part, controller)|
    ensures var g := Group(withBattery, part, controller);
      && |PartPins(withBattery)| == |ControllerPins(withBattery)| == |g|
      && g[k] == MakeWire(PinRef(part, PartPins(withBattery)[k]), PinRef(controller, ControllerPins(withBattery)[k]),
                          g[k]["label"], g[k]["wire_color"])
  {
  }

  /**
   * The wires the fallback writes for one part normalise without error, one
   * for one: each keeps its keys and gains the stripped part name at the
   * part's pin VCC, GND (and Data) and the stripped controller name at the
   * controller's pin 3V3/5V, GND (and GPIO), or 3V3 and GND over USB.
   */
  lemma GroupNormalises(withBattery: bool, part: string, controller: string)
    ensures var g := Group(withBattery, part, controller);
      && NormaliseAll(g).Ok?
      && |NormaliseAll(g).value| == |g| == |PartPins(withBattery)| == |ControllerPins(withBattery)|
      && forall k :: 0 <= k < |g| ==>
           NormaliseAll(g).value[k]
             == g[k]["from_part" := Trim(Py, part)]["from_pin" := PartPins(withBattery)[k]]
                    ["to_part" := Trim(Py, controller)]["to_pin" := ControllerPins(withBattery)[k]]
  {
    var g := Group(withBattery, part, controller);
    var pp, cp := PartPins(withBattery), ControllerPins(withBattery);
    GeneratedPinsClean(withBattery);
    forall k | 0 <= k < |g|
      ensures NormaliseWire(g[k])
        == Ok(g[k]["from_part" := Trim(Py, part)]["from_pin" := pp[k]]["to_part" := Trim(Py, controller)]["to_pin" := cp[k]])
    {
      GroupWire(withBattery, part, controller, k);
      assert CleanPin(pp[k]) && CleanPin(cp[k]);
      WireRoundTrip(part, pp[k], controller, cp[k], g[k]["label"], g[k]["wire_color"]);
    }
    NormaliseAllPointwise(g);
  }

  /** The generated ends all split cleanly. */
  predicate SplitsCleanly(w: Dict) {
    && ("from" in w ==> Contains(w["from"], " ("))
    && ("to" in w ==> Contains(w["to"], " ("))
  }

  /** A wire whose ends, where present, hold ` (` never raises. */
  lemma CleanWireNormalises(w: Dict)
    requires SplitsCleanly(w)
    ensures NormaliseWire(w).Ok?
  {
  }

  /** A name followed by a text starting with ` (` holds ` (`. */
  lemma GeneratedEndContains(name: string, pin: string)
    ensures Contains(PinRef(name, pin), " (")
  {
    var s := PinRef(name, pin);
    assert s[|name|..|name| + 2] == " (";
    ContainsSelf(" (");
    ContainsInSlice(s, |name|, |name| + 2, " (");
  }

  /** Every generated wire splits cleanly. */
  lemma GeneratedWiresSplit(part: string, controller: string, battery: string)
    ensures forall w :: w in PoweredWires(part, controller) + UsbWires(part, controller) + SupplyWires(controller, battery) ==> SplitsCleanly(w)
  {
    GeneratedEndContains(part, "VCC");
    GeneratedEndContains(part, "GND");
    GeneratedEndContains(part, "Data");
    GeneratedEndContains(controller, "3V3/5V");
    GeneratedEndContains(controller, "GND");
    GeneratedEndContains(controller, "GPIO");
    GeneratedEndContains(controller, "3V3");
    GeneratedEndContains(controller, "5V/VCC");
    GeneratedEndContains(battery, "VCC");
    GeneratedEndContains(battery, "GND");
  }

  /** The loop's wires all split cleanly. */
  lemma {:induction false} LoopWiresSplit(parts: seq<Dict>, battery: Option<Dict>, controller: Dict)
    requires LoopWires(parts, battery, controller).Ok?
    ensures forall w :: w in LoopWires(parts, battery, controller).value ==> SplitsCleanly(w)
    decreases |parts|
  {
    if parts != [] {
      var prefix := parts[..|parts| - 1];
      LoopWiresSplit(prefix, battery, controller);
      var p := parts[|parts| - 1];
      if !Skipped(p, battery, controller) {
        GeneratedWiresSplit(p["name"], controller["name"], "");
      }
    }
  }

  /** A wiring normalises exactly when each of its wires does, giving one wire per wire, in order. */
  lemma NormaliseAllPointwise(ws: seq<Dict>)
    ensures NormaliseAll(ws).Ok? <==> forall i :: 0 <= i < |ws| ==> NormaliseWire(ws[i]).Ok?
    ensures NormaliseAll(ws).Ok? ==>
      var out := NormaliseAll(ws).value;
      |out| == |ws| && forall i :: 0 <= i < |ws| ==> NormaliseWire(ws[i]) == Ok(out[i])
  {
    MapAllFails(NormaliseWire, ws);
    if NormaliseAll(ws).Ok? {
      MapAllPointwise(NormaliseWire, ws);
    }
  }

  /** The fallback wiring never trips the index error of the split. */
  lemma FallbackNormalises(parts: seq<Dict>)
    requires Fallback(parts).Ok?
    ensures NormaliseAll(Fallback(parts).value).Ok?
  {
    var ws := Fallback(parts).value;
    var battery := FirstWith(parts, Power);
    var controller := FirstWith(parts, Control);
    if controller.Some? {
      var b := if battery.Some? then battery else None;
      LoopWiresSplit(parts, b, controller.value);
      if battery.Some? {
        GeneratedWiresSplit("", controller.value["name"], battery.value["name"]);
      }
    }
    forall i | 0 <= i < |ws| ensures NormaliseWire(ws[i]).Ok? {
      CleanWireNormalises(ws[i]);
    }
    NormaliseAllPointwise(ws);
  }

  /**
   * Normalising a wire keeps all its keys and every value other than the
   * four endpoint fields, and always yields `from_part` and `to_part`.
   */
  lemma NormaliseKeepsKeys(w: Dict)
    requires NormaliseWire(w).Ok?
    ensures var n := NormaliseWire(w).value;
      && (forall k :: k in w ==> k in n)
      && (forall k :: k in w && k !in {"from_part", "from_pin", "to_part", "to_pin"} ==> n[k] == w[k])
      && "from_part" in n && "to_part" in n
  {
    NormaliseEndKeeps(w, FromEnd, w);
    NormaliseEndKeeps(w, ToEnd, NormaliseEnd(w, FromEnd, w).value);
  }

  /**
   * One end keeps every key of the copy it writes to and every value but its
   * own two fields, and leaves its part field present.
   */
  lemma NormaliseEndKeeps(w: Dict, e: End, acc: Dict)
    requires NormaliseEnd(w, e, acc).Ok?
    requires forall k :: k in w ==> k in acc
    ensures var n := NormaliseEnd(w, e, acc).value;
      && (forall k :: k in acc ==> k in n)
      && (forall k :: k in acc && k != e.part && k != e.pin ==> n[k] == acc[k])
      && e.part in n
  {
  }

  /** An end with an existing part field and no `(` is left exactly as it was. */
  lemma ExistingEndUntouched(w: Dict)
    requires NormaliseWire(w).Ok?
    requires "from_part" in w && !("from" in w && Contains(w["from"], "("))
    ensures var n := NormaliseWire(w).value;
      && n["from_part"] == w["from_part"]
      && ("from_pin" in n <==> "from_pin" in w)
      && ("from_pin" in w ==> n["from_pin"] == w["from_pin"])
  {
  }

  /** An end without `(` and without a part field becomes the raw text (or "Unknown") at pin "Pin". */
  lemma BareEndDefaults(w: Dict)
    requires NormaliseWire(w).Ok?
    requires "from_part" !in w && !("from" in w && Contains(w["from"], "("))
    ensures var n := NormaliseWire(w).value;
      && n["from_part"] == (if "from" in w then w["from"] else "Unknown")
      && n["from_pin"] == "Pin"
  {
  }

  /** An end holding `(` but not ` (` raises, whatever else the wire holds. */
  lemma ParenWithoutSpaceRaises(w: Dict, e: End, acc: Dict)
    requires e.raw in w && Contains(w[e.raw], "(") && !Contains(w[e.raw], " (")
    ensures NormaliseEnd(w, e, acc) == Err(IndexOutOfRange)
  {
  }

  /** A wire `from` of `"A(B)"` turns the whole plan into the error record. */
  lemma GluedPinFailsPlan()
    ensures PostProcess(Plan(None, Some([map["from" := "A(B)", "to" := "C (D)"]])))
         == Err(PlanError(IndexOutOfRange, PlanFailed))
  {
    var s := "A(B)";
    assert s[1..2] == "(";
    ContainsSelf("(");
    ContainsInSlice(s, 1, 2, "(");
    ContainsOccurs(s, " (");
    assert s[0] == 'A' && s[1] == '(' && s[2] == 'B';
    assert s[0..2][0] != ' ' && s[1..3][0] != ' ' && s[2..4][0] != ' ';
    var w: Dict := map["from" := "A(B)", "to" := "C (D)"];
    ParenWithoutSpaceRaises(w, FromEnd, w);
    NormaliseAllPointwise([w]);
  }

  /**
   * Parts default to empty and are passed back untouched; wiring that is
   * present and non-empty is normalised as it stands, the fallback being
   * used only for missing or empty wiring.
   */
  lemma PostProcessUsesGivenWiring(data: Plan)
    requires data.wiring.Some? && data.wiring.value != []
    ensures PostProcess(data).Ok? <==> NormaliseAll(data.wiring.value).Ok?
    ensures PostProcess(data).Ok? ==>
      && PostProcess(data).value.parts == data.parts.GetOr([])
      && PostProcess(data).value.wiring == NormaliseAll(data.wiring.value).value
  {
  }

  /** Missing wiring with no controller among the parts yields an empty wiring. */
  lemma NoControllerNoWiring(parts: seq<Dict>)
    requires forall j :: 0 <= j < |parts| ==> !IsController(parts[j])
    ensures PostProcess(Plan(Some(parts), None)) == Ok(Checked(parts, []))
  {
    assert RoleFrom(parts, Control, 0) == -1;
  }
}
