/**
 * Cable routing in the 3D build viewer (`Wires`): each connection's two
 * references are resolved to parts by name, turned into exploded endpoint
 * coordinates, joined by a raised quadratic arc, and coloured.
 */
module Cables {
  import opened Wrappers
  import opened Text
  import opened BuildData
  import opened Scene

  /** The `findIndex` test: a non-empty part name equal to the reference or contained in it. */
  predicate NameMatches(p: Part, reference: string) {
    p.name != "" && (p.name == reference || Contains(reference, p.name))
  }

  /** `findIndex` from position `k` on. */
  function FindFrom(parts: seq<Part>, reference: string, k: nat): (r: int)
    requires k <= |parts|
    decreases |parts| - k
    ensures r == -1 || k <= r < |parts|
    ensures r >= 0 ==> NameMatches(parts[r], reference)
    ensures forall j :: k <= j < |parts| && (r == -1 || j < r) ==> !NameMatches(parts[j], reference)
  {
    if k == |parts| then -1
    else if NameMatches(parts[k], reference) then k
    else FindFrom(parts, reference, k + 1)
  }

  /**
   * `partsList.findIndex(...)`: the first part in list order whose name
   * matches, or -1 when none does.
   */
  function FindPart(parts: seq<Part>, reference: string): (r: int)
    ensures -1 <= r < |parts|
    ensures r >= 0 ==> NameMatches(parts[r], reference)
    ensures r >= 0 ==> forall j :: 0 <= j < r ==> !NameMatches(parts[j], reference)
    ensures r == -1 <==> forall j :: 0 <= j < |parts| ==> !NameMatches(parts[j], reference)
  {
    FindFrom(parts, reference, 0)
  }

  /** The ends of a cable are 0.5 above an explicitly placed part. */
  const PlacedLift: real := 0.5

  /**
   * `getPos`: an empty or missing reference, or one no part matches, is the
   * origin. A placed part gives its exploded placement lifted by 0.5; any
   * other part gives the centre of its cell in the spacing-7 grid of the
   * whole list, exploded on x and z, at height `0.5 + 3e` (even index) or
   * `0.5 + 4.5e` (odd index).
   */
  function Endpoint(parts: seq<Part>, reference: Option<string>, explosion: real): Vec3 {
    if !Truthy(reference) then Origin
    else
      var index := FindPart(parts, reference.value);
      if index == -1 then Origin
      else
        var part := parts[index];
        match part.placement
        case Some(pl) =>
          var v := Explode(Vec3(Coord(pl.x), Coord(pl.y), Coord(pl.z)), explosion);
          Vec3(v.x, v.y + PlacedLift, v.z)
        case None =>
          // x and z are scaled by `1 + e/2` exactly as `Explode` scales them
          var spread := Explode(GridPosition(index, |parts|, 7.0), explosion);
          Vec3(spread.x,
               0.5 + (explosion * 3.0) * (if index % 2 == 0 then 1.0 else 1.5),
               spread.z)
  }

  /** The middle control point: the midpoint of the ends raised by `4 + 2e`. */
  function MidPoint(start: Vec3, end: Vec3, explosion: real): Vec3 {
    Vec3((start.x + end.x) * 0.5, (start.y + end.y) * 0.5 + (4.0 + explosion * 2.0), (start.z + end.z) * 0.5)
  }

  /** The wire colours the viewer knows by name. */
  const Red: string := "#d32f2f"
  const Black: string := "#212121"
  const Blue: string := "#1976d2"
  const Yellow: string := "#fbc02d"
  const Green: string := "#388e3c"

  /** The colour of a cable: a known alias after lower-casing, or the lower-cased text itself, or gray. */
  function WireColor(wireColor: Option<string>): (color: string)
    ensures !Truthy(wireColor) ==> color == "gray"
    ensures Truthy(wireColor) ==>
      var c := Lower(wireColor.value);
      && (c in {"vcc", "5v", "red"} ==> color == Red)
      && (c in {"gnd", "ground", "black"} ==> color == Black)
      && (c == "blue" ==> color == Blue)
      && (c == "yellow" ==> color == Yellow)
      && (c == "green" ==> color == Green)
      && (c !in {"vcc", "5v", "red", "gnd", "ground", "black", "blue", "yellow", "green"} ==> color == c)
  {
    var color := if Truthy(wireColor) then Lower(wireColor.value) else "gray";
    if color in {"vcc", "5v", "red"} then Red
    else if color in {"gnd", "ground", "black"} then Black
    else if color == "blue" then Blue
    else if color == "yellow" then Yellow
    else if color == "green" then Green
    else color
  }

  /** The colour resolution as the render loop writes it, reassigning `color` step by step. */
  method ResolveColor(wireColor: Option<string>) returns (color: string)
    ensures color == WireColor(wireColor)
  {
    color := "gray";
    if Truthy(wireColor) {
      color := Lower(wireColor.value);
    }
    if color == "vcc" || color == "5v" || color == "red" {
      color := Red;
    } else if color == "gnd" || color == "ground" || color == "black" {
      color := Black;
    } else if color == "blue" {
      color := Blue;
    } else if color == "yellow" {
      color := Yellow;
    } else if color == "green" {
      color := Green;
    }
  }

  /**
   * Only the aliases and the hex code itself give a palette colour: a
   * "#D32F2F" typed by hand passes through lower-cased and so is red too.
   */
  lemma RedExactly(s: string)
    requires s != ""
    ensures WireColor(Some(s)) == Red <==> Lower(s) in {"vcc", "5v", "red", Red}
  {
  }

  /** A rendered cable: a quadratic arc through three points, with its line style. */
  datatype Curve = Curve(start: Vec3, mid: Vec3, end: Vec3, color: string, width: nat, dashed: bool)

  /** One cable: blueprint mode draws thin dashed cyan lines, normal mode solid width-3 lines in the wire colour. */
  function Route(parts: seq<Part>, w: Wire, explosion: real, blueprint: bool): Curve {
    var start := Endpoint(parts, w.fromPart, explosion);
    var end := Endpoint(parts, w.toPart, explosion);
    Curve(start, MidPoint(start, end, explosion), end,
          if blueprint then "#00ffff" else WireColor(w.wireColor),
          if blueprint then 1 else 3,
          blueprint)
  }

  /** `wiring.map(...)`: one cable per connection, in order (none at all for an empty list). */
  function RouteAll(parts: seq<Part>, wiring: seq<Wire>, explosion: real, blueprint: bool): (curves: seq<Curve>)
    ensures |curves| == |wiring|
  {
    seq(|wiring|, i requires 0 <= i < |wiring| => Route(parts, wiring[i], explosion, blueprint))
  }

  // ------------------------------------------------------------ properties

  /** Colour resolution ignores letter case. */
  lemma WireColorIgnoresCase(s: string)
    ensures WireColor(Some(s)) == WireColor(Some(Lower(s)))
  {
    LowerIdempotent(s);
    assert (s == "") <==> (Lower(s) == "");
  }

  /**
   * Resolution is deterministic amid duplicate names: an earlier part
   * that matches always wins over a later one.
   */
  lemma FirstMatchWins(parts: seq<Part>, reference: string, i: nat)
    requires i < |parts| && NameMatches(parts[i], reference)
    ensures 0 <= FindPart(parts, reference) <= i
  {
  }

  /** A reference equal to a part's name resolves to that part or to an earlier match. */
  lemma ExactNameResolves(parts: seq<Part>, i: nat)
    requires i < |parts| && parts[i].name != ""
    ensures 0 <= FindPart(parts, parts[i].name) <= i
  {
  }

  /**
   * A cable that ends at an explicitly placed part ends 0.5 above where that
   * part is drawn (the part's own exploded placement).
   */
  lemma EndpointOverPlacedPart(parts: seq<Part>, reference: string, explosion: real)
    requires reference != ""
    requires var i := FindPart(parts, reference); i >= 0 && parts[i].placement.Some?
    ensures var i := FindPart(parts, reference);
      var drawn := Explode(BasePosition(parts[i], i, |parts|), explosion);
      Endpoint(parts, Some(reference), explosion) == Vec3(drawn.x, drawn.y + PlacedLift, drawn.z)
  {
  }

  /**
   * A cable that ends at a part on the fallback grid ends straight above
   * where that part is drawn; only the height differs.
   */
  lemma EndpointOverFallbackPart(parts: seq<Part>, reference: string, explosion: real)
    requires reference != ""
    requires var i := FindPart(parts, reference); i >= 0 && LayoutOf(parts[i]) == FallbackGrid
    ensures var i := FindPart(parts, reference);
      var drawn := Explode(BasePosition(parts[i], i, |parts|), explosion);
      var end := Endpoint(parts, Some(reference), explosion);
      end.x == drawn.x && end.z == drawn.z
  {
    var i := FindPart(parts, reference);
    FallbackBase(parts[i], i, |parts|);
    EndpointIgnoresCategory(parts, reference, explosion);
    var base := GridPosition(i, |parts|, 7.0);
    assert Explode(BasePosition(parts[i], i, |parts|), explosion) == Explode(base, explosion);
  }

  /** A fallback-grid part is unplaced and sits on the spacing-7 grid. */
  lemma FallbackBase(p: Part, i: nat, n: nat)
    requires i < n && LayoutOf(p) == FallbackGrid
    ensures p.placement.None? && BasePosition(p, i, n) == GridPosition(i, n, 7.0)
  {
  }

  /**
   * For any other unplaced part the endpoint is still the spacing-7 grid
   * cell of its index, whatever its category, so it need not be where the
   * part is drawn (an interior-grid part sits on the spacing-1.5 grid).
   */
  lemma EndpointIgnoresCategory(parts: seq<Part>, reference: string, explosion: real)
    requires reference != ""
    requires var i := FindPart(parts, reference); i >= 0 && parts[i].placement.None?
    ensures var i := FindPart(parts, reference);
      var base := GridPosition(i, |parts|, 7.0);
      var end := Endpoint(parts, Some(reference), explosion);
      end.x == Explode(base, explosion).x && end.z == Explode(base, explosion).z
  {
  }

  /** A reference that is missing, empty or matches no part puts the cable end at the origin. */
  lemma UnresolvedIsOrigin(parts: seq<Part>, reference: Option<string>, explosion: real)
    requires !Truthy(reference) || forall j :: 0 <= j < |parts| ==> !NameMatches(parts[j], reference.value)
    ensures Endpoint(parts, reference, explosion) == Origin
  {
  }

  /** The arc sits `4 + 2e` above the ends' midpoint, so it grows taller as the view opens. */
  lemma ArcRisesWithExplosion(a: Vec3, b: Vec3, e1: real, e2: real)
    requires 0.0 <= e1 < e2
    ensures MidPoint(a, b, e1).y - (a.y + b.y) / 2.0 == 4.0 + 2.0 * e1 >= 4.0
    ensures MidPoint(a, b, e1).y < MidPoint(a, b, e2).y
  {
  }

  /**
   * The blueprint flag changes only the style: the same three points
   * either way, and exactly (1, cyan, dashed) against (3, wire colour, solid).
   */
  lemma BlueprintOnlyRestyles(parts: seq<Part>, wiring: seq<Wire>, explosion: real, i: nat)
    requires i < |wiring|
    ensures var b, n := RouteAll(parts, wiring, explosion, true)[i], RouteAll(parts, wiring, explosion, false)[i];
      && b.start == n.start && b.mid == n.mid && b.end == n.end
      && b.width == 1 && b.color == "#00ffff" && b.dashed
      && n.width == 3 && n.color == WireColor(wiring[i].wireColor) && !n.dashed
  {
  }
}
