/**
 * Placement of parts in the 3D build viewer: the explicit-placement override,
 * the per-category auto-layout, the exploded-view transform, and the choice
 * of the preset mesh (with the rotation some presets force).
 */
module Scene {
  import opened Wrappers
  import opened Text
  import opened BuildData

  datatype Vec3 = Vec3(x: real, y: real, z: real)

  const Origin: Vec3 := Vec3(0.0, 0.0, 0.0)

  /** JavaScript's `Math.PI`. */
  const Pi: real := 3.141592653589793

  /** The radius of the four drone arms. */
  const ArmRadius: real := 4.8

  /** `Math.sin(45°) * 4.8`, the distance of an arm tip from each axis, to sixteen digits. */
  const ArmReach: real := 3.394112549695428

  // ---------------------------------------------------------------- helpers

  /** Degrees to radians, element by element (`r * (Math.PI / 180)`). */
  function Radians(degrees: seq<real>): (r: seq<real>)
    ensures |r| == |degrees|
    ensures forall i :: 0 <= i < |r| ==> r[i] * 180.0 == degrees[i] * Pi
  {
    seq(|degrees|, i requires 0 <= i < |degrees| => degrees[i] * (Pi / 180.0))
  }

  /** A natural number is at most its square. */
  lemma SquareAtLeastSelf(c: nat)
    ensures c <= c * c
  {
    if c > 0 {
      assert c * c == c * (c - 1) + c;
    }
  }

  /** Squaring is monotone on the naturals. */
  lemma SquareMonotone(a: nat, b: nat)
    requires a <= b
    ensures a * a <= b * b
  {
    assert a * a <= a * b;
    assert a * b <= b * b;
  }

  /** The least `r >= c` with `r * r >= n`, searching upwards from `c`. */
  function CeilSqrtFrom(n: nat, c: nat): (r: nat)
    requires c == 0 || (c - 1) * (c - 1) < n
    decreases n - c
    ensures r * r >= n
    ensures r == 0 || (r - 1) * (r - 1) < n
  {
    if c * c >= n then c
    else
      SquareAtLeastSelf(c);
      CeilSqrtFrom(n, c + 1)
  }

  /** `Math.ceil(Math.sqrt(n))`: the least natural number whose square is at least `n`. */
  function CeilSqrt(n: nat): (c: nat)
    ensures c * c >= n
    ensures c == 0 || (c - 1) * (c - 1) < n
  {
    CeilSqrtFrom(n, 0)
  }

  /** No smaller number than `CeilSqrt(n)` has a square of at least `n`; it is at least 1 when `n` is. */
  lemma CeilSqrtLeast(n: nat, d: nat)
    requires d * d >= n
    ensures CeilSqrt(n) <= d
    ensures n > 0 ==> CeilSqrt(n) >= 1
  {
    var c := CeilSqrt(n);
    if d < c {
      SquareMonotone(d, c - 1);
    }
  }

  /** At least one column for a non-empty grid. */
  lemma ColumnsPositive(n: nat)
    requires n > 0
    ensures CeilSqrt(n) >= 1
  {
    SquareAtLeastSelf(n);
    CeilSqrtLeast(n, n);
  }

  // ------------------------------------------------------------------- grid

  /** A grid cell: `row = floor(index / cols)`, `col = index % cols`. */
  datatype Cell = Cell(row: nat, col: nat)

  function GridCell(index: nat, total: nat): Cell
    requires index < total
  {
    var cols := CeilSqrt(total);
    ColumnsPositive(total);
    Cell(index / cols, index % cols)
  }

  /** Euclidean division: quotient and remainder determine the dividend. */
  lemma DivModDetermine(i: nat, j: nat, c: nat)
    requires c > 0
    requires i / c == j / c && i % c == j % c
    ensures i == j
  {
    assert i == (i / c) * c + i % c;
    assert j == (j / c) * c + j % c;
  }

  /** A quotient by `c` of a number below `c * c` is below `c`. */
  lemma QuotientBelow(i: nat, c: nat)
    requires c > 0 && i < c * c
    ensures i / c < c
  {
    var q := i / c;
    assert q * c <= i;
  }

  /** Every index below `total` lands inside the `cols` x `cols` square. */
  lemma GridCellInSquare(index: nat, total: nat)
    requires index < total
    ensures GridCell(index, total).row < CeilSqrt(total)
    ensures GridCell(index, total).col < CeilSqrt(total)
  {
    ColumnsPositive(total);
    QuotientBelow(index, CeilSqrt(total));
  }

  /** Distinct indices occupy distinct grid cells. */
  lemma GridCellsDistinct(i: nat, j: nat, total: nat)
    requires i < total && j < total && i != j
    ensures GridCell(i, total) != GridCell(j, total)
  {
    var cols := CeilSqrt(total);
    ColumnsPositive(total);
    if GridCell(i, total) == GridCell(j, total) {
      DivModDetermine(i, j, cols);
    }
  }

  /** The centre coordinate of column (or row) `c` of a `cols`-wide grid: `(c - cols/2) * spacing + spacing/2`. */
  function Offset(c: nat, cols: nat, spacing: real): real {
    (c as real - cols as real / 2.0) * spacing + spacing / 2.0
  }

  /** The centre of a cell of a `cols`-wide grid: the column's offset on x, the row's on z, 0.2 on y. */
  function CellCentre(cell: Cell, cols: nat, spacing: real): Vec3 {
    Vec3(Offset(cell.col, cols, spacing), 0.2, Offset(cell.row, cols, spacing))
  }

  /** The centre of the grid cell of `index` in a grid of `total` parts. */
  function GridPosition(index: nat, total: nat, spacing: real): Vec3
    requires index < total
  {
    CellCentre(GridCell(index, total), CeilSqrt(total), spacing)
  }

  /** A non-zero real scaled by a positive one stays non-zero. */
  lemma ScaleNonZero(u: real, k: real)
    requires u != 0.0 && k > 0.0
    ensures u * k != 0.0
  {
  }

  /** With a positive spacing, distinct cells have distinct centres. */
  lemma CellCentresDistinct(a: Cell, b: Cell, cols: nat, spacing: real)
    requires a != b && spacing > 0.0
    ensures CellCentre(a, cols, spacing) != CellCentre(b, cols, spacing)
  {
    var pa, pb := CellCentre(a, cols, spacing), CellCentre(b, cols, spacing);
    if a.col != b.col {
      assert pa.x - pb.x == (a.col as real - b.col as real) * spacing;
      ScaleNonZero(a.col as real - b.col as real, spacing);
    } else {
      assert pa.z - pb.z == (a.row as real - b.row as real) * spacing;
      ScaleNonZero(a.row as real - b.row as real, spacing);
    }
  }

  /** With a positive spacing, distinct indices are drawn at distinct places. */
  lemma GridPositionsDistinct(i: nat, j: nat, total: nat, spacing: real)
    requires i < total && j < total && i != j
    requires spacing > 0.0
    ensures GridPosition(i, total, spacing) != GridPosition(j, total, spacing)
  {
    GridCellsDistinct(i, j, total);
    CellCentresDistinct(GridCell(i, total), GridCell(j, total), CeilSqrt(total), spacing);
  }

  /** Scaling a value in `[-h, h]` by a positive factor keeps it in the scaled interval. */
  lemma ScaleBounds(u: real, h: real, k: real)
    requires -h <= u <= h && k > 0.0
    ensures -(h * k) <= u * k <= h * k
  {
    assert (h - u) * k >= 0.0;
    assert (u + h) * k >= 0.0;
  }

  /** The cell-centre formula, rewritten about the middle column. */
  lemma CentreShift(a: real, c: real, k: real)
    ensures (a - c / 2.0) * k + k / 2.0 == (a - (c - 1.0) / 2.0) * k
  {
  }

  /** A column (or row) inside `cols` has its centre coordinate within `(cols - 1) * spacing / 2` of the origin. */
  lemma CoordinateBounds(c: nat, cols: nat, spacing: real)
    requires c < cols && spacing > 0.0
    ensures var half := (cols - 1) as real / 2.0 * spacing;
      -half <= Offset(c, cols, spacing) <= half
  {
    var h := (cols - 1) as real / 2.0;
    assert (cols - 1) as real == cols as real - 1.0;
    CentreShift(c as real, cols as real, spacing);
    ScaleBounds(c as real - h, h, spacing);
  }

  /** A cell inside the `cols` x `cols` square has its centre within `(cols - 1) * spacing / 2` of the origin. */
  lemma CellCentreBounds(cell: Cell, cols: nat, spacing: real)
    requires cell.row < cols && cell.col < cols
    requires spacing > 0.0
    ensures var p, half := CellCentre(cell, cols, spacing), (cols - 1) as real / 2.0 * spacing;
      -half <= p.x <= half && -half <= p.z <= half
  {
    CoordinateBounds(cell.col, cols, spacing);
    CoordinateBounds(cell.row, cols, spacing);
  }

  /**
   * The grid is centred on the origin: every cell centre lies within
   * `(cols - 1) * spacing / 2` of it on x and on z.
   */
  lemma GridCentred(index: nat, total: nat, spacing: real)
    requires index < total
    requires spacing > 0.0
    ensures var p, half := GridPosition(index, total, spacing), (CeilSqrt(total) - 1) as real / 2.0 * spacing;
      -half <= p.x <= half && -half <= p.z <= half
  {
    GridCellInSquare(index, total);
    CellCentreBounds(GridCell(index, total), CeilSqrt(total), spacing);
  }

  // ----------------------------------------------------------------- layout

  /** The branch of the auto-layout that positions a part. */
  datatype Layout =
    | PlacedByOverride
    | WheelCorner
    | ServoSide
    | MotorArm
    | PropellerArm
    | ChassisAnchor
    | EnclosureAnchor
    | InteriorGrid
    | FallbackGrid

  /** Branch selection: the override first, then the type and name tests in order. */
  function LayoutOf(p: Part): Layout {
    var name, kind := LowerName(p), LowerKind(p);
    if p.placement.Some? then PlacedByOverride
    else if kind == "wheel" then WheelCorner
    else if kind == "motor" then (if Contains(name, "servo") then ServoSide else MotorArm)
    else if kind == "propeller" then PropellerArm
    else if kind == "frame" || Contains(name, "frame") || Contains(name, "chassis") then ChassisAnchor
    else if kind == "enclosure" || Contains(name, "box") || Contains(name, "case") then EnclosureAnchor
    else if kind == "microcontroller" || kind == "camera" || kind == "sensor" || kind == "battery" then InteriorGrid
    else FallbackGrid
  }

  /** The signs of `(sin, cos)` of 45, 135, 225 and 315 degrees, for arm `index % 4`. */
  function ArmSigns(arm: nat): (real, real)
    requires arm < 4
  {
    [(1.0, 1.0), (1.0, -1.0), (-1.0, -1.0), (-1.0, 1.0)][arm]
  }

  /** The horizontal position of the tip of arm `index % 4`. */
  function ArmTip(index: nat, height: real): Vec3 {
    var s := ArmSigns(index % 4);
    Vec3(s.0 * ArmReach, height, s.1 * ArmReach)
  }

  /** An arm tip lies on the circle of radius 4.8, up to the rounding of sin 45 degrees. */
  lemma ArmTipOnCircle(index: nat, height: real)
    ensures var t := ArmTip(index, height);
      -0.000000000001 < t.x * t.x + t.z * t.z - ArmRadius * ArmRadius < 0.000000000001
  {
  }

  /** The four arms are four distinct places, one per quadrant, repeating every four indices. */
  lemma ArmTipsDistinct(i: nat, j: nat, height: real)
    ensures (ArmTip(i, height) == ArmTip(j, height)) <==> (i % 4 == j % 4)
  {
  }

  /** The position a part takes before the explosion. */
  function BasePosition(p: Part, index: nat, total: nat): Vec3
    requires index < total
  {
    match LayoutOf(p)
    case PlacedByOverride =>
      var pl := p.placement.value;
      Vec3(Coord(pl.x), Coord(pl.y), Coord(pl.z))
    case WheelCorner =>
      var side := if index % 2 == 0 then 1.0 else -1.0;
      var front := if index < 2 then 1.0 else -1.0;
      Vec3(side * 1.8, 0.0, front * 1.5)
    case ServoSide => Vec3((if index % 2 == 0 then 1.0 else -1.0) * 2.0, 0.0, 0.0)
    case MotorArm => ArmTip(index, 0.5)
    case PropellerArm => ArmTip(index, 1.0)
    case ChassisAnchor => Origin
    case EnclosureAnchor => Origin
    case InteriorGrid => GridPosition(index, total, 1.5)
    case FallbackGrid => GridPosition(index, total, 7.0)
  }

  /** The rotation a part takes before the preset is chosen (radians). */
  function BaseRotation(p: Part): seq<real> {
    match LayoutOf(p)
    case PlacedByOverride =>
      (match p.placement.value.rotation
       case None => [0.0, 0.0, 0.0]
       case Some(degrees) => Radians(degrees))
    case WheelCorner => [0.0, 0.0, Pi / 2.0]
    case _ => [0.0, 0.0, 0.0]
  }

  /** The explicit placement decides the position, whatever the part's type, name, index or count. */
  lemma PlacementOverrides(p: Part, q: Part, i: nat, n: nat, j: nat, m: nat)
    requires i < n && j < m
    requires p.placement.Some? && q.placement == p.placement
    ensures var pl := p.placement.value;
      BasePosition(p, i, n) == BasePosition(q, j, m) == Vec3(Coord(pl.x), Coord(pl.y), Coord(pl.z))
    ensures BaseRotation(p) == BaseRotation(q)
    ensures p.placement.value.rotation == None ==> BaseRotation(p) == [0.0, 0.0, 0.0]
  {
  }

  /**
   * Every wheel, at any index, sits at a corner (±1.8, 0, ±1.5): right for an
   * even index and front for the first two; from index 4 on the back corners
   * repeat.
   */
  lemma WheelCorners(p: Part, i: nat, n: nat)
    requires LayoutOf(p) == WheelCorner
    requires i < n
    ensures var a := BasePosition(p, i, n);
      && (a.x == 1.8 || a.x == -1.8) && a.y == 0.0 && (a.z == 1.5 || a.z == -1.5)
      && (a.x > 0.0 <==> i % 2 == 0)
      && (a.z > 0.0 <==> i < 2)
    ensures i >= 4 ==> BasePosition(p, i, n) == BasePosition(p, 2 + i % 2, n)
  {
  }

  /** The first four wheels take four different corners. */
  lemma WheelsDistinct(p: Part, i: nat, j: nat, n: nat)
    requires LayoutOf(p) == WheelCorner
    requires i < j < n && j < 4
    ensures BasePosition(p, i, n) != BasePosition(p, j, n)
  {
  }

  /** Parts laid out on a grid and given distinct indices never share a place. */
  lemma GridBranchesDistinct(p: Part, q: Part, i: nat, j: nat, n: nat)
    requires i < n && j < n && i != j
    requires LayoutOf(p) == LayoutOf(q)
    requires LayoutOf(p) == InteriorGrid || LayoutOf(p) == FallbackGrid
    ensures BasePosition(p, i, n) != BasePosition(q, j, n)
  {
    if LayoutOf(p) == InteriorGrid {
      GridPositionsDistinct(i, j, n, 1.5);
    } else {
      GridPositionsDistinct(i, j, n, 7.0);
    }
  }

  // -------------------------------------------------------------- explosion

  /** The exploded view: x and z scaled by `1 + 0.5 e`, y raised by `5 e`. */
  function Explode(v: Vec3, e: real): Vec3 {
    Vec3(v.x * (1.0 + e * 0.5), v.y + e * 5.0, v.z * (1.0 + e * 0.5))
  }

  /** With the slider at zero the exploded view is the assembled view. */
  lemma ExplodeAtZero(v: Vec3)
    ensures Explode(v, 0.0) == v
  {
  }

  /** Opening the slider further moves every part up and pushes it away from the vertical axis. */
  lemma ExplodeMonotone(v: Vec3, e1: real, e2: real)
    requires 0.0 <= e1 < e2
    ensures Explode(v, e1).y < Explode(v, e2).y
    ensures v.x > 0.0 ==> Explode(v, e1).x < Explode(v, e2).x
    ensures v.x < 0.0 ==> Explode(v, e1).x > Explode(v, e2).x
    ensures v.z > 0.0 ==> Explode(v, e1).z < Explode(v, e2).z
    ensures v.z < 0.0 ==> Explode(v, e1).z > Explode(v, e2).z
    ensures v.x == 0.0 ==> Explode(v, e2).x == 0.0
    ensures v.z == 0.0 ==> Explode(v, e2).z == 0.0
  {
  }

  /** For a non-negative factor the explosion is one-to-one, so distinct places stay distinct. */
  lemma ExplodeInjective(a: Vec3, b: Vec3, e: real)
    requires e >= 0.0
    requires Explode(a, e) == Explode(b, e)
    ensures a == b
  {
    var k := 1.0 + e * 0.5;
    assert a.x * k == b.x * k && a.z * k == b.z * k;
    assert (a.x - b.x) * k == 0.0 && (a.z - b.z) * k == 0.0;
  }

  // ----------------------------------------------------------------- preset

  /** The preset mesh drawn for a part. */
  datatype Preset =
    | GenericChassis
    | GenericEnclosure
    | Wheel
    | ESP32Cam
    | DroneArm
    | Propeller
    | ArduinoUno
    | RaspberryPi
    | ESP32
    | DisplayModule
    | Motor
    | Battery
    | SensorModule(caption: string)

  /** The preset chain: the first test that succeeds decides; the part's own name labels the default. */
  function Classify(p: Part): Preset {
    var name, kind := LowerName(p), LowerKind(p);
    if kind == "frame" || Contains(name, "frame") || Contains(name, "chassis") then GenericChassis
    else if kind == "enclosure" || Contains(name, "box") || Contains(name, "case") then GenericEnclosure
    else if kind == "wheel" || Contains(name, "wheel") || Contains(name, "tire") then Wheel
    else if kind == "camera" || Contains(name, "cam") then ESP32Cam
    else if kind == "frame" || Contains(name, "arm") then DroneArm
    else if kind == "propeller" || Contains(name, "prop") || Contains(name, "rotor") then Propeller
    else if kind == "microcontroller" then
      (if Contains(name, "uno") || Contains(name, "mega") then ArduinoUno
       else if Contains(name, "pi") || Contains(name, "raspberry") then RaspberryPi
       else if Contains(name, "cam") then ESP32Cam
       else ESP32)
    else if kind == "display" || Contains(name, "screen") || Contains(name, "lcd") || Contains(name, "oled") then DisplayModule
    else if kind == "motor" || kind == "servo" || Contains(name, "motor") || Contains(name, "fan") then Motor
    else if kind == "battery" || Contains(name, "battery") || Contains(name, "lipo") then Battery
    else if Contains(name, "arduino") then ArduinoUno
    else if Contains(name, "pi") || Contains(name, "raspberry") then RaspberryPi
    else SensorModule(p.name)
  }

  /** The final rotation: the Motor preset stands the part up, the Battery preset lays it down. */
  function FinalRotation(p: Part): seq<real> {
    match Classify(p)
    case Motor => [0.0, 0.0, 0.0]
    case Battery => [0.0, 0.0, Pi / 2.0]
    case _ => BaseRotation(p)
  }

  /** The Motor and Battery presets override the rotation even of explicitly placed parts. */
  lemma PresetRotationWins(p: Part)
    ensures Classify(p) == Motor ==> FinalRotation(p) == [0.0, 0.0, 0.0]
    ensures Classify(p) == Battery ==> FinalRotation(p) == [0.0, 0.0, Pi / 2.0]
    ensures Classify(p) != Motor && Classify(p) != Battery ==> FinalRotation(p) == BaseRotation(p)
  {
  }

  /**
   * For a Motor or Battery part the placement, and any rotation it gives, has
   * no effect on the final rotation or the preset.
   */
  lemma PresetIgnoresPlacement(p: Part, placement: Option<Placement>)
    requires Classify(p) == Motor || Classify(p) == Battery
    ensures Classify(p.(placement := placement)) == Classify(p)
    ensures FinalRotation(p.(placement := placement)) == FinalRotation(p)
  {
  }

  /**
   * The arm test's `type === 'frame'` can never decide: a frame-typed part is
   * caught by the first test. A part drawn as an arm has "arm" in its name.
   */
  lemma ArmNeedsArmInName(p: Part)
    requires Classify(p) == DroneArm
    ensures Contains(LowerName(p), "arm")
    ensures LowerKind(p) != "frame"
  {
  }

  /**
   * The microcontroller branch's "cam" test can never decide either: a name
   * containing "cam" is caught by the camera test before it.
   */
  lemma MicrocontrollerCamCaughtEarlier(p: Part)
    requires LowerKind(p) == "microcontroller" && Contains(LowerName(p), "cam")
    ensures Classify(p) in {GenericChassis, GenericEnclosure, Wheel, ESP32Cam}
  {
  }

  /** The generic sensor is drawn exactly when no other test applies, and is labelled with the part's name. */
  lemma SensorIsDefault(p: Part)
    ensures Classify(p).SensorModule? ==> Classify(p).caption == p.name
    ensures Classify(p).SensorModule? <==>
      var name, kind := LowerName(p), LowerKind(p);
      && kind != "frame" && kind != "enclosure" && kind != "wheel" && kind != "camera"
      && kind != "propeller" && kind != "microcontroller" && kind != "display"
      && kind != "motor" && kind != "servo" && kind != "battery"
      && !Contains(name, "frame") && !Contains(name, "chassis") && !Contains(name, "box")
      && !Contains(name, "case") && !Contains(name, "wheel") && !Contains(name, "tire")
      && !Contains(name, "cam") && !Contains(name, "arm") && !Contains(name, "prop")
      && !Contains(name, "rotor") && !Contains(name, "screen") && !Contains(name, "lcd")
      && !Contains(name, "oled") && !Contains(name, "motor") && !Contains(name, "fan")
      && !Contains(name, "battery") && !Contains(name, "lipo") && !Contains(name, "arduino")
      && !Contains(name, "pi") && !Contains(name, "raspberry")
  {
  }

  // ---------------------------------------------------------- the component

  /**
   * The layout half of `ProceduralComponent`: the local position and rotation
   * start at zero and are reassigned by the override or by the first
   * matching category branch.
   */
  method PlacePart(p: Part, index: nat, total: nat) returns (x: real, y: real, z: real, rotation: seq<real>)
    requires index < total
    ensures Vec3(x, y, z) == BasePosition(p, index, total)
    ensures rotation == BaseRotation(p)
  {
    x, y, z := 0.0, 0.0, 0.0;
    rotation := [0.0, 0.0, 0.0];
    if p.placement.Some? {
      var pl := p.placement.value;
      x, y, z := Coord(pl.x), Coord(pl.y), Coord(pl.z);
      if pl.rotation.Some? {
        rotation := Radians(pl.rotation.value);
      }
    } else {
      x, y, z, rotation := AutoLayout(p, index, total);
    }
  }

  /** The universal auto-layout, for a part without an explicit placement. */
  method AutoLayout(p: Part, index: nat, total: nat) returns (x: real, y: real, z: real, rotation: seq<real>)
    requires index < total
    requires p.placement.None?
    ensures Vec3(x, y, z) == BasePosition(p, index, total)
    ensures rotation == BaseRotation(p)
  {
    x, y, z := 0.0, 0.0, 0.0;
    rotation := [0.0, 0.0, 0.0];
    var name := LowerName(p);
    var kind := LowerKind(p);
    if kind == "wheel" {
      var side := if index % 2 == 0 then 1.0 else -1.0;
      var front := if index < 2 then 1.0 else -1.0;
      x := side * 1.8;
      z := front * 1.5;
      y := 0.0;
      rotation := [0.0, 0.0, Pi / 2.0];
    } else if kind == "motor" {
      if Contains(name, "servo") {
        x := (if index % 2 == 0 then 1.0 else -1.0) * 2.0;
        z := 0.0;
      } else {
        var signs := ArmSigns(index % 4);
        x := signs.0 * ArmReach;
        z := signs.1 * ArmReach;
        y := 0.5;
      }
    } else if kind == "propeller" {
      var signs := ArmSigns(index % 4);
      x := signs.0 * ArmReach;
      z := signs.1 * ArmReach;
      y := 1.0;
    } else if kind == "frame" || Contains(name, "frame") || Contains(name, "chassis") {
      x, y, z := 0.0, 0.0, 0.0;
    } else if kind == "enclosure" || Contains(name, "box") || Contains(name, "case") {
      x, y, z := 0.0, 0.0, 0.0;
    } else if kind == "microcontroller" || kind == "camera" || kind == "sensor" || kind == "battery" {
      var cell := GridPosition(index, total, 1.5);
      x, z, y := cell.x, cell.z, 0.2;
    } else {
      var cell := GridPosition(index, total, 7.0);
      x, z, y := cell.x, cell.z, 0.2;
    }
  }

  /**
   * The preset half of `ProceduralComponent`: the first matching test picks
   * the mesh, and the Motor and Battery presets reset the rotation.
   */
  method ChoosePreset(p: Part, layoutRotation: seq<real>) returns (preset: Preset, rotation: seq<real>)
    requires layoutRotation == BaseRotation(p)
    ensures preset == Classify(p)
    ensures rotation == FinalRotation(p)
  {
    rotation := layoutRotation;
    preset := Classify(p);
    if preset == Motor {
      rotation := [0.0, 0.0, 0.0];
    } else if preset == Battery {
      rotation := [0.0, 0.0, Pi / 2.0];
    }
  }

  /**
   * `ProceduralComponent`: lay the part out, explode the position, then pick
   * the preset, which may reset the rotation. The blueprint flag only
   * changes materials and is not an input here.
   */
  method ProceduralComponent(p: Part, index: nat, total: nat, explosion: real)
    returns (position: Vec3, rotation: seq<real>, preset: Preset)
    requires index < total
    ensures position == Explode(BasePosition(p, index, total), explosion)
    ensures rotation == FinalRotation(p)
    ensures preset == Classify(p)
  {
    var x, y, z, layoutRotation := PlacePart(p, index, total);
    ghost var base := Vec3(x, y, z);
    x := x * (1.0 + explosion * 0.5);
    z := z * (1.0 + explosion * 0.5);
    y := y + explosion * 5.0;
    position := Vec3(x, y, z);
    assert position == Explode(base, explosion);
    preset, rotation := ChoosePreset(p, layoutRotation);
  }
}
