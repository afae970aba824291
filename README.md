# Prawler build visualisation and plan repair, in Dafny

Prawler turns a natural-language request for a hardware project into a build
plan: a parts list, a wiring list and a few warnings. The plan is then drawn
as an exploded 3D assembly and as a 2D wiring schematic. This project models
the deterministic core of that pipeline and proves properties of it:

- **3D layout** (`scene.dfy`, module `Scene`), from `ProceduralComponent`.
  - The explicit placement wins. Otherwise a part is placed at a wheel corner,
    on a servo side, at a drone arm, at the origin anchor, or on one of two
    square grids.
  - The explosion transform is applied, then the preset chain picks the mesh
    category. The Motor and Battery presets reset the rotation.
  - The placement work is a `method` that reassigns `x, y, z, rotation` branch
    by branch. It is proved equal to the functions `BasePosition`,
    `BaseRotation`, `Explode`, `Classify` and `FinalRotation`.
- **3D cables** (`cables.dfy`, module `Cables`), from `Wires`: endpoint lookup
  by first matching part, the raised midpoint of the arc, colour aliases, and
  blueprint styling.
- **2D schematic** (`schematic.dfy`, module `Schematic`), from
  `WiringVisualizer`.
  - `DiagramBuilder` is a class holding the node list, the set of added ids and
    the edge list. Its methods `GetOrAddNode` and `AddConnection` change those
    fields.
  - `BuildDiagram` runs the connection loop. It is proved to return the nodes
    of `Dedup(Refs(wiring))` and the edges of `EdgesFor(wiring)`.
  - `ApplyAnchors` rewrites the node array in place, from layout centres to
    top-left anchors.
- **Plan post-processing** (`plan.dfy`, module `Plans`), from
  `backend/ai_engine.py`.
  - A missing parts list becomes empty.
  - Missing or empty wiring is regenerated by the fallback loops, with a
    battery or powered over USB.
  - Every wire's `"Part (Pin)"` ends are split into part and pin fields.
  - Any exception becomes the `{"error", "details"}` record.
  - The loops are methods proved equal to the functions `Fallback`,
    `NormaliseAll` and `PostProcess`.
- **Build validation** (`validation.dfy`, module `Validation`), from
  `validate_build`: three keyword rules over one lower-cased search text.

Shared modules: `Wrappers` (Option, Result), `Seqs` (a flat-map and a
map that stops at the first failure, with their generic lemmas), `Text` (lower-casing, substring
search, the JavaScript and Python trims, split at the last separator,
character removal, join, decimal rendering), `BuildData` (the front-end part
and wire records) and `Records` (back-end JSON objects as string maps).

Five behaviours of the code are easy to misread:

- **Endpoint lookup.** A cable end resolves to the first part whose non-empty
  name equals the reference or is contained in it. A part whose name merely
  contains the reference does not match
  (`frontend/components/BuildVisualizer.tsx:552`).
- **Endpoint position.** An explicitly placed part's cable end is 0.5 above
  its exploded placement. Any other part's cable end is the spacing-7 grid
  cell of its list index, at height `0.5 + 3e` or `0.5 + 4.5e`. This holds
  whatever the part's category, so a part on the spacing-1.5 interior grid is
  not drawn where its cables end (`Cables.EndpointIgnoresCategory`).
- **Unknown colours.** An unknown wire colour passes through lower-cased, not
  verbatim.
- **Dead tests.** The preset chain has two tests that can never decide. The
  arm test's `type === 'frame'` is always caught by the first test. The
  microcontroller branch's `cam` test is always caught by the camera test
  before it.
- **Schematic styling.** The styling lookup has no empty-name guard: a part
  with an empty name, or a node whose id is empty, relates to everything. A
  reference made only of white space is truthy, so it yields a node with the
  empty id (`Schematic.BlankReferenceMakesEmptyNode`,
  `Schematic.EmptyRelatesToAll`).

## Model

| member | source | states |
|---|---|---|
| Text.ContainsOccurs | frontend/components/BuildVisualizer.tsx:552 | the left-to-right scan used for `includes` and `in` reports a substring exactly when it occurs at some index |
| Text.LowerIdempotent | frontend/components/BuildVisualizer.tsx:576 | lower-casing twice is lower-casing once |
| Text.RSplitOnce | backend/ai_engine.py:216 | `rsplit(sep, 1)`: one piece, the whole text, exactly when the separator does not occur; otherwise two pieces that rejoin to the text around an occurrence with none further right |
| Text.RemoveChar | backend/ai_engine.py:218 | `replace(")", "")`: no `)` remains, every other character keeps its multiplicity, and a text without `)` is returned unchanged |
| Text.RemoveCharAppend | backend/ai_engine.py:218 | removal distributes over concatenation, so the other characters keep their order |
| Text.RemoveTrailingChar | backend/ai_engine.py:218 | removing `)` from a `)`-free text followed by one `)` gives the text back |
| Text.Trim | frontend/components/WiringVisualizer.tsx:71 | `trim` / `strip`: never longer, starts and ends with a non-space, empty exactly when the input is all white space |
| Text.TrimSlice | frontend/components/WiringVisualizer.tsx:71 | the trimmed text is a contiguous slice of the input with only white space cut before and after it |
| Text.TrimIdempotent | backend/ai_engine.py:217 | stripping a stripped text changes nothing |
| Text.Join | backend/validation_engine.py:9 | `" ".join`: the empty list gives the empty text, one piece gives itself |
| Text.JoinContainsPiece | backend/validation_engine.py:9 | whatever one piece contains, the joined text contains |
| Text.NatToString | frontend/components/WiringVisualizer.tsx:110 | the decimal rendering of an index is a non-empty digit string, of two or more digits exactly from 10 on |
| Text.NatToStringInjective | frontend/components/WiringVisualizer.tsx:110 | distinct indices render differently |
| Scene.GridPosition | frontend/components/BuildVisualizer.tsx:430-448 | the centre of grid cell `index` in a square of `ceil(sqrt(total))` columns at a given spacing |
| Scene.LayoutOf | frontend/components/BuildVisualizer.tsx:382-449 | which branch of the layout chain a part takes, placement first, then the type and name tests in source order |
| Scene.BasePosition | frontend/components/BuildVisualizer.tsx:382-449 | the position each layout branch assigns before the explosion |
| Scene.BaseRotation | frontend/components/BuildVisualizer.tsx:382-449 | the rotation each layout branch assigns: the placement's converted angles, a quarter turn about z for wheels, else zero |
| Scene.Explode | frontend/components/BuildVisualizer.tsx:452-455 | x and z scaled by `1 + e/2`, y raised by `5e` |
| Scene.Classify | frontend/components/BuildVisualizer.tsx:461-503 | the first preset whose type or name test matches, in source order, else the generic sensor |
| Scene.FinalRotation | frontend/components/BuildVisualizer.tsx:489-496 | zero for the Motor preset, a quarter turn about z for the Battery preset, else the layout rotation |
| Scene.Radians | frontend/components/BuildVisualizer.tsx:386-388 | every converted angle times 180 is the given degrees times pi, with the length kept |
| Scene.CeilSqrt | frontend/components/BuildVisualizer.tsx:432 | `ceil(sqrt(total))` is the least natural number whose square is at least `total` |
| Scene.CeilSqrtLeast | frontend/components/BuildVisualizer.tsx:442 | no number with square at least `total` is below the column count, which is positive for a non-empty list |
| Scene.ColumnsPositive | frontend/components/BuildVisualizer.tsx:432-434 | a non-empty list has at least one column |
| Scene.GridCellInSquare | frontend/components/BuildVisualizer.tsx:433-434 | every index below `total` has row and column below the column count |
| Scene.GridCellsDistinct | frontend/components/BuildVisualizer.tsx:443-444 | distinct indices get distinct (row, column) cells |
| Scene.CellCentresDistinct | frontend/components/BuildVisualizer.tsx:435-437 | with a positive spacing distinct cells have distinct centres |
| Scene.GridPositionsDistinct | frontend/components/BuildVisualizer.tsx:442-447 | distinct indices on a grid are drawn at distinct places |
| Scene.CellCentreBounds | frontend/components/BuildVisualizer.tsx:435-437 | a cell of the square has its centre within `(cols - 1) * spacing / 2` of the origin on x and on z |
| Scene.GridCentred | frontend/components/BuildVisualizer.tsx:430-448 | every grid position lies in the square centred on the origin |
| Scene.ArmTipOnCircle | frontend/components/BuildVisualizer.tsx:405-411 | an arm tip lies on the circle of radius 4.8, up to the rounding of sin 45 degrees |
| Scene.ArmTipsDistinct | frontend/components/BuildVisualizer.tsx:414-419 | two indices share an arm tip exactly when they agree modulo 4 |
| Scene.PlacementOverrides | frontend/components/BuildVisualizer.tsx:382-388 | with a placement, the position is its coordinates (missing read as 0) and the rotation depends only on it, whatever the type, name, index or count; no rotation gives zero |
| Scene.WheelCorners | frontend/components/BuildVisualizer.tsx:393-400 | wheel `i` sits at (plus or minus 1.8, 0, plus or minus 1.5) with x positive exactly for even `i` and z positive exactly for `i` below 2; from index 4 on a wheel shares the corner of index 2 or 3 |
| Scene.WheelsDistinct | frontend/components/BuildVisualizer.tsx:394-397 | the first four wheels take four different corners |
| Scene.GridBranchesDistinct | frontend/components/BuildVisualizer.tsx:429-448 | two parts in the same grid branch with distinct indices never share a place |
| Scene.ExplodeAtZero | frontend/components/BuildVisualizer.tsx:452-455 | the explosion at factor 0 is the identity |
| Scene.ExplodeMonotone | frontend/components/BuildVisualizer.tsx:452-455 | a larger factor raises every part and pushes x and z away from the axis, keeping 0 at 0 |
| Scene.ExplodeInjective | frontend/components/BuildVisualizer.tsx:452-455 | for a non-negative factor distinct positions stay distinct |
| Scene.PresetRotationWins | frontend/components/BuildVisualizer.tsx:489-496 | the Motor preset forces rotation zero and the Battery preset a quarter turn about z, even for placed parts; every other preset keeps the layout rotation |
| Scene.PresetIgnoresPlacement | frontend/components/BuildVisualizer.tsx:489-496 | for a part drawn as a motor or battery, any placement, with any rotation or none, leaves the preset and the final rotation unchanged |
| Scene.ArmNeedsArmInName | frontend/components/BuildVisualizer.tsx:474-475 | a part drawn as an arm has "arm" in its name and is never frame-typed, so the arm test's type check is dead |
| Scene.MicrocontrollerCamCaughtEarlier | frontend/components/BuildVisualizer.tsx:480-484 | a microcontroller with "cam" in its name is caught by one of the first four tests, so the sub-branch at 483 is dead |
| Scene.SensorIsDefault | frontend/components/BuildVisualizer.tsx:461-503 | the generic sensor is drawn exactly when every type and name test of the chain fails, and it is labelled with the part's own name |
| Scene.PlacePart | frontend/components/BuildVisualizer.tsx:375-388 | the layout step leaves exactly the branch's position and rotation in the local variables |
| Scene.AutoLayout | frontend/components/BuildVisualizer.tsx:389-449 | the universal auto-layout chain computes exactly the branch's position and rotation for an unplaced part |
| Scene.ChoosePreset | frontend/components/BuildVisualizer.tsx:461-503 | the preset chain picks the first matching preset and leaves the rotation the preset forces, or else the layout's |
| Scene.ProceduralComponent | frontend/components/BuildVisualizer.tsx:375-503 | the component's final position is the exploded layout position, its rotation the preset-adjusted one and its mesh the first matching preset |
| Cables.NameMatches | frontend/components/BuildVisualizer.tsx:552 | the `findIndex` test: a non-empty name equal to the reference or contained in it |
| Cables.Endpoint | frontend/components/BuildVisualizer.tsx:550-565 | `getPos`: the origin for a falsy or unmatched reference, 0.5 above the exploded placement of a placed part, else the exploded spacing-7 grid cell at height `0.5 + 3e` or `0.5 + 4.5e` |
| Cables.MidPoint | frontend/components/BuildVisualizer.tsx:571-572 | the control point: the midpoint of the ends raised by `4 + 2e` |
| Cables.Route | frontend/components/BuildVisualizer.tsx:583-591 | one cable: both ends, the raised midpoint, and the blueprint or normal style |
| Cables.FindFrom | frontend/components/BuildVisualizer.tsx:552 | the scan from `k` returns the first matching index at or after `k`, or -1 when none matches |
| Cables.FindPart | frontend/components/BuildVisualizer.tsx:552 | `findIndex`: the first part in list order whose non-empty name equals or is contained in the reference; -1 exactly when there is none |
| Cables.WireColor | frontend/components/BuildVisualizer.tsx:575-581 | missing or empty gives "gray"; the red, black, blue, yellow and green aliases give the fixed palette; anything else passes through lower-cased |
| Cables.ResolveColor | frontend/components/BuildVisualizer.tsx:575-581 | the step-by-step reassignment of `color` ends in the colour resolution's result |
| Cables.RedExactly | frontend/components/BuildVisualizer.tsx:577 | a cable is red exactly when its colour is vcc, 5v, red or the red hex code, in any letter case |
| Cables.RouteAll | frontend/components/BuildVisualizer.tsx:544 | one cable per connection |
| Cables.WireColorIgnoresCase | frontend/components/BuildVisualizer.tsx:576 | colour resolution does not depend on letter case |
| Cables.FirstMatchWins | frontend/components/BuildVisualizer.tsx:552 | with duplicate or overlapping matches, no later part is ever chosen over an earlier match |
| Cables.ExactNameResolves | frontend/components/BuildVisualizer.tsx:552 | a reference equal to a part's non-empty name resolves to that part or an earlier match |
| Cables.EndpointOverPlacedPart | frontend/components/BuildVisualizer.tsx:556-558 | a cable ending at a placed part ends 0.5 above where that part is drawn |
| Cables.EndpointOverFallbackPart | frontend/components/BuildVisualizer.tsx:559-563 | a cable ending at a fallback-grid part ends straight above where it is drawn |
| Cables.EndpointIgnoresCategory | frontend/components/BuildVisualizer.tsx:559-563 | any unplaced part's cable end is its spacing-7 grid cell, exploded, whatever the category |
| Cables.UnresolvedIsOrigin | frontend/components/BuildVisualizer.tsx:551-553 | a missing or empty reference, or one no part matches, ends the cable at the origin |
| Cables.ArcRisesWithExplosion | frontend/components/BuildVisualizer.tsx:571-572 | the arc's control point is `4 + 2e` above the midpoint of the ends, so it grows with the factor |
| Cables.BlueprintOnlyRestyles | frontend/components/BuildVisualizer.tsx:583-591 | blueprint mode keeps the three points and changes only the style: width 1, cyan, dashed against width 3, wire colour, solid |
| Schematic.RelatedFrom | frontend/components/WiringVisualizer.tsx:74 | the first part at or after `k` whose name contains the id or is contained in it, or -1 |
| Schematic.FindInfo | frontend/components/WiringVisualizer.tsx:74 | `find`: none exactly when no part relates to the id; otherwise the first related part in list order |
| Schematic.NodeColours | frontend/components/WiringVisualizer.tsx:75-81 | a node's background and border from the related part's lower-cased type, white and grey when none relates |
| Schematic.EdgeFor | frontend/components/WiringVisualizer.tsx:109-118 | connection `index` as the edge `e-<index>` between its trimmed ends, captioned with both pins and coloured by the wire colour |
| Schematic.NodeColourTable | frontend/components/WiringVisualizer.tsx:75-81 | blue, green, amber and red exactly when the related part's lower-cased type first contains microcontroller, sensor, actuator or power, else white; always one of the five pairs |
| Schematic.Refs | frontend/components/WiringVisualizer.tsx:105-107 | the connections ask for at most two ids each |
| Schematic.AddAll | frontend/components/WiringVisualizer.tsx:72 | adding references to the seen ids gives exactly the union of both, growing by at most one per reference |
| Schematic.Dedup | frontend/components/WiringVisualizer.tsx:72 | the first-seen ids are exactly the referenced ids, no more of them than references |
| Schematic.EdgesFor | frontend/components/WiringVisualizer.tsx:105-119 | exactly one edge per connection |
| Schematic.DiagramBuilder.constructor | frontend/components/WiringVisualizer.tsx:64-66 | the builder starts with no nodes, no added ids and no edges |
| Schematic.DiagramBuilder.GetOrAddNode | frontend/components/WiringVisualizer.tsx:69-101 | a falsy reference changes nothing and returns undefined; otherwise the trimmed reference is returned and a node for it is pushed exactly when it was not added before |
| Schematic.DiagramBuilder.AddConnection | frontend/components/WiringVisualizer.tsx:105-119 | both ends are added, `from_part` first, then exactly the connection's edge is pushed |
| Schematic.BuildDiagram | frontend/components/WiringVisualizer.tsx:63-122 | the nodes are those of the distinct trimmed references in first-seen order and the edges are one per connection, numbered by position |
| Schematic.DedupDistinct | frontend/components/WiringVisualizer.tsx:72 | no two nodes share an id |
| Schematic.DedupFirstSeen | frontend/components/WiringVisualizer.tsx:69-72 | nodes appear in the order their ids are first referenced |
| Schematic.DiagramNodes | frontend/components/WiringVisualizer.tsx:104-120 | at most two nodes per connection, pairwise distinct, exactly one per trimmed non-empty reference; parts alone create none |
| Schematic.EdgeEndsAreNodes | frontend/components/WiringVisualizer.tsx:106-112 | every edge end that is present is the id of a node |
| Schematic.EdgeIdsDistinct | frontend/components/WiringVisualizer.tsx:110 | edge ids `e-<index>` are pairwise distinct, so identical connections still give separate edges |
| Schematic.BlankReferenceMakesEmptyNode | frontend/components/WiringVisualizer.tsx:70-71 | a reference made only of white space yields the empty id |
| Schematic.EmptyRelatesToAll | frontend/components/WiringVisualizer.tsx:74 | the empty id, or a first part with the empty name, makes the first part style the node |
| Schematic.TopLeft | frontend/components/WiringVisualizer.tsx:48-51 | the anchor plus half the 180 x 80 box is the centre the layout chose |
| Schematic.ApplyAnchors | frontend/components/WiringVisualizer.tsx:41-54 | every node in the array is moved in place to its anchor, with handles left and right, and nothing else about it changes |
| Schematic.AnchoredBoxCentred | frontend/components/WiringVisualizer.tsx:22-23 | an anchored node's box is centred on its layout point and keeps its id, caption and colours |
| Plans.LoopWires | backend/ai_engine.py:188-202 | the `for p in parts` loop: skip the battery, the controller and structural types, append each other part's group, raise on a missing name |
| Plans.Fallback | backend/ai_engine.py:173-204 | battery and controller search, then the supply wires and the battery loop, the USB loop, or no wiring |
| Plans.NormaliseEnd | backend/ai_engine.py:214-231 | one end: split at the last " (" when it holds "(", raising when there is none, else default a missing part field to the raw text (or "Unknown") at pin "Pin" |
| Plans.NormaliseWire | backend/ai_engine.py:212-233 | the copy with the `from` end normalised, then the `to` end |
| Plans.NormaliseAll | backend/ai_engine.py:210-233 | every wire normalised in order, the first error raised |
| Plans.PostProcess | backend/ai_engine.py:167-256 | parts defaulted, missing or empty wiring regenerated, then normalised; any raise becomes the error record |
| Plans.RoleFrom | backend/ai_engine.py:178-179 | the first part at or after `k` with type battery (or microcontroller or camera), or -1 |
| Plans.EligibleCount | backend/ai_engine.py:188-190 | the number of wired parts is at most the number of parts |
| Plans.AppendLoopWires | backend/ai_engine.py:188-202 | the `for p in parts` loop appends exactly the specified wires, or stops with the key error |
| Plans.LoopErrorPersists | backend/ai_engine.py:188-202 | once the loop raises on a prefix, the whole loop raises |
| Plans.FallbackWiring | backend/ai_engine.py:173-204 | the fallback generation, battery and controller search included, produces exactly the specified wiring or key error |
| Plans.ParseEnd | backend/ai_engine.py:214-231 | one end updated in the copy gives exactly the specified fields or the index error |
| Plans.NormaliseWiring | backend/ai_engine.py:210-235 | the normalisation loop produces exactly the specified wiring or the first wire's error |
| Plans.ParseWire | backend/ai_engine.py:212-233 | one pass of the loop body, the copy with its `from` end parsed and then its `to` end, gives exactly the wire's normal form or the first end's error |
| Seqs.MapAllErrorPersists | backend/ai_engine.py:211-233 | once some wire of a prefix fails, the whole normalisation fails with that wire's error |
| Plans.PostProcessPlan | backend/ai_engine.py:167-256 | the post-processing steps in order, any error turned into the record whose details read "Failed to generate valid plan." |
| Plans.LoopWiresShape | backend/ai_engine.py:188-202 | three wires (Red, Black, Yellow) with a battery or two (Red, Black) without, per wired part, each with exactly the four generated keys |
| Plans.GroupShape | backend/ai_engine.py:192-202 | one part's wires are a full colour cycle, Red, Black and Yellow with a battery or Red and Black without, each with exactly the four generated keys |
| Plans.LoopWiresRaises | backend/ai_engine.py:192-202 | the loop raises exactly when some wired part, or the controller it names, has no name |
| Plans.FallbackCount | backend/ai_engine.py:181-204 | 2 + 3k wires with battery and controller, 2k with a controller only, none without a controller |
| Plans.FallbackStartsWithSupply | backend/ai_engine.py:181-184 | with a battery the wiring starts with the controller's Red supply and Black ground wires |
| Plans.NoSplitAfterName | backend/ai_engine.py:216 | no " (" starts inside a clean pin suffix |
| Plans.SplitGenerated | backend/ai_engine.py:215-218 | splitting `name (pin)` gives the stripped name and the pin, whatever the name holds |
| Plans.EndRoundTrip | backend/ai_engine.py:215-218 | an end written as `name (pin)` normalises to the stripped name and the pin |
| Plans.WireRoundTrip | backend/ai_engine.py:210-233 | a wire `a (pa)` to `b (pb)` normalises to both stripped names and both pins, keeping its other keys |
| Plans.GroupNormalises | backend/ai_engine.py:192-233 | one part's generated wires normalise without error, one for one, each gaining the stripped part name at pin VCC, GND (and Data) and the stripped controller name at pin 3V3/5V, GND (and GPIO), or 3V3 and GND over USB |
| Plans.CleanWireNormalises | backend/ai_engine.py:214-231 | a wire whose present ends hold " (" never raises |
| Plans.GeneratedEndContains | backend/ai_engine.py:182-202 | every generated end holds " (" |
| Plans.GeneratedWiresSplit | backend/ai_engine.py:182-202 | every generated wire splits cleanly |
| Plans.LoopWiresSplit | backend/ai_engine.py:188-202 | every wire the loop generates splits cleanly |
| Plans.NormaliseAllPointwise | backend/ai_engine.py:210-233 | normalisation succeeds exactly when every wire does, keeps the length and order, and gives each wire its own normal form |
| Plans.FallbackNormalises | backend/ai_engine.py:173-233 | the fallback wiring never trips the split's index error |
| Plans.NormaliseKeepsKeys | backend/ai_engine.py:211 | a normalised wire keeps every original key, and every value except the four endpoint fields, and has both part fields |
| Plans.NormaliseEndKeeps | backend/ai_engine.py:214-231 | parsing one end keeps every key of the copy and every value but that end's part and pin, and leaves its part field present |
| Plans.ExistingEndUntouched | backend/ai_engine.py:219 | an end with an existing part field and no "(" keeps its part and pin fields as they were |
| Plans.BareEndDefaults | backend/ai_engine.py:219-222 | an end with no "(" and no part field becomes the raw text (or "Unknown") at pin "Pin" |
| Plans.ParenWithoutSpaceRaises | backend/ai_engine.py:215-218 | an end holding "(" but not " (" raises the index error |
| Plans.GluedPinFailsPlan | backend/ai_engine.py:239-256 | a wire from "A(B)" turns the whole plan into the error record |
| Plans.PostProcessUsesGivenWiring | backend/ai_engine.py:168-173 | when wiring is present and non-empty the fallback is not used; parts default to empty and pass through |
| Plans.NoControllerNoWiring | backend/ai_engine.py:196-204 | missing wiring with no microcontroller or camera among the parts gives an empty wiring |
| Validation.ValidateBuild | backend/validation_engine.py:3-23 | the power warning exactly when no power keyword occurs, the mixed-voltage warning exactly when both "3.3v" and "5v" occur, the microcontroller warning exactly when no microcontroller keyword occurs; at most three, in that fixed order; an empty list gives the power and microcontroller warnings |
| Validation.WarningsInOrder | backend/validation_engine.py:11-23 | the three rules' warnings, appended in turn, are each present exactly when their rule fires and come in strictly increasing rank |
| Validation.PartsText | backend/validation_engine.py:9 | the search text: each part's name and specs lower-cased, joined by spaces |
| Validation.EmptyTextMatchesNothing | backend/validation_engine.py:9-21 | with no parts the search text is empty and no rule's keyword occurs |
| Validation.NameKeywordFound | backend/validation_engine.py:9-12 | a keyword in any part's name, in any letter case, is found in the search text |
| Validation.SpecsKeywordFound | backend/validation_engine.py:9-20 | a keyword in any part's specs, in any letter case, is found in the search text |

## Left out

- Rendering: the mesh presets, labels, lighting, canvas, selection highlight and the schematic's React Flow view. The model keeps the chosen preset tag, not the mesh.
- `Math.sin` and `Math.cos`: the four arm tips are sign pairs times the constant `4.8 * sin 45°`, written to sixteen digits. The constant agrees with the circle of radius 4.8 to within 1e-12 (`Scene.ArmTipOnCircle`).
- Floating point: coordinates are exact reals. Rounding, NaN, infinities and `-0` are not modelled. Falsy zero coordinates read as 0 either way.
- `Math.sqrt` rounding: the column count is the exact least `c` with `c * c >= total`, which matches the double-precision computation for any realistic part count.
- The layout engine `dagre`: its rank and coordinate assignment is an external library. Its node centres are an input map to `Schematic.ApplyAnchors`, which requires every node id to be in that map.
- Schematic.ApplyAnchors: the layout engine's own guarantee that every node was laid out is stated as a requires clause, not proved.
- React state hooks and the re-layout effect of the schematic: these are framework state, not logic.
- Case mapping: lower-casing is modelled on ASCII. JavaScript's and Python's full Unicode case mapping is left out.
- JSON values: back-end objects are maps from strings to strings. Non-string values, `None` and types that would make `in` or `rsplit` raise a `TypeError` are left out. A front-end part name is always a string, so the `p.name.includes` crash on a nameless part is not modelled.
- Plan keys other than `parts` and `wiring_diagram` pass through post-processing untouched. They are not represented.
- `wiring_diagram` present but JSON `null` behaves like a missing key. Both are `None` in the model.
- The language-model call, its thread pool and safety settings, the JSON repair regular expressions, `json.loads`, the debug prints and the error-log file: these are I/O and foreign code. The error record keeps only `str(e)`, not the traceback.
- OpenSCAD compilation, `backend/cad_engine.py`, persistence, HTTP routing and the UI pages are not part of this model.
- The scene-level rendering that passes `index` and `total` to each component: `total > index` is required, as every caller in the page passes the array length.
