/**
 * The 2D wiring schematic (`WiringVisualizer`): one node per distinct
 * trimmed part reference, coloured by the matching part's type, one edge per
 * connection, and the conversion of the layout engine's node centres to
 * top-left anchors. Rank and coordinate assignment are the layout engine's.
 */
module Schematic {
  import opened Wrappers
  import opened Text
  import opened BuildData
  import opened Seqs

  /** Every node box is 180 x 80. */
  const NodeWidth: real := 180.0
  const NodeHeight: real := 80.0

  datatype Point = Point(x: real, y: real)

  /** Where an edge attaches to a node. */
  datatype Side = Left | Right

  /** A diagram node: its id is also its caption; the handle sides are set by the layout pass. */
  datatype Node = Node(
    id: string, caption: string, background: string, border: string,
    position: Point, targetSide: Option<Side>, sourceSide: Option<Side>)

  /** A diagram edge; an endpoint is `None` (JavaScript `undefined`) for an empty reference. */
  datatype Edge = Edge(
    id: string, source: Option<string>, target: Option<string>,
    caption: string, stroke: string, marker: string)

  // ---------------------------------------------------------------- styling

  /** The `find` test for styling: the part's name contains the id, or the id contains the name. */
  predicate Relates(p: Part, id: string) {
    Contains(p.name, id) || Contains(id, p.name)
  }

  /** The first related part at or after `k`, or -1. */
  function RelatedFrom(parts: seq<Part>, id: string, k: nat): (r: int)
    requires k <= |parts|
    decreases |parts| - k
    ensures r == -1 || k <= r < |parts|
    ensures r >= 0 ==> Relates(parts[r], id)
    ensures forall j :: k <= j < |parts| && (r == -1 || j < r) ==> !Relates(parts[j], id)
  {
    if k == |parts| then -1
    else if Relates(parts[k], id) then k
    else RelatedFrom(parts, id, k + 1)
  }

  /** `partsData.find(...)`: the first related part in list order. */
  function FindInfo(parts: seq<Part>, id: string): (r: Option<Part>)
    ensures r.None? <==> forall j :: 0 <= j < |parts| ==> !Relates(parts[j], id)
    ensures r.Some? ==> exists j :: (0 <= j < |parts| && parts[j] == r.value && Relates(parts[j], id) &&
                                     forall k :: 0 <= k < j ==> !Relates(parts[k], id))
  {
    var k := RelatedFrom(parts, id, 0);
    if k == -1 then None else Some(parts[k])
  }

  /** The fill and border of a node: by the lower-cased type of the related part, first test that succeeds. */
  function NodeColours(parts: seq<Part>, id: string): (string, string) {
    match FindInfo(parts, id)
    case None => ("#fff", "#333")
    case Some(p) =>
      var t := LowerKind(p);
      if Contains(t, "microcontroller") then ("#3b82f6", "#1e3a8a")
      else if Contains(t, "sensor") then ("#10b981", "#064e3b")
      else if Contains(t, "actuator") then ("#f59e0b", "#78350f")
      else if Contains(t, "power") then ("#ef4444", "#7f1d1d")
      else ("#fff", "#333")
  }

  /**
   * The colour pairs: blue, green, amber and red exactly when the related
   * part's lower-cased type first contains "microcontroller", "sensor",
   * "actuator" or "power"; white with a dark border otherwise, also when no
   * part relates or it has no type.
   */
  lemma NodeColourTable(parts: seq<Part>, id: string)
    ensures var c := NodeColours(parts, id); var info := FindInfo(parts, id);
      var t := if info.Some? then LowerKind(info.value) else "";
      && (c.0 == "#3b82f6" <==> Contains(t, "microcontroller"))
      && (c.0 == "#10b981" <==> !Contains(t, "microcontroller") && Contains(t, "sensor"))
      && (c.0 == "#f59e0b" <==> !Contains(t, "microcontroller") && !Contains(t, "sensor") && Contains(t, "actuator"))
      && (c.0 == "#ef4444" <==> !Contains(t, "microcontroller") && !Contains(t, "sensor") && !Contains(t, "actuator") && Contains(t, "power"))
      && c in {("#3b82f6", "#1e3a8a"), ("#10b981", "#064e3b"), ("#f59e0b", "#78350f"), ("#ef4444", "#7f1d1d"), ("#fff", "#333")}
  {
    assert !Contains("", "microcontroller") && !Contains("", "sensor") && !Contains("", "actuator") && !Contains("", "power");
  }

  /** The node pushed for a new id, at the origin until the layout pass moves it. */
  function NewNode(parts: seq<Part>, id: string): Node {
    var c := NodeColours(parts, id);
    Node(id, id, c.0, c.1, Point(0.0, 0.0), None, None)
  }

  /** The nodes for a sequence of ids. */
  function NodesFor(parts: seq<Part>, ids: seq<string>): (ns: seq<Node>)
    ensures |ns| == |ids|
    ensures forall k :: 0 <= k < |ids| ==> ns[k].id == ids[k]
  {
    seq(|ids|, k requires 0 <= k < |ids| => NewNode(parts, ids[k]))
  }

  // ------------------------------------------------------------ extraction

  /** `getOrAddNode`'s result: undefined for a falsy reference, else the trimmed reference. */
  function RefId(reference: Option<string>): Option<string> {
    if Truthy(reference) then Some(Trim(Js, reference.value)) else None
  }

  /** The ids one connection asks for, `from_part` before `to_part`. */
  function RefsOf(w: Wire): seq<string> {
    RefOf(w.fromPart) + RefOf(w.toPart)
  }

  /** One reference as a sequence of at most one id. */
  function RefOf(reference: Option<string>): seq<string> {
    if Truthy(reference) then [Trim(Js, reference.value)] else []
  }

  /** The ids all connections ask for, in order. */
  function Refs(wiring: seq<Wire>): (r: seq<string>)
    ensures |r| <= 2 * |wiring|
  {
    ConcatMapLength(RefsOf, wiring, 2);
    ConcatMap(RefsOf, wiring)
  }

  /** `seen` extended by each element of `xs` not already present, in order. */
  function AddAll(seen: seq<string>, xs: seq<string>): (d: seq<string>)
    ensures |d| <= |seen| + |xs|
    ensures forall x :: x in d <==> x in seen || x in xs
  {
    if xs == [] then seen
    else
      var d := AddAll(seen, xs[..|xs| - 1]);
      assert xs == xs[..|xs| - 1] + [xs[|xs| - 1]];
      if xs[|xs| - 1] in d then d else d + [xs[|xs| - 1]]
  }

  /** First occurrences only, in first-seen order. */
  function Dedup(s: seq<string>): (d: seq<string>)
    ensures |d| <= |s|
    ensures forall x :: x in d <==> x in s
  {
    AddAll([], s)
  }

  /** The label shown on an edge: JavaScript prints a missing pin as "undefined". */
  function Show(s: Option<string>): string {
    match s
    case None => "undefined"
    case Some(v) => v
  }

  /** `conn.wire_color || '#888'`. */
  function EdgeColour(w: Wire): string {
    if Truthy(w.wireColor) then w.wireColor.value else "#888"
  }

  /** The edge pushed for connection number `index`. */
  function EdgeFor(index: nat, w: Wire): Edge {
    Edge("e-" + NatToString(index), RefId(w.fromPart), RefId(w.toPart),
         Show(w.fromPin) + " \U{2192} " + Show(w.toPin), EdgeColour(w), EdgeColour(w))
  }

  /** One edge per connection, numbered by position. */
  function EdgesFor(wiring: seq<Wire>): (es: seq<Edge>)
    ensures |es| == |wiring|
  {
    seq(|wiring|, i requires 0 <= i < |wiring| => EdgeFor(i, wiring[i]))
  }

  /**
   * The state `getOrAddNode` and the `forEach` loop share: the node list,
   * the set of ids already added, and the edge list. `ids` is the node
   * list's ids in order, kept for the proofs.
   */
  class DiagramBuilder {
    const parts: seq<Part>
    var nodes: seq<Node>
    var added: set<string>
    var edges: seq<Edge>
    ghost var ids: seq<string>

    /** The nodes are those of `ids`, and `added` holds exactly those ids. */
    ghost predicate Valid()
      reads this
    {
      && nodes == NodesFor(parts, ids)
      && forall x :: x in added <==> x in ids
    }

    constructor (parts: seq<Part>)
      ensures Valid()
      ensures this.parts == parts && ids == [] && added == {} && edges == []
    {
      this.parts := parts;
      nodes, added, edges, ids := [], {}, [], [];
    }

    /** `getOrAddNode`: push a node the first time a trimmed reference is seen. */
    method GetOrAddNode(reference: Option<string>) returns (id: Option<string>)
      requires Valid()
      modifies this
      ensures Valid() && edges == old(edges)
      ensures id == RefId(reference)
      ensures !Truthy(reference) ==> ids == old(ids)
      ensures Truthy(reference) ==>
        var t := Trim(Js, reference.value);
        ids == if t in old(ids) then old(ids) else old(ids) + [t]
    {
      if !Truthy(reference) {
        return None;
      }
      var normalized := Trim(Js, reference.value);
      if normalized !in added {
        nodes := nodes + [NewNode(parts, normalized)];
        added := added + {normalized};
        ids := ids + [normalized];
      }
      id := Some(normalized);
    }

    /** One step of the `forEach`: both endpoints, then the edge. */
    method AddConnection(w: Wire, index: nat)
      requires Valid()
      modifies this
      ensures Valid()
      ensures edges == old(edges) + [EdgeFor(index, w)]
      ensures ids == AddAll(old(ids), RefsOf(w))
    {
      ghost var s0 := ids;
      var source := GetOrAddNode(w.fromPart);
      ghost var s1 := ids;
      var target := GetOrAddNode(w.toPart);
      AddOne(s0, w.fromPart, s1);
      AddOne(s1, w.toPart, ids);
      AddAllAppend(s0, RefOf(w.fromPart), RefOf(w.toPart));
      edges := edges + [Edge("e-" + NatToString(index), source, target,
                             Show(w.fromPin) + " \U{2192} " + Show(w.toPin), EdgeColour(w), EdgeColour(w))];
    }
  }

  /** Adding `a + b` is adding `a`, then `b`. */
  lemma {:induction false} AddAllAppend(seen: seq<string>, a: seq<string>, b: seq<string>)
    ensures AddAll(seen, a + b) == AddAll(AddAll(seen, a), b)
    decreases |b|
  {
    if b == [] {
      assert a + b == a;
    } else {
      var b' := b[..|b| - 1];
      assert (a + b)[..|a + b| - 1] == a + b';
      assert (a + b)[|a + b| - 1] == b[|b| - 1];
      AddAllAppend(seen, a, b');
    }
  }

  /** One `getOrAddNode` call extends the ids as `AddAll` does. */
  lemma AddOne(seen: seq<string>, reference: Option<string>, after: seq<string>)
    requires !Truthy(reference) ==> after == seen
    requires Truthy(reference) ==>
      var t := Trim(Js, reference.value);
      after == if t in seen then seen else seen + [t]
    ensures after == AddAll(seen, RefOf(reference))
  {
    if Truthy(reference) {
      assert RefOf(reference)[..0] == [];
    }
  }

  /** The edges of one more connection. */
  lemma EdgesSnoc(ws: seq<Wire>, w: Wire)
    ensures EdgesFor(ws + [w]) == EdgesFor(ws) + [EdgeFor(|ws|, w)]
  {
  }

  /** The ids after one more connection. */
  lemma IdsSnoc(ws: seq<Wire>, w: Wire)
    ensures Dedup(Refs(ws + [w])) == AddAll(Dedup(Refs(ws)), RefsOf(w))
  {
    RefsSnoc(ws, w);
    AddAllAppend([], Refs(ws), RefsOf(w));
  }

  /** The ids after connection `i`. */
  lemma IdsStep(wiring: seq<Wire>, i: nat)
    requires i < |wiring|
    ensures Dedup(Refs(wiring[..i + 1])) == AddAll(Dedup(Refs(wiring[..i])), RefsOf(wiring[i]))
  {
    assert wiring[..i + 1] == wiring[..i] + [wiring[i]];
    IdsSnoc(wiring[..i], wiring[i]);
  }

  /** The edges after connection `i`. */
  lemma EdgesStep(wiring: seq<Wire>, i: nat)
    requires i < |wiring|
    ensures EdgesFor(wiring[..i + 1]) == EdgesFor(wiring[..i]) + [EdgeFor(i, wiring[i])]
  {
    assert wiring[..i + 1] == wiring[..i] + [wiring[i]];
    EdgesSnoc(wiring[..i], wiring[i]);
  }

  /** The references of one more connection come after those already seen. */
  lemma RefsSnoc(ws: seq<Wire>, w: Wire)
    ensures Refs(ws + [w]) == Refs(ws) + RefsOf(w)
  {
    ConcatMapSnoc(RefsOf, ws, w);
  }

  /**
   * Building the diagram: one node per distinct trimmed reference, in the
   * order first seen (`from_part` before `to_part`), and one edge per connection.
   */
  method BuildDiagram(wiring: seq<Wire>, parts: seq<Part>) returns (nodes: seq<Node>, edges: seq<Edge>)
    ensures nodes == NodesFor(parts, Dedup(Refs(wiring)))
    ensures edges == EdgesFor(wiring)
  {
    var b := new DiagramBuilder(parts);
    var i := 0;
    while i < |wiring|
      invariant 0 <= i <= |wiring|
      invariant b.Valid() && b.parts == parts
      invariant b.ids == Dedup(Refs(wiring[..i]))
      invariant b.edges == EdgesFor(wiring[..i])
    {
      IdsStep(wiring, i);
      EdgesStep(wiring, i);
      b.AddConnection(wiring[i], i);
      i := i + 1;
    }
    assert wiring[..|wiring|] == wiring;
    nodes, edges := b.nodes, b.edges;
  }

  // ------------------------------------------------------------ properties

  /** The position of the first occurrence of `x` in `s`. */
  function FirstIndex(s: seq<string>, x: string): (k: nat)
    requires x in s
    ensures k < |s| && s[k] == x && forall j :: 0 <= j < k ==> s[j] != x
  {
    if s[0] == x then 0 else 1 + FirstIndex(s[1..], x)
  }

  /** Appending does not move a first occurrence. */
  lemma {:induction false} FirstIndexSnoc(s: seq<string>, y: string, x: string)
    requires x in s
    ensures FirstIndex(s + [y], x) == FirstIndex(s, x)
  {
    if s[0] != x {
      assert (s + [y])[1..] == s[1..] + [y];
      FirstIndexSnoc(s[1..], y, x);
    }
  }

  /** No element occurs twice. */
  predicate Distinct(s: seq<string>) {
    forall i, j :: 0 <= i < j < |s| ==> s[i] != s[j]
  }

  /** No id is added twice. */
  lemma {:induction false} AddAllDistinct(seen: seq<string>, xs: seq<string>)
    requires Distinct(seen)
    ensures Distinct(AddAll(seen, xs))
    decreases |xs|
  {
    if xs != [] {
      var d' := AddAll(seen, xs[..|xs| - 1]);
      var y := xs[|xs| - 1];
      AddAllDistinct(seen, xs[..|xs| - 1]);
      assert AddAll(seen, xs) == if y in d' then d' else d' + [y];
    }
  }

  /** Node ids are pairwise distinct. */
  lemma DedupDistinct(s: seq<string>)
    ensures Distinct(Dedup(s))
  {
    AddAllDistinct([], s);
  }

  /** Nodes appear in the order their ids are first referenced. */
  lemma {:induction false} DedupFirstSeen(s: seq<string>)
    ensures var d := Dedup(s);
      forall i, j :: 0 <= i < j < |d| ==> FirstIndex(s, d[i]) < FirstIndex(s, d[j])
    decreases |s|
  {
    if s != [] {
      var s' := s[..|s| - 1];
      var y := s[|s| - 1];
      assert s == s' + [y];
      DedupFirstSeen(s');
      var d' := Dedup(s');
      var d := Dedup(s);
      assert d == if y in d' then d' else d' + [y];
      forall i, j | 0 <= i < j < |d|
        ensures FirstIndex(s, d[i]) < FirstIndex(s, d[j])
      {
        FirstIndexSnoc(s', y, d[i]);
        if j < |d'| {
          FirstIndexSnoc(s', y, d[j]);
        } else {
          assert d[j] == y && y !in s';
        }
      }
    }
  }

  /**
   * The diagram's node ids: exactly the trimmed, non-empty references of the
   * connections, none twice and at most two per connection; a part that no
   * connection names gets no node.
   */
  lemma DiagramNodes(wiring: seq<Wire>)
    ensures var ids := Dedup(Refs(wiring));
      && |ids| <= 2 * |wiring|
      && Distinct(ids)
      && forall x :: x in ids <==> exists i :: 0 <= i < |wiring| && x in RefsOf(wiring[i])
  {
    DedupDistinct(Refs(wiring));
    forall x ensures x in Refs(wiring) <==> exists i :: 0 <= i < |wiring| && x in RefsOf(wiring[i]) {
      if x in Refs(wiring) {
        var i := ConcatMapWitness(RefsOf, wiring, x);
      }
      if exists i :: 0 <= i < |wiring| && x in RefsOf(wiring[i]) {
        var i :| 0 <= i < |wiring| && x in RefsOf(wiring[i]);
        ConcatMapMember(RefsOf, wiring, i, x);
      }
    }
  }

  /** Every edge end that is present is the id of a node. */
  lemma EdgeEndsAreNodes(wiring: seq<Wire>, i: nat)
    requires i < |wiring|
    ensures var e := EdgesFor(wiring)[i]; var ids := Dedup(Refs(wiring));
      && (e.source.Some? ==> e.source.value in ids)
      && (e.target.Some? ==> e.target.value in ids)
  {
    var w := wiring[i];
    if Truthy(w.fromPart) {
      ConcatMapMember(RefsOf, wiring, i, Trim(Js, w.fromPart.value));
    }
    if Truthy(w.toPart) {
      ConcatMapMember(RefsOf, wiring, i, Trim(Js, w.toPart.value));
    }
  }

  /** Edge ids `e-<index>` are pairwise distinct. */
  lemma EdgeIdsDistinct(wiring: seq<Wire>, i: nat, j: nat)
    requires i < |wiring| && j < |wiring| && i != j
    ensures EdgesFor(wiring)[i].id != EdgesFor(wiring)[j].id
  {
    var a, b := "e-" + NatToString(i), "e-" + NatToString(j);
    if a == b {
      assert a[2..] == NatToString(i) && b[2..] == NatToString(j);
      NatToStringInjective(i, j);
    }
  }

  /** A reference made only of white space is truthy, so it yields a node with the empty id. */
  lemma BlankReferenceMakesEmptyNode(s: string)
    requires s != [] && forall k :: 0 <= k < |s| ==> IsSpace(Js, s[k])
    ensures RefId(Some(s)) == Some("")
  {
  }

  /** The empty id, and a part with the empty name, relate to everything: the first part styles such a node. */
  lemma EmptyRelatesToAll(parts: seq<Part>, id: string)
    requires |parts| > 0 && (id == "" || parts[0].name == "")
    ensures FindInfo(parts, id) == Some(parts[0])
  {
    ContainsSelf(parts[0].name);
    ContainsSelf(id);
  }

  // ---------------------------------------------------------------- layout

  /** The top-left anchor of a box whose centre the layout engine chose. */
  function TopLeft(centre: Point): (p: Point)
    ensures p.x + NodeWidth / 2.0 == centre.x && p.y + NodeHeight / 2.0 == centre.y
  {
    Point(centre.x - NodeWidth / 2.0, centre.y - NodeHeight / 2.0)
  }

  /** A node moved to its anchor, edges entering on the left and leaving on the right. */
  function Anchored(n: Node, centre: Point): Node {
    n.(position := TopLeft(centre), targetSide := Some(Left), sourceSide := Some(Right))
  }

  /**
   * The last pass of `getLayoutedElements`: every node is moved in place to
   * the top-left corner of the box the layout engine centred on it, and its
   * handles are set for a left-to-right diagram; ids, captions and colours
   * are untouched.
   */
  method ApplyAnchors(nodes: array<Node>, centres: map<string, Point>)
    requires forall k :: 0 <= k < nodes.Length ==> nodes[k].id in centres
    modifies nodes
    ensures forall k :: 0 <= k < nodes.Length ==> nodes[k] == Anchored(old(nodes[k]), centres[old(nodes[k]).id])
  {
    var k := 0;
    while k < nodes.Length
      invariant 0 <= k <= nodes.Length
      invariant forall j :: 0 <= j < k ==> nodes[j] == Anchored(old(nodes[j]), centres[old(nodes[j]).id])
      invariant forall j :: k <= j < nodes.Length ==> nodes[j] == old(nodes[j])
    {
      var n := nodes[k];
      nodes[k] := n.(position := Point(centres[n.id].x - NodeWidth / 2.0, centres[n.id].y - NodeHeight / 2.0),
                     targetSide := Some(Left), sourceSide := Some(Right));
      k := k + 1;
    }
  }

  /** The drawn box of an anchored node is centred where the layout engine put the node. */
  lemma AnchoredBoxCentred(n: Node, centre: Point)
    ensures var m := Anchored(n, centre);
      && m.position.x + NodeWidth / 2.0 == centre.x && m.position.y + NodeHeight / 2.0 == centre.y
      && m.id == n.id && m.caption == n.caption && m.background == n.background && m.border == n.border
  {
  }
}
