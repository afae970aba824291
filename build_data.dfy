/**
 * The part and wire records the front end receives from the back end
 * (the `Part` and `Wire` interfaces of the 3D viewer, and the loosely typed
 * records the schematic view reads). Optional fields are `Option`s.
 */
module BuildData {
  import opened Wrappers
  import opened Text

  /** An explicit placement: coordinates (a missing or falsy one reads as 0) and rotation in degrees. */
  datatype Placement = Placement(x: Option<real>, y: Option<real>, z: Option<real>, rotation: Option<seq<real>>)

  /** A part of the bill of materials; only the fields layout reads are kept. */
  datatype Part = Part(name: string, kind: Option<string>, placement: Option<Placement>)

  /** A wiring connection; an absent reference and an empty one are both falsy. */
  datatype Wire = Wire(
    fromPart: Option<string>, toPart: Option<string>,
    fromPin: Option<string>, toPin: Option<string>,
    wireColor: Option<string>)

  /** `v || 0` for a coordinate. */
  function Coord(v: Option<real>): real {
    v.GetOr(0.0)
  }

  /** `part.name.toLowerCase()`. */
  function LowerName(p: Part): string {
    Lower(p.name)
  }

  /** `part.type?.toLowerCase() || ""`. */
  function LowerKind(p: Part): string {
    match p.kind
    case None => ""
    case Some(k) => Lower(k)
  }

  /** A JavaScript string field is truthy when present and non-empty. */
  predicate Truthy(s: Option<string>) {
    s.Some? && s.value != ""
  }
}
