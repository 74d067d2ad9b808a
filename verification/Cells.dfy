/** One occupied board square (rust/bt-core/src/cell.rs). */
module Cells {
  import opened Wrappers

  const HAPPY_VAL: int := 150

  datatype CellKind =
    | Color(color: int)
    | Die(pips: int)
    | Happy(landed: bool)
    | Structure
    | Gimp(worth: int)
    | Invisible(id: int, worthHidden: int)
  {
    function Value(): int {
      match this
      case Die(v) => v
      case Happy(landed) => if landed then 0 else HAPPY_VAL
      case Gimp(v) => v
      case Invisible(_, v) => v
      case _ => 0
    }

    predicate Removable() { !Structure? }
  }

  datatype Cell = Cell(kind: CellKind, hidden: bool)
  {
    function Value(): int { kind.Value() }

    // A smiley that lands without completing a line turns into a frown.
    function Landed(): Cell
    { if kind.Happy? then this.(kind := Happy(true)) else this }

    function Hide(): Cell { this.(hidden := true) }
  }

  type Square = Option<Cell>

  function Plain(kind: CellKind): Cell { Cell(kind, false) }

  // ----- the wire form: [tag, a, b, hidden] -----

  function Bit(b: bool): int { if b then 1 else 0 }

  function EncodeCell(c: Cell): (q: seq<int>)
    ensures |q| == 4
  {
    match c.kind
    case Color(k) => [1, k, 0, Bit(c.hidden)]
    case Die(v) => [2, v, 0, Bit(c.hidden)]
    case Happy(l) => [3, Bit(l), 0, Bit(c.hidden)]
    case Structure => [4, 0, 0, Bit(c.hidden)]
    case Gimp(v) => [5, v, 0, Bit(c.hidden)]
    case Invisible(i, v) => [6, i, v, Bit(c.hidden)]
  }

  function EncodeSquare(s: Square): (q: seq<int>)
    ensures |q| == 4
  { if s.Some? then EncodeCell(s.value) else [0, 0, 0, 0] }

  // A die's pips are read back as one byte.
  function DecodeSquare(tag: int, a: int, b: int, h: int): Square
  {
    match tag
    case 1 => Some(Cell(Color(a), h != 0))
    case 2 => Some(Cell(Die(a % 256), h != 0))
    case 3 => Some(Cell(Happy(a != 0), h != 0))
    case 4 => Some(Cell(Structure, h != 0))
    case 5 => Some(Cell(Gimp(a), h != 0))
    case 6 => Some(Cell(Invisible(a, b), h != 0))
    case _ => None
  }

  // The field ranges of the original's integer types.
  predicate CellFits(c: Cell)
  {
    match c.kind
    case Color(k) => Fits32(k)
    case Die(v) => 0 <= v < 256
    case Gimp(v) => Fits32(v)
    case Invisible(i, v) => Fits32(i) && Fits32(v)
    case _ => true
  }

  predicate SquareFits(s: Square) { s.Some? ==> CellFits(s.value) }

  predicate Fits32(v: int) { -0x8000_0000 <= v < 0x8000_0000 }

  /** Every square survives the wire. */
  lemma DecodeEncode(s: Square)
    requires SquareFits(s)
    ensures var q := EncodeSquare(s); DecodeSquare(q[0], q[1], q[2], q[3]) == s
    ensures forall v :: v in EncodeSquare(s) ==> Fits32(v)
  {}
}
