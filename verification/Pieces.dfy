/** Falling pieces: their shapes, where they fit, how they rotate and land
    (rust/bt-core/src/piece.rs). */
module Pieces {
  import opened Wrappers
  import opened Cells
  import opened Weapons
  import opened Boards

  datatype PieceKind =
    | El | RevEl | SlideRight | SlideLeft | Long | Plug | Box | DieKind | HappyKind
    | Dog | RevDog | Cap | Wall | Tower | Star | WeirdLong | FourByFour | LongDong

  function KindId(k: PieceKind): (id: int)
    ensures 1 <= id <= 18
  {
    match k
    case El => 1 case RevEl => 2 case SlideRight => 3 case SlideLeft => 4 case Long => 5
    case Plug => 6 case Box => 7 case DieKind => 8 case HappyKind => 9 case Dog => 10
    case RevDog => 11 case Cap => 12 case Wall => 13 case Tower => 14 case Star => 15
    case WeirdLong => 16 case FourByFour => 17 case LongDong => 18
  }

  function KindFromId(id: int): (r: Option<PieceKind>)
    ensures r.Some? <==> 1 <= id <= 18
    ensures r.Some? ==> KindId(r.value) == id
  {
    match id
    case 1 => Some(El) case 2 => Some(RevEl) case 3 => Some(SlideRight)
    case 4 => Some(SlideLeft) case 5 => Some(Long) case 6 => Some(Plug)
    case 7 => Some(Box) case 8 => Some(DieKind) case 9 => Some(HappyKind)
    case 10 => Some(Dog) case 11 => Some(RevDog) case 12 => Some(Cap)
    case 13 => Some(Wall) case 14 => Some(Tower) case 15 => Some(Star)
    case 16 => Some(WeirdLong) case 17 => Some(FourByFour) case 18 => Some(LongDong)
    case _ => None
  }

  // The local 8x8 grid, indexed [column][row].
  type PieceColumn = c: seq<Square> | |c| == 8 witness [None, None, None, None, None, None, None, None]
  const EMPTY_COLUMN: PieceColumn := [None, None, None, None, None, None, None, None]
  type PieceGrid = g: seq<PieceColumn> | |g| == 8 witness seq(8, _ => EMPTY_COLUMN)

  type Side = n: int | 0 <= n <= 8
  type Turns = n: int | n > 0 witness 4

  datatype Piece = Piece(
    kind: PieceKind,
    x: int,
    y: int,
    color: int,
    rot: Side,
    orientation: int,
    orientations: Turns,
    state: int,
    cells: PieceGrid)

  // The squares a fresh piece of each kind fills.
  predicate Shape(k: PieceKind, i: int, j: int)
  {
    match k
    case El => (i == 1 && 0 <= j <= 2) || (i == 2 && j == 2)
    case RevEl => (i == 2 && 0 <= j <= 2) || (i == 1 && j == 2)
    case SlideLeft => (i == 0 && j == 1) || (i == 1 && 1 <= j <= 2) || (i == 2 && j == 2)
    case SlideRight => (i == 0 && j == 2) || (i == 1 && 1 <= j <= 2) || (i == 2 && j == 1)
    case Long => 0 <= i <= 3 && j == 1
    case Plug => (0 <= i <= 2 && j == 2) || (i == 1 && j == 1)
    case Box => 1 <= i <= 2 && 1 <= j <= 2
    case DieKind => i == 1 && j == 1
    case HappyKind => i == 1 && j == 1
    case Dog => (i == 0 && j == 0) || (i == 1 && j == 1) || (i == 2 && 1 <= j <= 2)
    case RevDog => (i == 0 && 1 <= j <= 2) || (i == 1 && j == 1) || (i == 2 && j == 2)
    case Cap => ((i == 0 || i == 3) && j == 2) || (1 <= i <= 2 && j == 1)
    case Wall => (i == 0 || i == 3) && 1 <= j <= 2
    case Tower => (i == 2 && (j == 0 || j == 2)) || (0 <= i <= 1 && j == 1)
    case Star => (i == 1 && (j == 0 || j == 2)) || ((i == 0 || i == 2) && j == 1)
    case WeirdLong => (i == 1 && 0 <= j <= 1) || (i == 2 && 2 <= j <= 3)
    case FourByFour => 0 <= i <= 3 && 0 <= j <= 3 && (i == 0 || i == 3 || j == 0 || j == 3)
    case LongDong => 0 <= i <= 7 && j == 0
  }

  function KindColor(k: PieceKind): int
  {
    match k
    case El => 2 case RevEl => 3 case SlideRight => 4 case SlideLeft => 5 case Long => 6
    case Plug => 7 case Box => 8 case DieKind => 1 case HappyKind => 1 case Dog => 2
    case RevDog => 3 case Cap => 4 case Wall => 5 case Tower => 6 case Star => 7
    case WeirdLong => 8 case FourByFour => 8 case LongDong => 6
  }

  function KindRot(k: PieceKind): Side
  {
    match k
    case Box => 0 case DieKind => 0 case HappyKind => 0 case FourByFour => 0
    case Long => 4 case Cap => 4 case Wall => 4 case WeirdLong => 4
    case LongDong => 8
    case _ => 3
  }

  function KindTurns(k: PieceKind): Turns
  { match k case Star => 2 case WeirdLong => 6 case _ => 4 }

  function KindCell(k: PieceKind, pips: int): Cell
  {
    match k
    case DieKind => Plain(Die(pips))
    case HappyKind => Plain(Happy(false))
    case _ => Plain(Color(KindColor(k)))
  }

  function ShapeColumn(k: PieceKind, i: int, cell: Cell): PieceColumn
  { seq(8, j requires 0 <= j < 8 => if Shape(k, i, j) then Some(cell) else None) }

  function ShapeGrid(k: PieceKind, cell: Cell): PieceGrid
  { seq(8, i requires 0 <= i < 8 => ShapeColumn(k, i, cell)) }

  function Construct(k: PieceKind, x: int, y: int, pips: int): Piece
  { Piece(k, x, y, KindColor(k), KindRot(k), 0, KindTurns(k), 0, ShapeGrid(k, KindCell(k, pips))) }

  // ----- fitting and moving -----

  predicate CanMoveTo(p: Piece, b: Board, x: int, y: int)
  {
    forall i, j :: 0 <= i < 8 && 0 <= j < 8 && p.cells[i][j].Some? ==> !Occupied(b, x + i, y + j)
  }

  // ----- rotating -----

  // The square the generic quarter turn moves into (i, j).
  function TurnedAt(p: Piece, i: int, j: int, reverse: bool): Square
    requires 0 <= i < 8 && 0 <= j < 8
  {
    if i < p.rot && j < p.rot then
      (if reverse then p.cells[j][p.rot - 1 - i] else p.cells[p.rot - 1 - j][i])
    else p.cells[i][j]
  }

  function TurnedColumn(p: Piece, i: int, reverse: bool): PieceColumn
    requires 0 <= i < 8
  { seq(8, j requires 0 <= j < 8 => TurnedAt(p, i, j, reverse)) }

  function TurnedGrid(p: Piece, reverse: bool): PieceGrid
  { seq(8, i requires 0 <= i < 8 => TurnedColumn(p, i, reverse)) }

  predicate TurnFits(p: Piece, b: Board, reverse: bool)
  {
    forall i, j :: 0 <= i < p.rot && 0 <= j < p.rot && TurnedAt(p, i, j, reverse).Some? ==>
      !Occupied(b, p.x + i, p.y + j)
  }

  function Turn(orientation: int, n: Turns, reverse: bool): int
  { if reverse then (orientation - 1 + n) % n else (orientation + 1) % n }

  // One arm of a bespoke rotation: the cell at (fi, fj) moves to (ti, tj).
  datatype Arm = Arm(fi: int, fj: int, ti: int, tj: int)
  {
    predicate Local() { 0 <= fi < 4 && 0 <= fj < 4 && 0 <= ti < 4 && 0 <= tj < 4 }
  }

  predicate AllLocal(arms: seq<Arm>) { forall a :: a in arms ==> a.Local() }

  function WallArms(target: int, reverse: bool): (r: seq<Arm>)
    ensures AllLocal(r)
  {
    match (target, reverse)
    case (0, false) => [Arm(1, 0, 0, 2), Arm(2, 3, 3, 1)]
    case (1, false) => [Arm(0, 1, 1, 3), Arm(3, 2, 2, 0)]
    case (2, false) => [Arm(0, 2, 2, 3), Arm(3, 1, 1, 0)]
    case (3, false) => [Arm(2, 0, 0, 1), Arm(1, 3, 3, 2)]
    case (0, true) => [Arm(1, 3, 0, 1), Arm(2, 0, 3, 2)]
    case (1, true) => [Arm(2, 3, 0, 2), Arm(1, 0, 3, 1)]
    case (2, true) => [Arm(0, 1, 2, 0), Arm(3, 2, 1, 3)]
    case (3, true) => [Arm(0, 2, 1, 0), Arm(3, 1, 2, 3)]
    case _ => []
  }

  function StarArms(state: int): (r: seq<Arm>)
    ensures AllLocal(r)
  {
    if state == 0 then [Arm(1, 0, 0, 0), Arm(2, 1, 2, 0), Arm(0, 1, 0, 2), Arm(1, 2, 2, 2)]
    else [Arm(0, 0, 1, 0), Arm(2, 0, 0, 1), Arm(0, 2, 1, 2), Arm(2, 2, 2, 1)]
  }

  function WeirdArms(target: int, reverse: bool): (r: seq<Arm>)
    ensures AllLocal(r)
  {
    match (target, reverse)
    case (0, false) => [Arm(2, 0, 1, 0), Arm(2, 1, 1, 1), Arm(1, 2, 2, 2), Arm(1, 3, 2, 3)]
    case (1, false) => [Arm(1, 0, 0, 0), Arm(2, 3, 3, 3)]
    case (2, false) => [Arm(0, 0, 0, 1), Arm(3, 3, 3, 2)]
    case (3, false) => [Arm(0, 1, 0, 2), Arm(1, 1, 1, 2), Arm(2, 2, 2, 1), Arm(3, 2, 3, 1)]
    case (4, false) => [Arm(3, 1, 3, 0), Arm(0, 2, 0, 3)]
    case (5, false) => [Arm(3, 0, 2, 0), Arm(0, 3, 1, 3)]
    case (0, true) => [Arm(0, 0, 1, 0), Arm(3, 3, 2, 3)]
    case (1, true) => [Arm(0, 1, 0, 0), Arm(3, 2, 3, 3)]
    case (2, true) => [Arm(0, 2, 0, 1), Arm(1, 2, 1, 1), Arm(2, 1, 2, 2), Arm(3, 1, 3, 2)]
    case (3, true) => [Arm(3, 0, 3, 1), Arm(0, 3, 0, 2)]
    case (4, true) => [Arm(2, 0, 3, 0), Arm(1, 3, 0, 3)]
    case (5, true) => [Arm(1, 0, 2, 0), Arm(1, 1, 2, 1), Arm(2, 2, 1, 2), Arm(2, 3, 1, 3)]
    case _ => []
  }

  function PutLocal(g: PieceGrid, i: int, j: int, s: Square): PieceGrid
    requires 0 <= i < 8 && 0 <= j < 8
  { g[i := g[i][j := s]] }

  function MoveArm(g: PieceGrid, a: Arm): PieceGrid
    requires a.Local()
  { PutLocal(PutLocal(g, a.ti, a.tj, g[a.fi][a.fj]), a.fi, a.fj, None) }

  function MoveArms(g: PieceGrid, arms: seq<Arm>): PieceGrid
    requires AllLocal(arms)
    decreases |arms|
  { if arms == [] then g else MoveArms(MoveArm(g, arms[0]), arms[1..]) }

  predicate ArmsFit(p: Piece, b: Board, arms: seq<Arm>)
  { forall k :: 0 <= k < |arms| ==> !Occupied(b, p.x + arms[k].ti, p.y + arms[k].tj) }

  // The state the bespoke kinds turn to, and the arms that move on the way.
  function ArmsOf(p: Piece, reverse: bool): (r: seq<Arm>)
    ensures AllLocal(r)
  {
    match p.kind
    case Wall => WallArms(Turn(p.state, p.orientations, reverse), reverse)
    case Star => StarArms(p.state)
    case WeirdLong => WeirdArms(Turn(p.state, p.orientations, reverse), reverse)
    case _ => []
  }

  predicate Bespoke(k: PieceKind) { k == Wall || k == Star || k == WeirdLong }

  predicate CanRotate(p: Piece, b: Board, reverse: bool)
  {
    if Bespoke(p.kind) then ArmsFit(p, b, ArmsOf(p, reverse))
    else p.rot != 0 && TurnFits(p, b, reverse)
  }

  // Star turns its state only; the other kinds also count orientations.
  function Rotated(p: Piece, reverse: bool): Piece
  {
    if p.kind == Star then
      p.(cells := MoveArms(p.cells, ArmsOf(p, reverse)), state := (p.state + 1) % 2)
    else if Bespoke(p.kind) then
      p.(cells := MoveArms(p.cells, ArmsOf(p, reverse)),
         state := Turn(p.state, p.orientations, reverse),
         orientation := Turn(p.orientation, p.orientations, reverse))
    else
      p.(cells := TurnedGrid(p, reverse), orientation := Turn(p.orientation, p.orientations, reverse))
  }

  function Rotate(p: Piece, b: Board, reverse: bool): Piece
  { if CanRotate(p, b, reverse) then Rotated(p, reverse) else p }

  // ----- landing -----

  // The board square (x, y) is covered by the piece where it stands.
  predicate Covers(p: Piece, x: int, y: int)
  { 0 <= x - p.x < 8 && 0 <= y - p.y < 8 && p.cells[x - p.x][y - p.y].Some? }

  function LandedAt(p: Piece, c: Grid, x: int, y: int): Square
    requires InBounds(x, y)
  { if Covers(p, x, y) then p.cells[x - p.x][y - p.y] else c[y][x] }

  function LandedRow(p: Piece, c: Grid, y: int): Row
    requires 0 <= y < 28
  { seq(10, x requires 0 <= x < 10 => LandedAt(p, c, x, y)) }

  function LandedGrid(p: Piece, c: Grid): Grid
  { seq(28, y requires 0 <= y < 28 => LandedRow(p, c, y)) }

  predicate FreshBox(p: Piece, x: int, y: int) { InBounds(x, y) && Covers(p, x, y) }

  // The open square (i, j) of the piece's frame, boxed in on the left, on the right and on its logical top, at least
  // one of those boxes being part of this piece.
  predicate BoxedIn(p: Piece, b: Board, i: int, j: int)
  {
    var x, y := p.x + i, p.y + j;
    var top := if Active(b.active, UPBYSIDE) then y + 1 else y - 1;
    && !Occupied(b, x, y)
    && Occupied(b, x - 1, y) && Occupied(b, x + 1, y) && Occupied(b, x, top)
    && (FreshBox(p, x - 1, y) || FreshBox(p, x + 1, y) || FreshBox(p, x, top))
  }

  predicate BadMove(p: Piece, b: Board)
  { exists i, j :: 0 <= i < 8 && 0 <= j < 8 && BoxedIn(p, b, i, j) }

  function Land(p: Piece, b: Board): Board
  {
    var b' := b.(cells := LandedGrid(p, b.cells));
    if BadMove(p, b') then b'.(idiot := true, reason := BAD_MOVE) else b'
  }
}
