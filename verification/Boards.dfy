/** The 10x28 playfield as a value, and what each operation of
    rust/bt-core/src/board.rs computes on it. The object that carries the grid and
    computes these results with loops is in FieldObject. */
module Boards {
  import opened Wrappers
  import opened Cells
  import opened Weapons
  import opened Rng
  import Draws

  const BAD_MOVE: int := 0
  const NEAR_DEATH: int := 1
  const MISSED_SMILEY: int := 2
  const GREEN: int := 6
  const INVISIBLE_COLOR: int := -1

  type Row = r: seq<Square> | |r| == 10 witness [None, None, None, None, None, None, None, None, None, None]
  type Grid = g: seq<Row> | |g| == 28 witness seq(28, _ => EMPTY_ROW)

  const EMPTY_ROW: Row := [None, None, None, None, None, None, None, None, None, None]

  datatype Board = Board(
    cells: Grid,
    active: Flags,
    upside: bool,
    computer: bool,
    idiot: bool,
    reason: int)

  datatype LineClear = LineClear(lines: nat, value: int, funds: int)

  function EmptyGrid(): Grid { seq(28, _ => EMPTY_ROW) }

  const NO_CLEAR: LineClear := LineClear(0, 0, 0)

  function NewBoard(computer: bool): Board
  { Board(EmptyGrid(), NoFlags(), false, computer, false, 0) }

  predicate InBounds(x: int, y: int) { 0 <= x < 10 && 0 <= y < 28 }

  function At(c: Grid, x: int, y: int): Square
  { if InBounds(x, y) then c[y][x] else None }

  function Put(c: Grid, x: int, y: int, s: Square): Grid
  { if InBounds(x, y) then c[y := c[y][x := s]] else c }

  // FALL_OUT opens the floor and the ceiling between two ledges of width 2.
  predicate Occupied(b: Board, x: int, y: int)
  {
    if !Active(b.active, FALL_OUT) then
      !InBounds(x, y) || At(b.cells, x, y).Some?
    else
      || x < 0 || x >= 10
      || ((y >= 28 || y < 0) && (x < 2 || x >= 8))
      || At(b.cells, x, y).Some?
      || y < -8 || y > 36
  }

  // Whether lines drop away from the bottom row. Only a human board is ever flipped.
  predicate Upright(b: Board) { !Active(b.active, UPBYSIDE) || b.computer }

  predicate FullRow(r: Row) { forall x :: 0 <= x < 10 ==> r[x].Some? }
  predicate EmptyRow(r: Row) { forall x :: 0 <= x < 10 ==> r[x].None? }

  function ValueUpTo(r: Row, n: nat): int
    requires n <= 10 && forall x :: 0 <= x < n ==> r[x].Some?
  { if n == 0 then 0 else ValueUpTo(r, n - 1) + r[n - 1].value.Value() }

  // ----- removing a line -----

  predicate Neck(x: int) { 3 <= x < 7 }

  // Dropping the board into row `line` moves column x down from this row, which it leaves
  // empty; 28 when the bottle's shoulder keeps the column in place.
  function DropTop(x: int, line: int, bottle: bool): int
  { if bottle && line >= 10 && !Neck(x) then (if line >= 19 then 18 else 28) else 0 }

  // The mirror image on a flipped board; -1 when the column stays.
  function RiseBottom(x: int, line: int, bottle: bool): int
  { if bottle && line <= 18 && !Neck(x) then (if line <= 8 then 9 else -1) else 27 }

  function RemovedAt(c: Grid, x: int, y: int, line: int, x1: int, x2: int,
                     force: bool, bottle: bool, upright: bool): Square
    requires InBounds(x, y)
  {
    if !(x1 <= x < x2) then c[y][x]
    else if force then
      if y != line then c[y][x]
      else if upright then
        (if line > 0 && (Neck(x) || !(bottle && 10 <= line <= 18)) then None else c[y][x])
      else
        (if line < 27 && (Neck(x) || !(bottle && 9 <= line <= 18)) then None else c[y][x])
    else if upright then
      var t := DropTop(x, line, bottle);
      if t < y <= line then c[y - 1][x] else if t == y && t <= line then None else c[y][x]
    else
      var t := RiseBottom(x, line, bottle);
      if line <= y < t then c[y + 1][x] else if t == y && line <= t then None else c[y][x]
  }

  function RemovedRow(b: Board, y: int, line: int, x1: int, x2: int): Row
    requires 0 <= y < 28
  {
    seq(10, x requires 0 <= x < 10 =>
      RemovedAt(b.cells, x, y, line, x1, x2, Active(b.active, FORCE), Active(b.active, BOTTLE), Upright(b)))
  }

  function Removed(b: Board, line: int, x1: int, x2: int): Grid
  { seq(28, y requires 0 <= y < 28 => RemovedRow(b, y, line, x1, x2)) }

  // ----- the occupied-cell count -----

  function ColumnCount(c: Grid, x: int, n: nat): nat
    requires 0 <= x < 10 && n <= 28
  { if n == 0 then 0 else ColumnCount(c, x, n - 1) + if c[n - 1][x].Some? then 1 else 0 }

  function CountUpTo(c: Grid, k: nat): nat
    requires k <= 10
  { if k == 0 then 0 else CountUpTo(c, k - 1) + ColumnCount(c, k - 1, 28) }

  // The number of filled squares.
  function Count(c: Grid): nat { CountUpTo(c, 10) }

  // A column that moves one row down into a filled square of `line` loses exactly that cell.
  lemma {:induction false} ColumnDrops(c: Grid, d: Grid, x: int, t: int, line: int, n: nat)
    requires 0 <= x < 10 && 0 <= t <= line < 28 && n <= 28
    requires forall y {:trigger d[y]} :: 0 <= y < 28 ==>
      d[y][x] == (if t < y <= line then c[y - 1][x] else if y == t then None else c[y][x])
    requires c[line][x].Some?
    ensures n <= t ==> ColumnCount(d, x, n) == ColumnCount(c, x, n)
    ensures t < n <= line + 1 ==> ColumnCount(d, x, n) == ColumnCount(c, x, n - 1)
    ensures line < n ==> ColumnCount(d, x, n) + 1 == ColumnCount(c, x, n)
  {
    if n > 0 {
      ColumnDrops(c, d, x, t, line, n - 1);
      assert d[n - 1][x] == if t < n - 1 <= line then c[n - 2][x] else if n - 1 == t then None else c[n - 1][x];
    }
  }

  lemma {:induction false} ColumnRises(c: Grid, d: Grid, x: int, t: int, line: int, n: nat)
    requires 0 <= x < 10 && 0 <= line <= t < 28 && n <= 28
    requires forall y {:trigger d[y]} :: 0 <= y < 28 ==>
      d[y][x] == (if line <= y < t then c[y + 1][x] else if y == t then None else c[y][x])
    requires c[line][x].Some?
    ensures n <= line ==> ColumnCount(d, x, n) == ColumnCount(c, x, n)
    ensures line <= n <= t ==> ColumnCount(d, x, n) + 1 == ColumnCount(c, x, n + 1)
    ensures t < n ==> ColumnCount(d, x, n) + 1 == ColumnCount(c, x, n)
  {
    if n > 0 {
      ColumnRises(c, d, x, t, line, n - 1);
      assert d[n - 1][x] == if line <= n - 1 < t then c[n][x] else if n - 1 == t then None else c[n - 1][x];
    }
  }

  lemma {:induction false} ColumnKept(c: Grid, d: Grid, x: int, n: nat)
    requires 0 <= x < 10 && n <= 28
    requires forall y :: 0 <= y < 28 ==> (d[y][x].Some? ==> c[y][x].Some?)
    ensures ColumnCount(d, x, n) <= ColumnCount(c, x, n)
    ensures (forall y :: 0 <= y < 28 ==> d[y][x] == c[y][x]) ==> ColumnCount(d, x, n) == ColumnCount(c, x, n)
  { if n > 0 { ColumnKept(c, d, x, n - 1); } }

  // One column of a non-Force removal of a full row.
  lemma ColumnAfterRemoval(b: Board, line: int, x: int)
    requires 0 <= line < 28 && 0 <= x < 10 && FullRow(b.cells[line])
    requires !Active(b.active, FORCE)
    ensures ColumnCount(Removed(b, line, 0, 10), x, 28) <= ColumnCount(b.cells, x, 28)
    ensures Neck(x) || !Active(b.active, BOTTLE) ==>
      ColumnCount(Removed(b, line, 0, 10), x, 28) + 1 == ColumnCount(b.cells, x, 28)
  {
    var d := Removed(b, line, 0, 10);
    var bottle := Active(b.active, BOTTLE);
    hide Count, CountUpTo, Active;
    if Upright(b) {
      var t := DropTop(x, line, bottle);
      if t <= line { ColumnDrops(b.cells, d, x, t, line, 28); } else { ColumnKept(b.cells, d, x, 28); }
    } else {
      var t := RiseBottom(x, line, bottle);
      if line <= t { ColumnRises(b.cells, d, x, t, line, 28); } else { ColumnKept(b.cells, d, x, 28); }
    }
  }

  lemma {:induction false} SumAfterRemoval(b: Board, line: int, k: nat)
    requires 0 <= line < 28 && k <= 10 && FullRow(b.cells[line])
    requires !Active(b.active, FORCE)
    ensures CountUpTo(Removed(b, line, 0, 10), k) <= CountUpTo(b.cells, k)
    ensures k > 3 ==> CountUpTo(Removed(b, line, 0, 10), k) < CountUpTo(b.cells, k)
    ensures !Active(b.active, BOTTLE) ==> CountUpTo(Removed(b, line, 0, 10), k) + k == CountUpTo(b.cells, k)
  {
    if k > 0 {
      ColumnAfterRemoval(b, line, k - 1);
      SumAfterRemoval(b, line, k - 1);
    }
  }

  lemma {:induction false} SumKept(c: Grid, d: Grid, k: nat)
    requires k <= 10
    requires forall x, y :: InBounds(x, y) ==> (d[y][x].Some? ==> c[y][x].Some?)
    ensures CountUpTo(d, k) <= CountUpTo(c, k)
  { if k > 0 { ColumnKept(c, d, k - 1, 28); SumKept(c, d, k - 1); } }

  // ----- clearing full lines -----

  predicate WorthASmile(s: Square) { s.Some? && s.value.Value() == HAPPY_VAL }

  function FrownAt(s: Square): Square
  { if WorthASmile(s) then Some(s.value.Landed()) else s }

  function FrownRow(r: Row): Row
  { seq(10, x requires 0 <= x < 10 => FrownAt(r[x])) }

  predicate HasSmile(r: Row) { exists x :: 0 <= x < 10 && WorthASmile(r[x]) }

  // A row that is not a line frowns its smileys and raises the heckle flag for them.
  function Frowned(b: Board, j: int): Board
    requires 0 <= j < 28
  {
    b.(cells := b.cells[j := FrownRow(b.cells[j])],
       idiot := b.idiot || HasSmile(b.cells[j]),
       reason := if HasSmile(b.cells[j]) then MISSED_SMILEY else b.reason)
  }

  datatype Cleared = Cleared(b: Board, lines: nat, value: int)

  // The pass from row j up to row 0. A cleared row is examined again unless Force keeps
  // the board from dropping into it.
  function ClearFrom(b: Board, j: int, lines: nat, value: int): (r: Cleared)
    requires -1 <= j < 28
    ensures r.b.active == b.active && r.b.upside == b.upside && r.b.computer == b.computer
    ensures r.lines >= lines
    decreases Count(b.cells), j + 1
  {
    if j < 0 then Cleared(b, lines, value)
    else if FullRow(b.cells[j]) then
      var b' := b.(cells := Removed(b, j, 0, 10));
      var value' := value + ValueUpTo(b.cells[j], 10);
      if Active(b.active, FORCE) then
        SumKept(b.cells, b'.cells, 10);
        ClearFrom(b', j - 1, lines + 1, value')
      else
        SumAfterRemoval(b, j, 10);
        ClearFrom(b', j, lines + 1, value')
    else
      SumKept(b.cells, Frowned(b, j).cells, 10);
      ClearFrom(Frowned(b, j), j - 1, lines, value)
  }

  // The stack reaches row 7: every row from there to the floor holds something.
  predicate NearDeath(c: Grid) { forall j :: 7 <= j < 28 ==> !EmptyRow(c[j]) }

  function CheckLines(b: Board): (r: (Board, LineClear))
    ensures r.0.active == b.active && r.0.upside == b.upside && r.0.computer == b.computer
    ensures r.1.funds == r.1.value * r.1.lines
  {
    var c := ClearFrom(b, 27, 0, 0);
    if c.lines == 0 then
      (if NearDeath(b.cells) then c.b.(idiot := true, reason := NEAR_DEATH) else c.b, NO_CLEAR)
    else
      (c.b.(idiot := false, reason := if NearDeath(b.cells) then NEAR_DEATH else c.b.reason),
       LineClear(c.lines, c.value, c.value * c.lines))
  }

  function FlushIdiot(b: Board): (Board, Option<int>)
  { (b.(idiot := false), if b.idiot then Some(b.reason) else None) }

  // ----- inserting a garbage line -----

  const GARBAGE: Square := Some(Plain(Color(GREEN)))

  // The stack gives way one row; the outer columns of a bottle move only below
  // (flipped: above) the neck.
  function InsertedAt(c: Grid, x: int, y: int, hole: int, bottle: bool, upright: bool): Square
    requires InBounds(x, y)
  {
    if upright then
      if y == 27 then (if x == hole then None else GARBAGE)
      else if bottle && !Neck(x) && y < 18 then c[y][x]
      else c[y + 1][x]
    else
      if y == 0 then (if x == hole then None else GARBAGE)
      else if bottle && !Neck(x) && y > 9 then c[y][x]
      else c[y - 1][x]
  }

  function InsertedRow(b: Board, y: int, hole: int): Row
    requires 0 <= y < 28
  { seq(10, x requires 0 <= x < 10 => InsertedAt(b.cells, x, y, hole, Active(b.active, BOTTLE), Upright(b))) }

  function Inserted(b: Board, hole: int): Grid
  { seq(28, y requires 0 <= y < 28 => InsertedRow(b, y, hole)) }

  // One garbage line with a randomly drawn gap.
  function InsertLine(b: Board, s: Word): (Board, Word)
  { (b.(cells := Inserted(b, Below(Next(s), 10))), Next(s)) }

  function InsertLines(b: Board, s: Word, n: nat): (Board, Word)
    decreases n
  { if n == 0 then (b, s) else var r := InsertLine(b, s); InsertLines(r.0, r.1, n - 1) }

  // ----- weapon effects -----

  function FlipHoriz(c: Grid): Grid { seq(28, y requires 0 <= y < 28 => c[27 - y]) }

  function MirrorRow(r: Row): Row { seq(10, x requires 0 <= x < 10 => r[9 - x]) }

  function FlipVert(c: Grid): Grid { seq(28, y requires 0 <= y < 28 => MirrorRow(c[y])) }

  // An open square in the middle two quarters.
  predicate BandOpen(c: Grid)
  { exists i, j :: 0 <= i < 10 && 7 <= j < 21 && c[j][i].None? }

  ghost predicate OpenWord(c: Grid, w: State48, p: int)
  {
    && w % 2 == p
    && c[Below(Next(w), 14) + 7][Below(w, 10)].None?
  }

  lemma OpenWordExists(c: Grid, p: int)
    requires BandOpen(c) && 0 <= p < 2
    ensures exists w: State48 :: OpenWord(c, w, p)
  {
    var i, j :| 0 <= i < 10 && 7 <= j < 21 && c[j][i].None?;
    var w := Draws.SquareWord(i, j - 7, p);
    assert OpenWord(c, w, p);
  }

  ghost function WordFor(c: Grid, p: int): (w: State48)
    requires BandOpen(c) && 0 <= p < 2
    ensures OpenWord(c, w, p)
  {
    OpenWordExists(c, p);
    var w: State48 :| OpenWord(c, w, p);
    w
  }

  // Rounds the rejection loop can still fail from a state.
  ghost function RoundsToOpen(c: Grid, s: Word): nat
    requires BandOpen(c)
  { RoundsTo(s, WordFor(c, (s + 1) % 2)) }

  lemma OpenRoundCloser(c: Grid, s: Word)
    requires BandOpen(c)
    requires c[Below(Next(Next(s)), 14) + 7][Below(Next(s), 10)].Some?
    ensures RoundsToOpen(c, Next(Next(s))) < RoundsToOpen(c, s)
  {
    NextParity(s);
    NextParity(Next(s));
    hide Next, Below, RoundsTo;
    TwoFlips(s, Next(s), Next(Next(s)));
    RoundCloser(s, WordFor(c, (s + 1) % 2));
  }

  lemma TwoFlips(s: int, t: int, u: int)
    requires t % 2 == (s + 1) % 2 && u % 2 == (t + 1) % 2
    ensures (u + 1) % 2 == (s + 1) % 2
  {}

  // The rejection loop of Piece It and Bug: column and row until the square is open.
  function PickOpen(c: Grid, s: Word): (r: (int, int, Word))
    requires BandOpen(c)
    ensures InBounds(r.0, r.1) && 7 <= r.1 < 21 && c[r.1][r.0].None?
    decreases RoundsToOpen(c, s)
  {
    var i, j, t := Below(Next(s), 10), Below(Next(Next(s)), 14) + 7, Next(Next(s));
    if c[j][i].None? then (i, j, t) else OpenRoundCloser(c, s); PickOpen(c, t)
  }

  function DropBlock(b: Board, t: WeaponToken, s: Word): (Board, Word)
  {
    if !BandOpen(b.cells) then (b, s)
    else
      var (i, j, u) := PickOpen(b.cells, s);
      if t == BUG then (b.(cells := Put(b.cells, i, j, Some(Plain(Color(INVISIBLE_COLOR))))), u)
      else (b.(cells := Put(b.cells, i, j, Some(Plain(Color(Below(Next(u), 8) + 1))))), Next(u))
  }

  predicate RemovableAt(c: Grid, x: int, y: int)
  { At(c, x, y).Some? && At(c, x, y).value.kind.Removable() }

  // The first removable square from (sx, sy) on, row by row, both axes wrapping.
  function RemoveFirst(c: Grid, sx: int, sy: int, k: nat): Grid
    requires 0 <= sx < 10 && 0 <= sy < 28 && k <= 280
    decreases 280 - k
  {
    var x, y := (sx + k % 10) % 10, (sy + k / 10) % 28;
    if k == 280 then c
    else if RemovableAt(c, x, y) then Put(c, x, y, None)
    else RemoveFirst(c, sx, sy, k + 1)
  }

  // A coin is tossed for each removable square, in row order.
  function BlindFrom(c: Grid, s: Word, k: nat): (Grid, Word)
    requires k <= 280
    decreases 280 - k
  {
    if k == 280 then (c, s)
    else if RemovableAt(c, k % 10, k / 10) then
      BlindFrom(if Below(Next(s), 2) == 0 then Put(c, k % 10, k / 10, None) else c, Next(s), k + 1)
    else BlindFrom(c, s, k + 1)
  }

  function GimpAt(s: Square): Square
  { if s.Some? && s.value.kind.Removable() then Some(Plain(Gimp(s.value.Value()))) else s }

  function GimpRow(r: Row): Row { seq(10, x requires 0 <= x < 10 => GimpAt(r[x])) }

  function Gimped(c: Grid): Grid { seq(28, y requires 0 <= y < 28 => GimpRow(c[y])) }

  function HideAt(s: Square): Square { if s.Some? then Some(s.value.Hide()) else s }

  function HideRow(r: Row): Row { seq(10, x requires 0 <= x < 10 => HideAt(r[x])) }

  function Hidden(c: Grid): Grid { seq(28, y requires 0 <= y < 28 => HideRow(c[y])) }

  function FallOutTimes(b: Board, n: nat): Board
    decreases n
  {
    if n == 0 then b
    else FallOutTimes(b.(cells := Removed(b, if Upright(b) then 27 else 0, 2, 8)), n - 1)
  }

  // The two side walls of the bottle's neck.
  predicate WallSquare(x: int, y: int) { 10 <= y < 18 && (0 <= x < 3 || 7 <= x < 10) }

  function WalledRow(r: Row, y: int, s: Square): Row
  { seq(10, x requires 0 <= x < 10 => if WallSquare(x, y) then s else r[x]) }

  function Walled(c: Grid, s: Square): Grid
  { seq(28, y requires 0 <= y < 28 => WalledRow(c[y], y, s)) }

  const STRUCTURE_SQUARE: Square := Some(Plain(Structure))

  datatype Effect = Effect(b: Board, clear: LineClear, rng: Word)

  // The one-shot mutation of a weapon turning on, its flag already set.
  function ApplyEffect(b: Board, t: WeaponToken, s: Word): (r: Effect)
    ensures r.b.active == b.active && r.b.computer == b.computer
    ensures t != BOTTLE ==> r.clear == NO_CLEAR
  {
    if t == UPBYSIDE then
      Effect(b.(cells := if !b.upside && !b.computer then FlipHoriz(b.cells) else b.cells, upside := true), NO_CLEAR, s)
    else if t == PIECE_IT || t == BUG then
      var r := DropBlock(b, t, s); Effect(r.0, NO_CLEAR, r.1)
    else if t == MISSING then
      Effect(b.(cells := RemoveFirst(b.cells, Below(Next(s), 10), Below(Next(Next(s)), 28), 0)),
             NO_CLEAR, Next(Next(s)))
    else if t == BLIND then
      var r := BlindFrom(b.cells, s, 0); Effect(b.(cells := r.0), NO_CLEAR, r.1)
    else if t == GIMP then Effect(b.(cells := Gimped(b.cells)), NO_CLEAR, s)
    else if t == TWILIGHT then Effect(b.(cells := Hidden(b.cells)), NO_CLEAR, s)
    else if t == FLIP_OUT then Effect(b.(cells := FlipVert(b.cells)), NO_CLEAR, s)
    else if t == FALL_OUT then
      FallOutKeeps(b, 28); Effect(FallOutTimes(b, 28), NO_CLEAR, s)
    else if t == BOTTLE then
      var r := CheckLines(b.(cells := Walled(b.cells, STRUCTURE_SQUARE))); Effect(r.0, r.1, s)
    else if t == RISE_UP then
      var r := InsertLine(b, s); Effect(r.0, NO_CLEAR, r.1)
    else Effect(b, NO_CLEAR, s)
  }

  lemma {:induction false} FallOutKeeps(b: Board, n: nat)
    ensures FallOutTimes(b, n) == b.(cells := FallOutTimes(b, n).cells)
    decreases n
  {
    if n > 0 {
      FallOutKeeps(b.(cells := Removed(b, if Upright(b) then 27 else 0, 2, 8)), n - 1);
    }
  }

  // The mutation of a weapon turning off.
  function RevertEffect(b: Board, t: WeaponToken): Board
  {
    if t == UPBYSIDE then
      b.(upside := false, cells := if !b.computer then FlipHoriz(b.cells) else b.cells)
    else if t == BOTTLE then b.(cells := Walled(b.cells, None))
    else b
  }
}
