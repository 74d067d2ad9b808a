/** Every board operation keeps the bottle's walls standing and the squares plain: structure
    cells on each wall square while Bottle is active, and nothing on the board but the cells
    the game makes. */
module WallLaws {
  import opened Wrappers
  import opened Cells
  import opened Weapons
  import opened Rng
  import opened Boards
  import opened Pieces

  // The cells play can put on a board.
  predicate PlainCell(c: Cell)
  {
    match c.kind
    case Color(k) => -1 <= k <= 8
    case Die(v) => 1 <= v <= 6
    case Happy(_) => true
    case Structure => true
    case Gimp(v) => 0 <= v <= HAPPY_VAL
    case Invisible(_, _) => false
  }

  predicate SquareSound(bottle: bool, x: int, y: int, s: Square)
  {
    && (s.Some? ==> PlainCell(s.value))
    && (bottle && WallSquare(x, y) ==> s.Some? && s.value.kind.Structure?)
  }

  ghost predicate GridSound(c: Grid, bottle: bool)
  { forall x, y :: InBounds(x, y) ==> SquareSound(bottle, x, y, c[y][x]) }

  ghost predicate BoardSound(b: Board) { GridSound(b.cells, Active(b.active, BOTTLE)) }

  // The walls, as a reader would ask for them.
  ghost predicate WallsStand(b: Board)
  {
    Active(b.active, BOTTLE) ==>
      forall x, y :: WallSquare(x, y) ==> b.cells[y][x].Some? && b.cells[y][x].value.kind.Structure?
  }

  lemma SoundWalls(b: Board)
    requires BoardSound(b)
    ensures WallsStand(b)
  {
    forall x, y | WallSquare(x, y) && Active(b.active, BOTTLE)
      ensures b.cells[y][x].Some? && b.cells[y][x].value.kind.Structure?
    { assert SquareSound(true, x, y, b.cells[y][x]); }
  }

  // ----- removing and clearing -----

  lemma RemovedSquare(c: Grid, x: int, y: int, line: int, x1: int, x2: int, force: bool, bottle: bool, upright: bool)
    requires InBounds(x, y) && GridSound(c, bottle) && 0 <= line < 28
    ensures SquareSound(bottle, x, y, RemovedAt(c, x, y, line, x1, x2, force, bottle, upright))
  {
    hide PlainCell;
    assert SquareSound(bottle, x, y, c[y][x]);
    if y > 0 { assert SquareSound(bottle, x, y - 1, c[y - 1][x]); }
    if y < 27 { assert SquareSound(bottle, x, y + 1, c[y + 1][x]); }
  }

  lemma RemovedSound(b: Board, line: int, x1: int, x2: int)
    requires BoardSound(b) && 0 <= line < 28
    ensures GridSound(Removed(b, line, x1, x2), Active(b.active, BOTTLE))
  {
    hide SquareSound, RemovedAt;
    var bottle := Active(b.active, BOTTLE);
    forall x, y | InBounds(x, y)
      ensures SquareSound(bottle, x, y, Removed(b, line, x1, x2)[y][x])
    { RemovedSquare(b.cells, x, y, line, x1, x2, Active(b.active, FORCE), bottle, Upright(b)); }
  }

  lemma FrownedSound(b: Board, j: int)
    requires BoardSound(b) && 0 <= j < 28
    ensures BoardSound(Frowned(b, j))
  {
    var bottle := Active(b.active, BOTTLE);
    forall x, y | InBounds(x, y)
      ensures SquareSound(bottle, x, y, Frowned(b, j).cells[y][x])
    { assert SquareSound(bottle, x, y, b.cells[y][x]); }
  }

  lemma {:induction false} ClearSound(b: Board, j: int, lines: nat, value: int)
    requires BoardSound(b) && -1 <= j < 28
    ensures BoardSound(ClearFrom(b, j, lines, value).b)
    decreases Count(b.cells), j + 1
  {
    hide GridSound, Removed, FrownRow;
    if j >= 0 {
      var b' := b.(cells := Removed(b, j, 0, 10));
      if !FullRow(b.cells[j]) {
        FrownedSound(b, j);
        SumKept(b.cells, Frowned(b, j).cells, 10) by { FrownKeepsSquares(b, j); }
        ClearSound(Frowned(b, j), j - 1, lines, value);
      } else {
        RemovedSound(b, j, 0, 10);
        var value' := value + ValueUpTo(b.cells[j], 10);
        if Active(b.active, FORCE) {
          SumKept(b.cells, b'.cells, 10) by { ForceOnlyEmpties(b, j); }
          ClearSound(b', j - 1, lines + 1, value');
        } else {
          SumAfterRemoval(b, j, 10);
          ClearSound(b', j, lines + 1, value');
        }
      }
    }
  }

  lemma FrownKeepsSquares(b: Board, j: int)
    requires 0 <= j < 28
    ensures forall x, y :: InBounds(x, y) ==> (Frowned(b, j).cells[y][x].Some? ==> b.cells[y][x].Some?)
  {}

  lemma ForceOnlyEmpties(b: Board, j: int)
    requires 0 <= j < 28 && Active(b.active, FORCE)
    ensures forall x, y :: InBounds(x, y) ==> (Removed(b, j, 0, 10)[y][x].Some? ==> b.cells[y][x].Some?)
  {}

  lemma CheckSound(b: Board)
    requires BoardSound(b)
    ensures BoardSound(CheckLines(b).0)
  {
    hide GridSound, ClearFrom, NearDeath;
    ClearSound(b, 27, 0, 0);
  }

  // ----- inserting -----

  lemma InsertedSound(b: Board, hole: int)
    requires BoardSound(b)
    ensures GridSound(Inserted(b, hole), Active(b.active, BOTTLE))
  {
    var bottle := Active(b.active, BOTTLE);
    forall x, y | InBounds(x, y)
      ensures SquareSound(bottle, x, y, Inserted(b, hole)[y][x])
    {
      assert SquareSound(bottle, x, y, b.cells[y][x]);
      if y > 0 { assert SquareSound(bottle, x, y - 1, b.cells[y - 1][x]); }
      if y < 27 { assert SquareSound(bottle, x, y + 1, b.cells[y + 1][x]); }
    }
  }

  lemma {:induction false} InsertsSound(b: Board, s: Word, n: nat)
    requires BoardSound(b)
    ensures BoardSound(InsertLines(b, s, n).0)
    ensures InsertLines(b, s, n).0.active == b.active
    decreases n
  {
    hide GridSound, Inserted;
    if n > 0 {
      InsertedSound(b, Below(Next(s), 10));
      InsertsSound(InsertLine(b, s).0, InsertLine(b, s).1, n - 1);
    }
  }

  // ----- flips and the square-by-square weapons -----

  lemma FlipsSound(c: Grid, bottle: bool)
    requires GridSound(c, bottle)
    ensures GridSound(FlipHoriz(c), bottle) && GridSound(FlipVert(c), bottle)
  {
    forall x, y | InBounds(x, y)
      ensures SquareSound(bottle, x, y, FlipHoriz(c)[y][x]) && SquareSound(bottle, x, y, FlipVert(c)[y][x])
    {
      assert SquareSound(bottle, x, 27 - y, c[27 - y][x]);
      assert SquareSound(bottle, 9 - x, y, c[y][9 - x]);
    }
  }

  lemma PutSound(c: Grid, bottle: bool, x: int, y: int, s: Square)
    requires GridSound(c, bottle) && InBounds(x, y) && SquareSound(bottle, x, y, s)
    ensures GridSound(Put(c, x, y, s), bottle)
  {
    forall i, j | InBounds(i, j)
      ensures SquareSound(bottle, i, j, Put(c, x, y, s)[j][i])
    { assert SquareSound(bottle, i, j, c[j][i]); }
  }

  // Only removable squares are emptied, and a wall is not one.
  lemma EmptiedSound(c: Grid, bottle: bool, x: int, y: int)
    requires GridSound(c, bottle) && RemovableAt(c, x, y)
    ensures GridSound(Put(c, x, y, None), bottle)
  {
    assert SquareSound(bottle, x, y, c[y][x]);
    PutSound(c, bottle, x, y, None);
  }

  lemma {:induction false} RemoveFirstSound(c: Grid, bottle: bool, sx: int, sy: int, k: nat)
    requires GridSound(c, bottle) && 0 <= sx < 10 && 0 <= sy < 28 && k <= 280
    ensures GridSound(RemoveFirst(c, sx, sy, k), bottle)
    decreases 280 - k
  {
    hide GridSound, RemovableAt;
    var x, y := (sx + k % 10) % 10, (sy + k / 10) % 28;
    if k < 280 {
      if RemovableAt(c, x, y) { EmptiedSound(c, bottle, x, y); } else { RemoveFirstSound(c, bottle, sx, sy, k + 1); }
    }
  }

  lemma {:induction false} BlindSound(c: Grid, bottle: bool, s: Word, k: nat)
    requires GridSound(c, bottle) && k <= 280
    ensures GridSound(BlindFrom(c, s, k).0, bottle)
    decreases 280 - k
  {
    hide GridSound, RemovableAt, Put;
    if k < 280 {
      if RemovableAt(c, k % 10, k / 10) {
        EmptiedSound(c, bottle, k % 10, k / 10);
        BlindSound(if Below(Next(s), 2) == 0 then Put(c, k % 10, k / 10, None) else c, bottle, Next(s), k + 1);
      } else {
        BlindSound(c, bottle, s, k + 1);
      }
    }
  }

  lemma PaintedSound(c: Grid, bottle: bool)
    requires GridSound(c, bottle)
    ensures GridSound(Gimped(c), bottle) && GridSound(Hidden(c), bottle)
  {
    forall x, y | InBounds(x, y)
      ensures SquareSound(bottle, x, y, Gimped(c)[y][x]) && SquareSound(bottle, x, y, Hidden(c)[y][x])
    { assert SquareSound(bottle, x, y, c[y][x]); }
  }

  // A block is dropped on an open square, so never on a wall.
  lemma DropSound(b: Board, t: WeaponToken, s: Word)
    requires BoardSound(b)
    ensures BoardSound(DropBlock(b, t, s).0) && DropBlock(b, t, s).0.active == b.active
  {
    hide PickOpen, GridSound;
    if BandOpen(b.cells) {
      var (i, j, u) := PickOpen(b.cells, s);
      var cell := if t == BUG then Some(Plain(Color(INVISIBLE_COLOR))) else Some(Plain(Color(Below(Next(u), 8) + 1)));
      OpenIsNoWall(b.cells, Active(b.active, BOTTLE), i, j);
      PutSound(b.cells, Active(b.active, BOTTLE), i, j, cell);
    }
  }

  lemma OpenIsNoWall(c: Grid, bottle: bool, x: int, y: int)
    requires GridSound(c, bottle) && InBounds(x, y) && c[y][x].None?
    ensures !(bottle && WallSquare(x, y))
  { assert SquareSound(bottle, x, y, c[y][x]); }

  lemma {:induction false} FallOutSound(b: Board, n: nat)
    requires BoardSound(b)
    ensures BoardSound(FallOutTimes(b, n)) && FallOutTimes(b, n).active == b.active
    decreases n
  {
    hide GridSound, Removed;
    if n > 0 {
      var line := if Upright(b) then 27 else 0;
      RemovedSound(b, line, 2, 8);
      FallOutSound(b.(cells := Removed(b, line, 2, 8)), n - 1);
    }
  }

  lemma WalledSound(c: Grid)
    requires GridSound(c, false)
    ensures GridSound(Walled(c, STRUCTURE_SQUARE), true) && GridSound(Walled(c, None), false)
  {
    forall x, y | InBounds(x, y)
      ensures SquareSound(true, x, y, Walled(c, STRUCTURE_SQUARE)[y][x]) && SquareSound(false, x, y, Walled(c,
        None)[y][x])
    { assert SquareSound(false, x, y, c[y][x]); }
  }

  lemma WithoutWalls(c: Grid, bottle: bool)
    requires GridSound(c, bottle)
    ensures GridSound(c, false)
  {
    forall x, y | InBounds(x, y)
      ensures SquareSound(false, x, y, c[y][x])
    { assert SquareSound(bottle, x, y, c[y][x]); }
  }

  // The board's share of a weapon turning on: its flag, then its effect.
  lemma OneShotSound(b: Board, t: WeaponToken, s: Word)
    requires BoardSound(b) && t != BOTTLE
    ensures BoardSound(ApplyEffect(b, t, s).b)
  {
    var bottle := Active(b.active, BOTTLE);
    hide GridSound, FlipHoriz, FlipVert, Gimped, Hidden, DropBlock, RemoveFirst, BlindFrom, FallOutTimes, Inserted,
      Walled, CheckLines, Active;
    FlipsSound(b.cells, bottle);
    PaintedSound(b.cells, bottle);
    if t == PIECE_IT || t == BUG { DropSound(b, t, s); }
    else if t == MISSING { RemoveFirstSound(b.cells, bottle, Below(Next(s), 10), Below(Next(Next(s)), 28), 0); }
    else if t == BLIND { BlindSound(b.cells, bottle, s, 0); }
    else if t == FALL_OUT { FallOutSound(b, 28); }
    else if t == RISE_UP { InsertedSound(b, Below(Next(s), 10)); }
  }

  /** A weapon turning on, Bottle with its walls and the clear they complete included. */
  lemma EffectSound(b: Board, t: WeaponToken, s: Word)
    requires BoardSound(b)
    ensures BoardSound(ApplyEffect(b.(active := SetFlag(b.active, t, true)), t, s).b)
  {
    var b' := b.(active := SetFlag(b.active, t, true));
    hide ApplyEffect, GridSound;
    if t == BOTTLE {
      WithoutWalls(b.cells, Active(b.active, BOTTLE));
      WalledSound(b.cells);
      BottleEffect(b', s);
    } else {
      assert Active(b'.active, BOTTLE) == Active(b.active, BOTTLE);
      OneShotSound(b', t, s);
    }
  }

  lemma BottleEffect(b: Board, s: Word)
    requires Active(b.active, BOTTLE) && GridSound(Walled(b.cells, STRUCTURE_SQUARE), true)
    ensures BoardSound(ApplyEffect(b, BOTTLE, s).b)
  {
    hide GridSound, CheckLines, Walled;
    CheckSound(b.(cells := Walled(b.cells, STRUCTURE_SQUARE)));
  }

  /** A weapon turning off: Bottle's walls go with its flag. */
  lemma RevertSound(b: Board, t: WeaponToken)
    requires BoardSound(b)
    ensures var r := RevertEffect(b, t); BoardSound(r.(active := SetFlag(r.active, t, false)))
  {
    var bottle := Active(b.active, BOTTLE);
    hide GridSound, FlipHoriz, FlipVert, Walled;
    FlipsSound(b.cells, bottle);
    WithoutWalls(b.cells, bottle);
    WalledSound(b.cells);
  }

  // ----- landing -----

  // No square of the piece, where it stands, lies on a standing wall.
  ghost predicate ClearOfWalls(p: Piece, b: Board)
  { Active(b.active, BOTTLE) ==> forall x, y :: WallSquare(x, y) ==> !Covers(p, x, y) }

  predicate PlainPiece(p: Piece)
  { forall i, j :: 0 <= i < 8 && 0 <= j < 8 && p.cells[i][j].Some? ==> PlainCell(p.cells[i][j].value) }

  lemma CoveredIsOpen(p: Piece, b: Board, x: int, y: int)
    requires CanMoveTo(p, b, p.x, p.y) && Covers(p, x, y)
    ensures !Occupied(b, x, y)
  { assert !Occupied(b, p.x + (x - p.x), p.y + (y - p.y)); }

  lemma FitsClearOfWalls(p: Piece, b: Board)
    requires BoardSound(b) && CanMoveTo(p, b, p.x, p.y)
    ensures ClearOfWalls(p, b)
  {
    hide PlainCell;
    forall x, y | WallSquare(x, y) && Active(b.active, BOTTLE)
      ensures !Covers(p, x, y)
    {
      assert SquareSound(true, x, y, b.cells[y][x]);
      if Covers(p, x, y) { CoveredIsOpen(p, b, x, y); }
    }
  }

  lemma LandSound(p: Piece, b: Board)
    requires BoardSound(b) && PlainPiece(p) && ClearOfWalls(p, b)
    ensures BoardSound(Land(p, b))
  {
    hide BadMove, PlainCell;
    var bottle := Active(b.active, BOTTLE);
    forall x, y | InBounds(x, y)
      ensures SquareSound(bottle, x, y, LandedGrid(p, b.cells)[y][x])
    { assert SquareSound(bottle, x, y, b.cells[y][x]); }
  }
}
