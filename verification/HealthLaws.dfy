/** What every step of one game keeps: weapon state, arsenal, board, falling piece and a
    swapped board on its way. */
module HealthLaws {
  import opened Wrappers
  import opened Cells
  import opened Weapons
  import opened Rng
  import opened Boards
  import opened Pieces
  import opened PieceStream
  import opened Arsenals
  import opened Engine
  import opened Inputs
  import opened WeaponLaws
  import opened WallLaws
  import opened PieceLaws
  import opened KeyframeLaws
  import Keyframes

  // ----- the parts -----

  // The falling piece: its own position is the game's, its shape is one rotation reaches,
  // and it covers no standing wall. There is one exactly until the game is over.
  ghost predicate MotionSound(m: Motion, b: Board)
  {
    && (m.phase != Over <==> m.current.Some?) && 0 <= m.slideTime <= 150
    && (m.current.Some? ==>
          var p := m.current.value;
          p.x == m.x && p.y == m.y && Proper(p) && PlainPiece(p) && ClearOfWalls(p, b))
  }

  // The piece overlaps nothing where it stands.
  predicate Free(m: Motion, b: Board)
  { m.current.Some? ==> CanMoveTo(m.current.value, b, m.current.value.x, m.current.value.y) }

  // A swapped board on its way is the export of a board that play could make.
  ghost predicate SwapSound(s: Option<seq<int>>)
  { s.Some? ==> exists c: Grid :: GridSound(c, false) && s.value == ExportCells(c, 28) }

  ghost predicate Healthy(g: Sim)
  {
    && Consistent(g) && Tidy(g.arsenal) && BoardSound(g.board)
    && MotionSound(g.motion, g.board) && SwapSound(g.curses.swap)
  }

  // Between landing a piece and spawning the next there is none.
  ghost predicate BetweenPieces(g: Sim)
  {
    && Consistent(g) && BoardSound(g.board) && SwapSound(g.curses.swap) && Tidy(g.arsenal)
    && 0 <= g.motion.slideTime <= 150
  }

  // ----- the falling piece -----

  lemma PlainRotated(p: Piece, reverse: bool)
    requires Proper(p) && PlainPiece(p)
    ensures PlainPiece(Rotated(p, reverse))
  {
    hide PlainCell;
    if Bespoke(p.kind) {
      var cell :| InShape(p, cell);
      ShapeTurns(p, reverse, cell);
      ShapeFilled(p, cell);
      ShapeTwo(p, reverse);
      PlainShape(p, Rotated(p, reverse), cell);
    } else {
      var q := Rotated(p, reverse);
      forall i, j | 0 <= i < 8 && 0 <= j < 8 && q.cells[i][j].Some?
        ensures PlainCell(q.cells[i][j].value)
      { assert q.cells[i][j] == TurnedAt(p, i, j, reverse); }
    }
  }

  // Every shape of a bespoke kind has a square.
  lemma ShapeTwo(p: Piece, reverse: bool)
    requires BespokeState(p)
    ensures exists s :: s in ShapeOf(p.kind, p.state)
  {
    ArmsLead(p, reverse);
    assert Moves(ShapeOf(p.kind, p.state), ArmsOf(p, reverse)[0]);
    assert From(ArmsOf(p, reverse)[0]) in ShapeOf(p.kind, p.state);
  }

  lemma PlainShape(p: Piece, q: Piece, cell: Cell)
    requires BespokeState(p) && InShape(p, cell) && PlainPiece(p) && InShape(q, cell)
    requires exists s :: s in ShapeOf(p.kind, p.state)
    requires Filled(p) == ShapeOf(p.kind, p.state)
    ensures PlainPiece(q)
  {
    hide ShapeOf, PlainCell;
    var s :| s in ShapeOf(p.kind, p.state);
    assert p.cells[s.0][s.1] == Some(cell);
  }

  lemma ClearFilled(p: Piece, b: Board)
    ensures ClearOfWalls(p, b) <==>
      (Active(b.active, BOTTLE) ==> forall s :: s in Filled(p) ==> !WallSquare(p.x + s.0, p.y + s.1))
  {
    hide WallSquare;
    if Active(b.active, BOTTLE) {
      if forall s :: s in Filled(p) ==> !WallSquare(p.x + s.0, p.y + s.1) {
        forall x, y | WallSquare(x, y)
          ensures !Covers(p, x, y)
        { if Covers(p, x, y) { OnWall(p, x, y); } }
      }
      if ClearOfWalls(p, b) {
        forall s | s in Filled(p)
          ensures !WallSquare(p.x + s.0, p.y + s.1)
        { assert Covers(p, p.x + s.0, p.y + s.1); }
      }
    }
  }

  lemma OnWall(p: Piece, x: int, y: int)
    requires Covers(p, x, y)
    ensures (x - p.x, y - p.y) in Filled(p) && p.x + (x - p.x) == x && p.y + (y - p.y) == y
  {}

  lemma WallOccupied(b: Board, x: int, y: int)
    requires BoardSound(b) && Active(b.active, BOTTLE) && WallSquare(x, y)
    ensures Occupied(b, x, y)
  { hide PlainCell; assert SquareSound(true, x, y, b.cells[y][x]); }

  lemma RotatedClear(p: Piece, b: Board, reverse: bool)
    requires Proper(p) && BoardSound(b) && ClearOfWalls(p, b) && CanRotate(p, b, reverse)
    ensures ClearOfWalls(Rotated(p, reverse), b)
  {
    var q := Rotated(p, reverse);
    ClearFilled(p, b);
    ClearFilled(q, b);
    if Active(b.active, BOTTLE) {
      forall s | s in Filled(q)
        ensures !WallSquare(q.x + s.0, q.y + s.1)
      {
        if WallSquare(q.x + s.0, q.y + s.1) { WallOccupied(b, q.x + s.0, q.y + s.1); TurnedOntoFree(p, b, reverse, s); }
      }
    }
  }

  // A square the turned piece fills was filled before, or was checked to be free.
  lemma TurnedOntoFree(p: Piece, b: Board, reverse: bool, s: (int, int))
    requires Proper(p) && CanRotate(p, b, reverse) && s in Filled(Rotated(p, reverse))
    ensures s in Filled(p) || !Occupied(b, p.x + s.0, p.y + s.1)
  {
    if Bespoke(p.kind) {
      BespokeOntoFree(p, b, reverse, s);
    } else {
      hide Occupied;
      assert Rotated(p, reverse).cells[s.0][s.1] == TurnedAt(p, s.0, s.1, reverse);
    }
  }

  // Where an arm of an allowed rotation ends is free.
  lemma EndFree(p: Piece, b: Board, reverse: bool, e: (int, int), k: nat)
    requires Bespoke(p.kind) && CanRotate(p, b, reverse)
    requires k < |ArmsOf(p, reverse)| && To(ArmsOf(p, reverse)[k]) == e
    ensures !Occupied(b, p.x + e.0, p.y + e.1)
  {
    hide ArmsOf, Occupied;
    var arms := ArmsOf(p, reverse);
    assert !Occupied(b, p.x + arms[k].ti, p.y + arms[k].tj);
  }

  lemma TurnedShapes(p: Piece, reverse: bool)
    requires Proper(p) && Bespoke(p.kind)
    ensures Leads(Filled(p), ArmsOf(p, reverse), Filled(Rotated(p, reverse)))
  {
    var cell :| InShape(p, cell);
    BespokeStates(p);
    hide ShapeOf, ArmsOf, Leads, Filled, InShape, Proper, Rotated, EndIn;
    ShapeTurns(p, reverse, cell);
    ShapeFilled(p, cell);
    ShapeFilled(Rotated(p, reverse), cell);
    ArmsLead(p, reverse);
    KindStays(p, reverse);
  }

  lemma BespokeOntoFree(p: Piece, b: Board, reverse: bool, s: (int, int))
    requires Proper(p) && Bespoke(p.kind) && CanRotate(p, b, reverse) && s in Filled(Rotated(p, reverse))
    ensures s in Filled(p) || !Occupied(b, p.x + s.0, p.y + s.1)
  {
    hide ArmsOf, Leads, Filled, Occupied, Proper, Rotated, To, CanRotate;
    TurnedShapes(p, reverse);
    LeadsInto(Filled(p), ArmsOf(p, reverse), Filled(Rotated(p, reverse)));
    if s !in Filled(p) {
      var k :| 0 <= k < |ArmsOf(p, reverse)| && To(ArmsOf(p, reverse)[k]) == s;
      EndFree(p, b, reverse, s, k);
    }
  }

  lemma KindStays(p: Piece, reverse: bool)
    ensures Rotated(p, reverse).kind == p.kind
  { hide MoveArms, TurnedGrid, ArmsOf; }

  // The piece shifted to where it fits.
  lemma ShiftSound(m: Motion, b: Board, x: int, y: int)
    requires MotionSound(m, b) && BoardSound(b) && m.current.Some? && CanMoveTo(m.current.value, b, x, y)
    ensures var m' := m.(current := Some(m.current.value.(x := x, y := y)), x := x, y := y);
      MotionSound(m', b) && Free(m', b)
  {
    var p, q := m.current.value, m.current.value.(x := x, y := y);
    assert CanMoveTo(q, b, x, y) by { hide Occupied; }
    FitsClearOfWalls(q, b);
    assert Proper(q) by { ShiftProper(p, x, y); }
    hide Proper, BoardSound, CanMoveTo, ClearOfWalls;
  }

  lemma ShiftProper(p: Piece, x: int, y: int)
    requires Proper(p)
    ensures Proper(p.(x := x, y := y))
  {
    if Bespoke(p.kind) {
      var cell :| InShape(p, cell);
      assert InShape(p.(x := x, y := y), cell);
    }
  }

  lemma RotateSound(m: Motion, b: Board)
    requires MotionSound(m, b) && BoardSound(b) && m.current.Some?
    ensures var m' := m.(current := Some(Rotate(m.current.value, b, false)));
      MotionSound(m', b) && (Free(m, b) ==> Free(m', b))
  {
    var p := m.current.value;
    hide Rotated, CanRotate, CanMoveTo, Proper, PlainPiece, ClearOfWalls, BoardSound, Filled;
    RotationLaw(p, b, false);
    if CanRotate(p, b, false) {
      RotatedProper(p, false);
      PlainRotated(p, false);
      RotatedClear(p, b, false);
      RotatedStays(p, false);
    }
  }

  lemma RotatedStays(p: Piece, reverse: bool)
    ensures Rotated(p, reverse).x == p.x && Rotated(p, reverse).y == p.y
  { hide MoveArms, TurnedGrid, ArmsOf; }

  // A motion step: the board stands, the piece stays sound, and free if it was.
  ghost predicate MovesSoundly(g: Sim, h: Sim)
  {
    && h == g.(motion := h.motion)
    && MotionSound(h.motion, g.board) && (Free(g.motion, g.board) ==> Free(h.motion, g.board))
  }

  ghost predicate Steady(g: Sim) { BoardSound(g.board) && MotionSound(g.motion, g.board) }

  // Clocks and counters that no part of the motion's soundness mentions.
  lemma SamePiece(g: Sim, h: Sim)
    requires h == g.(motion := h.motion) && Steady(g)
    requires h.motion.current == g.motion.current && h.motion.x == g.motion.x && h.motion.y == g.motion.y
    requires (h.motion.phase == Over) == (g.motion.phase == Over) && h.motion.slideTime == g.motion.slideTime
    ensures Steady(h) && MovesSoundly(g, h)
  { hide Proper, PlainPiece, ClearOfWalls, BoardSound, CanMoveTo; }

  lemma Chain(g: Sim, h: Sim, k: Sim)
    requires Steady(g) && MovesSoundly(g, h) && MovesSoundly(h, k)
    ensures Steady(h) && Steady(k) && MovesSoundly(g, k)
  { hide MotionSound, BoardSound, Free; }

  lemma DropStepSound(g: Sim)
    requires Steady(g)
    ensures MovesSoundly(g, DropStep(g))
  {
    hide BoardSound, CanMoveTo, Proper, PlainPiece, ClearOfWalls;
    if g.motion.current.Some? {
      var y := g.motion.y + g.frame.deltaY;
      if Fits(g, g.motion.x, y) { ShiftSound(g.motion, g.board, g.motion.x, y); }
    }
  }

  lemma RotateNowSound(g: Sim)
    requires Steady(g)
    ensures MovesSoundly(g, RotateNow(g))
  {
    hide BoardSound, Proper, PlainPiece, ClearOfWalls, Rotate, CanMoveTo;
    if g.motion.current.Some? { RotateSound(g.motion, g.board); }
  }

  lemma {:induction false} HatterSound(g: Sim)
    requires Steady(g)
    ensures MovesSoundly(g, Hatter(g))
    decreases g.motion.hatterAccum
  {
    hide Steady, RotateNow, MovesSoundly;
    if g.motion.hatterAccum < 20 {
      SamePiece(g, g) by { assert Steady(g); }
    } else {
      var h := g.(motion := g.motion.(hatterAccum := g.motion.hatterAccum - 20));
      SamePiece(g, h);
      RotateNowSound(h);
      Chain(g, h, RotateNow(h));
      HatterSound(RotateNow(h));
      Chain(g, RotateNow(h), Hatter(RotateNow(h)));
    }
  }

  lemma SlickStepSound(g: Sim)
    requires Steady(g)
    ensures MovesSoundly(g, SlickStep(g))
  {
    hide BoardSound, CanMoveTo, Proper, PlainPiece, ClearOfWalls;
    if g.motion.current.Some? {
      var x := g.motion.x + if g.motion.slickDir == 0 then g.frame.leftX else g.frame.rightX;
      if Fits(g, x, g.motion.y) { ShiftSound(g.motion, g.board, x, g.motion.y); }
    }
  }

  lemma {:induction false} SlickSound(g: Sim)
    requires Steady(g)
    ensures MovesSoundly(g, Slick(g))
    decreases g.motion.slickAccum
  {
    hide Steady, SlickStep, MovesSoundly;
    if g.motion.slickAccum < 20 {
      SamePiece(g, g);
    } else {
      var h := g.(motion := g.motion.(slickAccum := g.motion.slickAccum - 20));
      SamePiece(g, h);
      SlickStepSound(h);
      Chain(g, h, SlickStep(h));
      SlickSound(SlickStep(h));
      Chain(g, SlickStep(h), Slick(SlickStep(h)));
    }
  }

  lemma TickWeaponsSound(g: Sim, dt: int)
    requires Steady(g)
    ensures MovesSoundly(g, TickWeapons(g, dt))
  {
    hide Steady, Hatter, Slick, MovesSoundly, On;
    var h0 := g.(motion := g.motion.(hatterAccum := g.motion.hatterAccum + dt));
    SamePiece(g, g);
    SamePiece(g, h0);
    HatterSound(h0);
    Chain(g, h0, Hatter(h0));
    var h := if On(g, HATTER) then Hatter(h0) else g;
    var k := h.(motion := h.motion.(slickAccum := h.motion.slickAccum + dt));
    SamePiece(h, k);
    SlickSound(k);
    Chain(h, k, Slick(k));
    Chain(g, h, Slick(k));
  }

  lemma {:induction false} FallSound(g: Sim, step: int)
    requires Steady(g) && step >= 1
    ensures MovesSoundly(g, Fall(g, step))
    decreases g.motion.dropAccum
  {
    hide Steady, DropStep, MovesSoundly;
    if g.motion.phase != Falling || g.motion.dropAccum < step {
      SamePiece(g, g);
    } else {
      var h := g.(motion := g.motion.(dropAccum := g.motion.dropAccum - step));
      SamePiece(g, h);
      DropStepSound(h);
      Chain(g, h, DropStep(h));
      FallSound(DropStep(h), step);
      Chain(g, DropStep(h), Fall(DropStep(h), step));
    }
  }

  // ----- the board through a lock -----

  lemma WornBoard(g: Sim, lines: int, i: WeaponToken)
    requires BoardSound(g.board)
    ensures BoardSound(Worn(g, lines, i).board)
  {
    hide BoardSound, RevertEffect, StreamOff;
    RevertSound(g.board, i);
  }

  lemma {:induction false} DurationsBoard(g: Sim, lines: int, i: nat)
    requires i <= MAX_WEAPONS && BoardSound(g.board)
    ensures BoardSound(TickDurations(g, lines, i).board)
    decreases MAX_WEAPONS - i
  {
    hide BoardSound, Worn;
    if i < MAX_WEAPONS {
      WornBoard(g, lines, i);
      DurationsBoard(Worn(g, lines, i), lines, i + 1);
    }
  }

  lemma EarnBoard(g: Sim, clear: LineClear)
    requires BoardSound(g.board)
    ensures BoardSound(EarnBottle(g, clear).g.board)
  {
    hide BoardSound, TickDurations, MondaleKept;
    if clear.lines > 0 {
      var c := CreditClear(g.(tally := g.tally.(lines := g.tally.lines + clear.lines)), clear.funds);
      DurationsBoard(UpdateBazaar(c.g).g, clear.lines, 0);
    }
  }

  lemma OnBoard(g: Sim, t: WeaponToken)
    requires BoardSound(g.board)
    ensures BoardSound(ApplyOn(g, t).g.board)
  {
    hide BoardSound, ApplyEffect, EarnBottle, StreamOn, SetFlag, Duration;
    EffectSound(g.board, t, g.rng);
    var e := Engage(g, t);
    EarnBoard(e.0, e.1);
  }

  lemma {:induction false} AllOnBoard(g: Sim, ts: seq<WeaponToken>)
    requires BoardSound(g.board)
    ensures BoardSound(ApplyAll(g, ts).g.board)
    decreases |ts|
  {
    hide BoardSound, ApplyOn;
    if ts != [] {
      OnBoard(g, ts[0]);
      AllOnBoard(ApplyOn(g, ts[0]).g, ts[1..]);
    }
  }

  // ----- a swapped board -----

  lemma SoundFits(c: Grid, x: int, y: int)
    requires GridSound(c, false) && InBounds(x, y)
    ensures SquareFits(c[y][x])
  { assert SquareSound(false, x, y, c[y][x]); }

  lemma SoundGridFits(c: Grid, bottle: bool)
    requires GridSound(c, bottle)
    ensures GridFits(c)
  {
    WithoutWalls(c, bottle);
    forall x, y | 0 <= x < 10 && 0 <= y < 28
      ensures SquareFits(c[y][x])
    { SoundFits(c, x, y); }
  }

  lemma SwapComesBack(s: Option<seq<int>>)
    requires SwapSound(s) && s.Some?
    ensures |s.value| == 1120 && All32Fit(s.value) && GridSound(ImportGrid(s.value), false)
  {
    var c: Grid :| GridSound(c, false) && s.value == ExportCells(c, 28);
    SoundGridFits(c, false);
    ExportFits(c, 28);
    var b := Board(c, NoFlags(), false, false, false, 0);
    GridBack(b);
    All32Is(s.value);
    hide GridSound, ExportCells, ImportGrid, Keyframes.All32;
    assert ExportBoard(b) == s.value;
  }

  lemma ForceOffBoard(g: Sim, t: WeaponToken)
    requires BoardSound(g.board)
    ensures BoardSound(ForceOff(g, t).board)
  {
    hide BoardSound, RevertEffect, StreamOff;
    RevertSound(g.board, t);
  }

  // Bottle drops with the board it stood on, so the new board needs no walls.
  lemma BottleDropped(g: Sim)
    requires GridSound(g.board.cells, false) && g.board.active == g.curses.active
    ensures BoardSound(ForceOff(g, BOTTLE).board)
  {
    hide GridSound, StreamOff, Walled;
    WalledSound(g.board.cells);
  }

  lemma InstallBoard(g: Sim)
    requires BoardSound(g.board) && SwapSound(g.curses.swap) && g.board.active == g.curses.active
    ensures BoardSound(InstallSwap(g).board)
  {
    if g.curses.swap.Some? {
      SwapComesBack(g.curses.swap);
      var h := g.(board := ImportBoard(g.board, g.curses.swap.value), curses := g.curses.(swap := None));
      hide BoardSound, GridSound, ForceOff, ImportGrid;
      BottleDropped(h);
      ForceOffBoard(ForceOff(h, BOTTLE), UPBYSIDE);
    }
  }

  // ----- a whole lock -----

  lemma FlushHealthy(g: Sim)
    requires BetweenPieces(g)
    ensures BetweenPieces(FlushPending(g).g)
  {
    hide Consistent, BoardSound, SwapSound, ApplyAll, InstallSwap, Tidy;
    var q := g.(curses := g.curses.(pending := []));
    ConsistentParts(g, q);
    AllOnConsistent(q, g.curses.pending);
    AllOnBoard(q, g.curses.pending);
    var r := ApplyAll(q, g.curses.pending).g;
    InstallConsistent(r);
    assert r.board.active == r.curses.active by { SameActive(r); }
    InstallBoard(r);
    NoSwap();
  }

  lemma NoSwap()
    ensures SwapSound(None)
  {}

  lemma SameActive(g: Sim)
    requires Consistent(g)
    ensures g.board.active == g.curses.active
  {}

  lemma LandedBoard(g: Sim)
    requires Healthy(g) && g.motion.current.Some?
    ensures BoardSound(FlushIdiot(CheckLines(Land(g.motion.current.value, g.board)).0).0)
  {
    hide Consistent, BoardSound, SwapSound, Tidy, CheckLines, Land, Proper, PlainPiece, ClearOfWalls, FlushIdiot;
    var p := g.motion.current.value;
    LandSound(p, g.board);
    CheckSound(Land(p, g.board));
    FlushedBoard(CheckLines(Land(p, g.board)).0);
  }

  lemma LockPieceBoard(g: Sim)
    requires g.motion.current.Some?
    requires BoardSound(FlushIdiot(CheckLines(Land(g.motion.current.value, g.board)).0).0)
    ensures BoardSound(LockPiece(g).g.board)
  {
    hide BoardSound, TickDurations, MondaleKept, CheckLines, Land, CanMoveTo, FlushIdiot;
    var (b, clear) := CheckLines(Land(g.motion.current.value, g.board));
    var c := CreditClear(g.(board := b, tally := g.tally.(lines := g.tally.lines + clear.lines),
                            motion := g.motion.(current := None)), clear.funds);
    var mid := c.g.(board := FlushIdiot(b).0);
    if clear.lines > 0 { DurationsBoard(UpdateBazaar(mid).g, clear.lines, 0); }
  }

  lemma LockPieceHealthy(g: Sim)
    requires Healthy(g) && g.motion.current.Some?
    ensures BetweenPieces(LockPiece(g).g)
  {
    LandedBoard(g);
    LockPieceBoard(g);
    hide Consistent, BoardSound, SwapSound, Tidy, MotionSound, LockPiece;
    LockPieceConsistent(g);
  }

  lemma FlushedBoard(b: Board)
    requires BoardSound(b)
    ensures BoardSound(FlushIdiot(b).0)
  { hide GridSound; }

  lemma CreatedPlain(m: Stream, s: Word, x: int, y: int)
    requires Live(m.keep)
    ensures var p := Create(m, s, x, y).p; Proper(p) && PlainPiece(p)
  {
    hide Pick, Choose;
    var c := Choose(m, s);
    var kind := if 1 <= c.id <= 18 then KindFromId(c.id).value else El;
    FreshProper(kind, x, y, 1);
    FreshProper(kind, x, y, Below(Next(c.rng), 6) + 1);
    hide Proper, Next;
  }

  lemma SpawnedPiece(p: Piece, b: Board, x: int, y: int)
    requires Proper(p) && PlainPiece(p) && BoardSound(b) && CanMoveTo(p, b, x, y)
    ensures var q := p.(x := x, y := y);
      Proper(q) && PlainPiece(q) && ClearOfWalls(q, b) && CanMoveTo(q, b, x, y)
  {
    ShiftProper(p, x, y);
    hide Proper, Occupied, BoardSound, ClearOfWalls, PlainCell;
    var q := p.(x := x, y := y);
    assert CanMoveTo(q, b, x, y);
    FitsClearOfWalls(q, b);
  }

  lemma SpawnMotion(g: Sim)
    requires BoardSound(g.board) && 0 <= g.motion.slideTime <= 150
    ensures MotionSound(Spawn(g).g.motion, g.board) && Free(Spawn(g).g.motion, g.board)
  {
    hide BoardSound, Create, Proper, PlainPiece, CanMoveTo, ClearOfWalls;
    CreatedPlain(g.pieces, g.rng, g.frame.defX, g.frame.defY);
    var made := Create(g.pieces, g.rng, g.frame.defX, g.frame.defY);
    var x, y := g.frame.defX - made.p.rot / 2, g.frame.defY;
    if CanMoveTo(made.p, g.board, x, y) { SpawnedPiece(made.p, g.board, x, y); }
  }

  lemma SpawnHealthy(g: Sim)
    requires BetweenPieces(g)
    ensures Healthy(Spawn(g).g) && Free(Spawn(g).g.motion, Spawn(g).g.board)
  {
    hide Consistent, SwapSound, Tidy, BoardSound, MotionSound, Free, Spawn;
    SpawnConsistent(g);
    SpawnMotion(g);
  }

  lemma HealthyParts(g: Sim, h: Sim)
    requires Healthy(g)
    requires h.curses == g.curses && h.frame == g.frame && h.pieces == g.pieces
    requires h.board == g.board && h.arsenal == g.arsenal
    requires MotionSound(h.motion, g.board)
    ensures Healthy(h)
  {
    hide Consistent, BoardSound, SwapSound, Tidy, MotionSound;
    ConsistentParts(g, h);
  }

  lemma LockHealthy(g: Sim)
    requires Healthy(g) && g.motion.current.Some?
    ensures Healthy(Lock(g).g) && Free(Lock(g).g.motion, Lock(g).g.board)
  {
    hide Healthy, BetweenPieces, LockPiece, FlushPending, Spawn, HashOf, Free;
    LockPieceHealthy(g);
    FlushHealthy(LockPiece(g).g);
    var f := FlushPending(LockPiece(g).g).g;
    SpawnHealthy(f);
    LockTail(Spawn(f).g, Lock(g).g);
  }

  lemma LockTail(s: Sim, h: Sim)
    requires Healthy(s) && Free(s.motion, s.board)
    requires h == s.(motion := s.motion.(sliding := 0), lockSeq := h.lockSeq, lockHash := h.lockHash)
    ensures Healthy(h) && Free(h.motion, h.board)
  {
    assert MotionSound(h.motion, s.board);
    hide MotionSound, Consistent, BoardSound, SwapSound, Tidy, CanMoveTo;
    HealthyParts(s, h);
  }

  // ----- the clock and the inputs -----

  lemma PlaceHealthy(g: Sim)
    requires Healthy(g)
    ensures Healthy(Place(g).g)
    ensures Free(g.motion, g.board) ==> Free(Place(g).g.motion, Place(g).g.board)
  {
    hide Consistent, BoardSound, SwapSound, Tidy, Lock, CanMoveTo, Proper, PlainPiece, ClearOfWalls;
    if g.motion.current.Some? {
      var y := g.motion.y + g.frame.deltaY;
      if Fits(g, g.motion.x, y) {
        ShiftSound(g.motion, g.board, g.motion.x, y);
        HealthyParts(g, Place(g).g);
      } else {
        LockHealthy(g);
      }
    }
  }

  lemma {:induction false} SlideHealthy(g: Sim, step: int)
    requires step >= 0 && Healthy(g)
    ensures Healthy(Slide(g, step).g)
    ensures Free(g.motion, g.board) ==> Free(Slide(g, step).g.motion, Slide(g, step).g.board)
    decreases g.motion.slideAccum
  {
    hide Healthy, Place, Free;
    if g.motion.phase == Sliding && !(step > 0 && g.motion.slideAccum < step) {
      if step == 0 {
        PlaceHealthy(g);
      } else {
        var h := g.(motion := g.motion.(slideAccum := g.motion.slideAccum - step));
        SameHealthy(g, h);
        PlaceHealthy(h);
        SlideHealthy(Place(h).g, step);
      }
    }
  }

  // Only clocks and counters of the motion changed.
  lemma SameHealthy(g: Sim, h: Sim)
    requires Healthy(g) && h == g.(motion := h.motion)
    requires h.motion.current == g.motion.current && h.motion.x == g.motion.x && h.motion.y == g.motion.y
    requires (h.motion.phase == Over) == (g.motion.phase == Over) && h.motion.slideTime == g.motion.slideTime
    ensures Healthy(h) && (Free(g.motion, g.board) == Free(h.motion, h.board))
  {
    SamePiece(g, h);
    hide MotionSound, Consistent, BoardSound, SwapSound, Tidy, CanMoveTo;
    HealthyParts(g, h);
  }

  lemma MovedHealthy(g: Sim, h: Sim)
    requires Healthy(g) && MovesSoundly(g, h)
    ensures Healthy(h) && (Free(g.motion, g.board) ==> Free(h.motion, h.board))
  {
    hide MotionSound, Consistent, BoardSound, SwapSound, Tidy, CanMoveTo;
    HealthyParts(g, h);
  }

  lemma HealthySteady(g: Sim)
    requires Healthy(g)
    ensures Steady(g)
  {}

  /** A clock tick keeps a game healthy, and its falling piece clear if it was. */
  lemma TickHealthy(g: Sim, dt: int)
    requires Healthy(g)
    ensures Healthy(Tick(g, dt).g)
    ensures Free(g.motion, g.board) ==> Free(Tick(g, dt).g.motion, Tick(g, dt).g.board)
  {
    hide Healthy, Slide, Fall, TickWeapons, MovesSoundly, Free, Steady;
    if !Halted(g) && dt > 0 {
      HealthySteady(g);
      TickWeaponsSound(g, dt);
      var w := TickWeapons(g, dt);
      MovedHealthy(g, w);
      match w.motion.phase
      case Falling =>
        var h := w.(motion := w.motion.(dropAccum := w.motion.dropAccum + dt));
        SameHealthy(w, h);
        HealthySteady(h);
        FallSound(h, Max(w.motion.dropTime, 1));
        MovedHealthy(h, Fall(h, Max(w.motion.dropTime, 1)));
      case Sliding =>
        var h := w.(motion := w.motion.(slideAccum := w.motion.slideAccum + dt));
        SameHealthy(w, h);
        SlideHealthy(h, Max(w.motion.slideTime, 0));
      case Over =>
    }
  }

  lemma MoveBySound(g: Sim, dx: int)
    requires Steady(g)
    ensures MovesSoundly(g, MoveBy(g, dx))
  {
    hide BoardSound, CanMoveTo, Proper, PlainPiece, ClearOfWalls;
    if Fits(g, g.motion.x + dx, g.motion.y) { ShiftSound(g.motion, g.board, g.motion.x + dx, g.motion.y); }
  }

  lemma SoftDropSound(g: Sim)
    requires Steady(g)
    ensures MovesSoundly(g, SoftDrop(g))
  {
    hide Steady, DropStep, MovesSoundly;
    SamePiece(g, g);
    DropStepSound(g);
    if !g.paused && !g.tally.inBazaar && g.motion.phase == Falling {
      var d := DropStep(g);
      Chain(g, d, d) by { SteadyAfter(g, d); SamePiece(d, d); }
      SamePiece(d, SoftDrop(g));
      Chain(g, d, SoftDrop(g));
    }
  }

  lemma SteadyAfter(g: Sim, h: Sim)
    requires Steady(g) && MovesSoundly(g, h)
    ensures Steady(h)
  { hide BoardSound, MotionSound; }

  lemma MotionInputHealthy(g: Sim, i: Input)
    requires Healthy(g)
    requires i.MoveLeft? || i.MoveRight? || i.RotateKey? || i.SoftDropKey?
    ensures Healthy(ApplySim(g, i).g)
    ensures Free(g.motion, g.board) ==> Free(ApplySim(g, i).g.motion, ApplySim(g, i).g.board)
  {
    hide Healthy, MovesSoundly, Steady, Free, MoveBy, SoftDrop, RotateNow;
    HealthySteady(g);
    SamePiece(g, g);
    MoveBySound(g, g.frame.leftX);
    MoveBySound(g, g.frame.rightX);
    RotateNowSound(g);
    SoftDropSound(g);
    MovedHealthy(g, ApplySim(g, i).g);
  }

  lemma BankKept(g: Sim, i: Input)
    requires Tidy(g.arsenal)
    requires i.LaunchSlot? || i.BuyIndex? || i.SellIndex? || i.GrantIn?
    ensures var h := ApplySim(g, i).g;
      Tidy(h.arsenal) && h == g.(arsenal := h.arsenal, tally := h.tally)
  {
    hide Price, On, Tidy;
    match i
    case LaunchSlot(k) => UseKeepsTidy(g.arsenal, k);
    case BuyIndex(k) => if FromIndex(k).Some? { BuyAddsPrice(g.arsenal, k); }
    case SellIndex(k) => if FromIndex(k).Some? { SellTakesPrice(g.arsenal, k); }
    case GrantIn(k) => if FromIndex(k).Some? { BuyAddsPrice(g.arsenal, k); }
  }

  // Only the bank and the scoreboard changed.
  lemma BankHealthy(g: Sim, h: Sim)
    requires Healthy(g) && h == g.(arsenal := h.arsenal, tally := h.tally) && Tidy(h.arsenal)
    ensures Healthy(h)
  {
    hide Consistent, BoardSound, SwapSound, Tidy, MotionSound;
    ConsistentParts(g, h);
  }

  lemma DropKeysHealthy(g: Sim, i: Input)
    requires Healthy(g) && (i.BeginDropKey? || i.AiDropKey?)
    ensures Healthy(ApplySim(g, i).g)
    ensures Free(g.motion, g.board) ==> Free(ApplySim(g, i).g.motion, ApplySim(g, i).g.board)
  {
    var h := ApplySim(g, i).g;
    assert h == g.(motion := h.motion, tally := h.tally);
    assert MotionSound(h.motion, g.board) by { hide Proper, PlainPiece, ClearOfWalls; }
    hide Consistent, BoardSound, SwapSound, Tidy, MotionSound, CanMoveTo, ApplySim;
    HealthyParts(g, h);
  }

  // The opponent's lines arrive: the board may rise under the piece, but never a wall.
  lemma ReceiveHealthy(g: Sim, opLines: int)
    requires Healthy(g)
    ensures Healthy(ReceiveOpLines(g, opLines).g)
    ensures !On(g, LAWYERS) && Free(g.motion, g.board) ==>
      Free(ReceiveOpLines(g, opLines).g.motion, ReceiveOpLines(g, opLines).g.board)
  {
    hide Consistent, BoardSound, SwapSound, Tidy, CanMoveTo, On;
    var n := if On(g, LAWYERS) then Max(opLines - g.tally.opLines, 0) else 0;
    InsertKeeps(g.board, g.rng, n);
    InsertsSound(g.board, g.rng, n);
    var h := ReceiveOpLines(g, opLines).g;
    assert MotionSound(h.motion, h.board) by { hide Proper, PlainPiece; }
    hide InsertLines, MotionSound;
    ConsistentParts(g, h);
  }

  /** Every recorded action keeps a game healthy. */
  lemma InputHealthy(g: Sim, i: Input)
    requires Healthy(g)
    ensures Healthy(ApplySim(g, i).g)
    ensures Free(g.motion, g.board) && !(i.OpScoreIn? && On(g, LAWYERS)) ==>
      Free(ApplySim(g, i).g.motion, ApplySim(g, i).g.board)
  {
    match i
    case MoveLeft => MotionInputHealthy(g, i);
    case MoveRight => MotionInputHealthy(g, i);
    case RotateKey => MotionInputHealthy(g, i);
    case SoftDropKey => MotionInputHealthy(g, i);
    case BeginDropKey => DropKeysHealthy(g, i);
    case AiDropKey => DropKeysHealthy(g, i);
    case OpScoreIn(_, l, _) => ReceiveHealthy(g, l);
    case LaunchSlot(_) => BankKept(g, i); BankHealthy(g, ApplySim(g, i).g);
    case BuyIndex(_) => BankKept(g, i); BankHealthy(g, ApplySim(g, i).g);
    case SellIndex(_) => BankKept(g, i); BankHealthy(g, ApplySim(g, i).g);
    case GrantIn(_) => BankKept(g, i); BankHealthy(g, ApplySim(g, i).g);
    case LeaveKey => BankHealthy(g, ApplySim(g, i).g);
    case FundsIn(_) => BankHealthy(g, ApplySim(g, i).g);
    case PauseKey(on) => HealthyParts(g, g.(paused := on));
    case WeaponIn(k) => if FromIndex(k).Some? { QueuedHealthy(g, ReceiveWeapon(g, k)); }
  }

  // Only what waits for the next lock changed.
  lemma QueuedHealthy(g: Sim, h: Sim)
    requires Healthy(g) && h == g.(curses := g.curses.(pending := h.curses.pending, swap := h.curses.swap))
    requires SwapSound(h.curses.swap)
    ensures Healthy(h)
  {
    hide Consistent, BoardSound, SwapSound, Tidy, MotionSound;
    ConsistentParts(g, h);
  }

  lemma NewHealthy(seed: Word)
    ensures Healthy(NewGame(seed).g) && Free(NewGame(seed).g.motion, NewGame(seed).g.board)
  {
    var g := Blank(Seeded(seed));
    assert BoardSound(g.board);
    assert Consistent(g);
    hide Consistent, BoardSound, Spawn, Healthy, Free;
    NoSwap();
    SpawnHealthy(g);
  }

  /** A healthy game has what the keyframe codec needs beyond the field widths. */
  lemma HealthyShapely(g: Sim)
    requires Healthy(g)
    requires g.motion.current.Some? ==>
      var p := g.motion.current.value; Fits32(p.x) && Fits32(p.y) && Fits32(p.color)
    ensures Shapely(g)
  {
    SoundGridFits(g.board.cells, Active(g.board.active, BOTTLE));
    if g.curses.swap.Some? { SwapComesBack(g.curses.swap); }
    if g.motion.current.Some? {
      var p := g.motion.current.value;
      assert PieceFits(p) by {
        hide InShape;
        assert forall i, j :: 0 <= i < 8 && 0 <= j < 8 ==> SquareFits(p.cells[i][j]);
      }
    }
    hide Consistent, GridSound, SwapSound, Tidy, GridFits, PieceFits, MotionSound;
  }
}
