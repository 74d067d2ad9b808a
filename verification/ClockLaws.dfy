/** What the clock and the keys do to the falling piece, and what a lock makes of the board
    (rust/bt-core/src/game.rs:352-666, 1401-1442). */
module ClockLaws {
  import opened Wrappers
  import opened Weapons
  import opened Boards
  import opened Pieces
  import opened PieceStream
  import opened Rng
  import opened Arsenals
  import opened Engine
  import opened Inputs
  import LineLaws
  import ResultLaws
  import WeaponLaws

  // The row k rows further on the piece's way.
  function RowOn(g: Sim, k: int): int { g.motion.y + k * g.frame.deltaY }

  predicate FreeFor(g: Sim, k: nat) { forall i :: 1 <= i <= k ==> Fits(g, g.motion.x, RowOn(g, i)) }

  // The same game with its piece k rows further on and its drop clock at rest.
  function Moved(g: Sim, k: nat, rest: int): Sim
    requires g.motion.current.Some?
  {
    var h := if k == 0 then g else ShiftTo(g, g.motion.x, RowOn(g, k));
    h.(motion := h.motion.(dropAccum := rest))
  }

  // ----- falling -----

  lemma FallStep(g: Sim, step: int)
    requires step >= 1 && g.motion.phase == Falling && g.motion.current.Some? && g.motion.dropAccum >= step
    ensures Fits(g, g.motion.x, RowOn(g, 1)) ==>
      Fall(g, step) == Fall(Moved(g, 1, g.motion.dropAccum - step), step)
    ensures !Fits(g, g.motion.x, RowOn(g, 1)) ==>
      Fall(g, step) == StartSlide(Moved(g, 0, g.motion.dropAccum - step))
  { hide CanMoveTo, On; }

  lemma FallRests(g: Sim, step: int)
    requires step >= 1 && g.motion.dropAccum < step
    ensures Fall(g, step) == g
  {}

  lemma SameWay(g: Sim, rest: int, k: nat)
    requires g.motion.current.Some?
    ensures var h := Moved(g, 1, rest);
      && RowOn(h, k) == RowOn(g, k + 1) && h.motion.current.Some?
      && (Fits(h, h.motion.x, RowOn(h, k)) <==> Fits(g, g.motion.x, RowOn(g, k + 1)))
  {}

  lemma MovedTwice(g: Sim, k: nat, rest: int, last: int)
    requires g.motion.current.Some?
    ensures Moved(Moved(g, 1, rest), k, last) == Moved(g, k + 1, last)
  { assert RowOn(g, k + 1) == RowOn(g, 1) + k * g.frame.deltaY; }

  lemma {:induction false} FallsFreely(g: Sim, step: int, k: nat)
    requires step >= 1 && g.motion.phase == Falling && g.motion.current.Some? && FreeFor(g, k)
    requires g.motion.dropAccum >= k * step
    ensures Fall(g, step) == Fall(Moved(g, k, g.motion.dropAccum - k * step), step)
    decreases k
  {
    hide Fall, Fits;
    if k > 0 {
      var rest := g.motion.dropAccum - step;
      assert k * step == (k - 1) * step + step && (k - 1) * step >= 0;
      assert Fits(g, g.motion.x, RowOn(g, 1));
      FallStep(g, step);
      var h := Moved(g, 1, rest);
      forall i | 1 <= i <= k - 1
        ensures Fits(h, h.motion.x, RowOn(h, i))
      { SameWay(g, rest, i); }
      FallsFreely(h, step, k - 1);
      MovedTwice(g, k - 1, rest, rest - (k - 1) * step);
    } else {
      assert Moved(g, 0, g.motion.dropAccum) == g;
    }
  }

  predicate NoSpin(g: Sim) { !On(g, HATTER) && !On(g, SLICK) }

  lemma NothingSpins(g: Sim, dt: int)
    requires NoSpin(g)
    ensures TickWeapons(g, dt) == g
  {}

  /** Gravity: a piece left alone comes down by one row for each drop interval that has passed,
      for as long as the row is free, and what is left of the time is kept; at the first row that
      is not free it begins its slide, 150 long or, with No Slide, none. */
  lemma FallsWithTime(g: Sim, dt: int, k: nat)
    requires NoSpin(g) && !Halted(g) && dt > 0 && g.motion.phase == Falling && g.motion.current.Some?
    requires g.motion.dropAccum >= 0 && FreeFor(g, k) && k * Max(g.motion.dropTime, 1) <= g.motion.dropAccum + dt
    ensures var rest := g.motion.dropAccum + dt - k * Max(g.motion.dropTime, 1);
      if rest < Max(g.motion.dropTime, 1) then Tick(g, dt) == Step(Moved(g, k, rest), [])
      else !Fits(g, g.motion.x, RowOn(g, k + 1)) ==>
        Tick(g, dt) == Step(StartSlide(Moved(g, k, rest - Max(g.motion.dropTime, 1))), [])
  {
    hide Fits, Fall, StartSlide;
    NothingSpins(g, dt);
    var step, total := Max(g.motion.dropTime, 1), g.motion.dropAccum + dt;
    var w := g.(motion := g.motion.(dropAccum := total));
    assert Tick(g, dt) == Step(Fall(w, step), []);
    SameFits(g, w, k);
    FallsFreely(w, step, k);
    var rest := total - k * step;
    var m := Moved(w, k, rest);
    assert m == Moved(g, k, rest);
    if rest < step {
      FallRests(m, step);
    } else if !Fits(g, g.motion.x, RowOn(g, k + 1)) {
      RowsOn(w, k, rest);
      FallStep(m, step);
      assert Moved(m, 0, rest - step) == Moved(g, k, rest - step);
    }
  }

  lemma SameFits(g: Sim, w: Sim, k: nat)
    requires w == g.(motion := g.motion.(dropAccum := w.motion.dropAccum)) && FreeFor(g, k)
    ensures FreeFor(w, k) && (Fits(w, w.motion.x, RowOn(w, k + 1)) <==> Fits(g, g.motion.x, RowOn(g, k + 1)))
  {
    forall i | 1 <= i <= k
      ensures Fits(w, w.motion.x, RowOn(w, i))
    { assert Fits(g, g.motion.x, RowOn(g, i)); }
  }

  lemma RowsOn(g: Sim, k: nat, rest: int)
    requires g.motion.current.Some? && g.motion.phase == Falling
    ensures var m := Moved(g, k, rest);
      && m.motion.phase == Falling && m.motion.current.Some? && m.motion.dropAccum == rest
      && (Fits(m, m.motion.x, RowOn(m, 1)) <==> Fits(g, g.motion.x, RowOn(g, k + 1)))
  { assert RowOn(g, k) + g.frame.deltaY == RowOn(g, k + 1); }

  // ----- sliding -----

  predicate Due(g: Sim, dt: int) { g.motion.slideTime <= 0 || g.motion.slideAccum + dt >= g.motion.slideTime }

  /** The slide: the piece stays until its time is up, and is then locked, or, if it has been
      moved over a gap, falls on. */
  lemma SlidesWithTime(g: Sim, dt: int)
    requires !On(g, HATTER) && !Halted(g) && dt > 0 && g.motion.phase == Sliding && g.motion.current.Some?
    ensures var r := Tick(g, dt);
      var open := Fits(g, g.motion.x, RowOn(g, 1));
      && (!Due(g, dt) ==> r == Step(g.(motion := g.motion.(slideAccum := g.motion.slideAccum + dt)), []))
      && (Due(g, dt) && open ==>
            && r.ev == [] && r.g == g.(motion := r.g.motion) && r.g.motion.phase == Falling
            && r.g.motion.y == RowOn(g, 1) && r.g.motion.x == g.motion.x
            && r.g.motion.dropAccum == 0 && r.g.motion.sliding == 0)
      && (Due(g, dt) && !open ==>
            exists left: int :: r == Lock(g.(motion := g.motion.(slideAccum := left))))
  {
    hide Lock, Fits;
    var w := g.(motion := g.motion.(slideAccum := g.motion.slideAccum + dt));
    var step := Max(g.motion.slideTime, 0);
    assert TickWeapons(g, dt) == g;
    assert Tick(g, dt) == Slide(w, step);
    if Due(g, dt) {
      var m := if step == 0 then w else w.(motion := w.motion.(slideAccum := w.motion.slideAccum - step));
      PlaceOf(g, m);
      hide Place;
      if step > 0 { ResultLaws.SlideRests(Place(m).g, step); }
      assert Tick(g, dt) == Place(m);
      assert m == g.(motion := g.motion.(slideAccum := m.motion.slideAccum));
    }
  }

  lemma PlaceOf(g: Sim, m: Sim)
    requires g.motion.current.Some? && m == g.(motion := g.motion.(slideAccum := m.motion.slideAccum))
    ensures var r := Place(m);
      if Fits(g, g.motion.x, RowOn(g, 1)) then
        && r.ev == [] && r.g == g.(motion := r.g.motion) && r.g.motion.phase == Falling
        && r.g.motion.y == RowOn(g, 1) && r.g.motion.x == g.motion.x
        && r.g.motion.dropAccum == 0 && r.g.motion.sliding == 0
      else r == Lock(m)
  { hide Lock, CanMoveTo; }

  // ----- the keys -----

  // The piece one column over, a lock delay counting the move.
  function Shoved(g: Sim, dx: int): Sim
    requires g.motion.current.Some?
  {
    var h := ShiftTo(g, g.motion.x + dx, g.motion.y);
    h.(motion := h.motion.(sliding := if g.motion.sliding != 0 then g.motion.sliding + 1 else 0))
  }

  /** The keys: left is left and right is right, and the other way about on a board turned over;
      a move that does not fit, or in a paused or finished game, does nothing. */
  lemma KeysShove(g: Sim)
    requires WeaponLaws.FrameRight(g)
    ensures var to := if On(g, UPBYSIDE) then 1 else -1;
      var live := !g.paused && g.motion.phase != Over;
      && ApplySim(g, MoveLeft) ==
           Step(if live && Fits(g, g.motion.x + to, g.motion.y) then Shoved(g, to) else g, [])
      && ApplySim(g, MoveRight) ==
           Step(if live && Fits(g, g.motion.x - to, g.motion.y) then Shoved(g, -to) else g, [])
  { hide CanMoveTo; }

  /** Gravity pulls down, and up on a board turned over. */
  lemma WayDown(g: Sim, k: int)
    requires WeaponLaws.FrameRight(g)
    ensures RowOn(g, k) == if On(g, UPBYSIDE) then g.motion.y - k else g.motion.y + k
  {}

  /** A key drop takes one row, or begins the slide, and starts the interval over. */
  lemma KeyDrops(g: Sim)
    requires g.motion.current.Some?
    ensures var h := ApplySim(g, SoftDropKey).g;
      if Halted(g) || g.motion.phase != Falling then h == g
      else if Fits(g, g.motion.x, RowOn(g, 1)) then h == Moved(g, 1, 0)
      else h == StartSlide(Moved(g, 0, 0))
  { hide CanMoveTo; }

  /** A hard drop pays by the rows above the floor, once, and runs the drop clock at its fast
      interval; the computer's pays 14. */
  lemma HardDropPays(g: Sim)
    ensures var h, c := ApplySim(g, BeginDropKey).g, ApplySim(g, AiDropKey).g;
      var starts := !Halted(g) && g.motion.dropTime != g.frame.fastDropTime;
      && h.tally.score == g.tally.score + (if starts then 28 - g.motion.y else 0)
      && c.tally.score == g.tally.score + (if starts then 14 else 0)
      && h.motion == c.motion && h.motion.current == g.motion.current && h.board == g.board
      && (if Halted(g) then h == g else h.motion.dropping && h.motion.dropTime == g.frame.fastDropTime)
      && ApplySim(h, BeginDropKey).g.tally.score == h.tally.score
  {}

  /** A launch takes one weapon out of its slot and announces it, outside the bazaar and before
      the end; from an empty slot nothing is launched. */
  lemma LaunchTakesOne(g: Sim, k: nat)
    requires Tidy(g.arsenal)
    ensures var r := ApplySim(g, LaunchSlot(k));
      if k < 10 && g.arsenal.rep[k].Some? && !g.tally.inBazaar && g.motion.phase != Over then
        && r.ev == [WeaponLaunched(g.arsenal.rep[k].value)] && r.g == g.(arsenal := r.g.arsenal)
        && r.g.arsenal.quantity == g.arsenal.quantity[k := g.arsenal.quantity[k] - 1]
        && r.g.arsenal.rep == g.arsenal.rep[k := if g.arsenal.quantity[k] > 1 then g.arsenal.rep[k] else None]
      else r == Step(g, [])
  {}

  // ----- a quarter turn -----

  /** The rotation key turns a piece against the clock: where the turn fits, what stood in the top
      row of its frame stands in the left column, and its place on the board is kept. */
  lemma QuarterTurn(p: Piece, b: Board, i: nat, j: nat)
    requires !Bespoke(p.kind) && i < p.rot && j < p.rot && CanRotate(p, b, false)
    ensures var q := Rotate(p, b, false);
      && q.cells[j][p.rot - 1 - i] == p.cells[i][j] && q.x == p.x && q.y == p.y
  {}

  // ----- pieces that move by themselves -----

  // A piece after n turns on the spot.
  function Spun(p: Piece, b: Board, n: nat): Piece
    decreases n
  { if n == 0 then p else Spun(Rotate(p, b, false), b, n - 1) }

  lemma {:induction false} SpinsOn(g: Sim, n: nat, rest: nat)
    requires g.motion.current.Some? && g.motion.hatterAccum == 20 * n + rest && rest < 20
    ensures Hatter(g) ==
      g.(motion := g.motion.(current := Some(Spun(g.motion.current.value, g.board, n)), hatterAccum := rest))
    decreases n
  {
    hide Rotate;
    if n > 0 {
      var h := RotateNow(g.(motion := g.motion.(hatterAccum := g.motion.hatterAccum - 20)));
      SpinsOn(h, n - 1, rest);
    }
  }

  /** The Mad Hatter turns the piece once every 20, whatever else it does, and keeps the rest of
      the time; nobody else does. */
  lemma HatterSpins(g: Sim, dt: nat)
    requires g.motion.current.Some? && g.motion.hatterAccum >= 0 && !On(g, SLICK)
    ensures var h, total := TickWeapons(g, dt), g.motion.hatterAccum + dt;
      h == if !On(g, HATTER) then g else
        g.(motion := g.motion.(current := Some(Spun(g.motion.current.value, g.board, total / 20)),
                               hatterAccum := total % 20))
  {
    hide Hatter, Spun;
    if On(g, HATTER) {
      var total := g.motion.hatterAccum + dt;
      SpinsOn(g.(motion := g.motion.(hatterAccum := total)), total / 20, total % 20);
    }
  }

  /** On a Slick board a falling piece glides one column every 20, to the left at first, and turns
      about where it cannot go on. */
  lemma SlickGlides(g: Sim, dt: nat)
    requires g.motion.current.Some? && On(g, SLICK) && !On(g, HATTER) && WeaponLaws.FrameRight(g)
    requires !On(g, UPBYSIDE) && g.motion.phase == Falling && !g.motion.dropping
    requires 20 <= g.motion.slickAccum + dt < 40
    ensures var h, to := TickWeapons(g, dt), if g.motion.slickDir == 0 then -1 else 1;
      var w := g.(motion := g.motion.(slickAccum := g.motion.slickAccum + dt - 20));
      h == if Fits(g, g.motion.x + to, g.motion.y) then ShiftTo(w, g.motion.x + to, g.motion.y)
           else w.(motion := w.motion.(slickDir := if g.motion.slickDir == 0 then 1 else 0))
  {
    hide CanMoveTo;
    var w := g.(motion := g.motion.(slickAccum := g.motion.slickAccum + dt));
    var s := SlickStep(w.(motion := w.motion.(slickAccum := w.motion.slickAccum - 20)));
    assert Slick(w) == Slick(s) && Slick(s) == s;
  }

  // ----- a new piece -----

  /** The next piece is of the kind chosen, upright and untouched, in the middle of the row the
      board begins with, falling at the board's own pace, a die with its pips drawn; where it does
      not fit the game ends. */
  lemma SpawnStands(g: Sim)
    requires WeaponLaws.FrameRight(g)
    ensures var r, c := Spawn(g), Choose(g.pieces, g.rng);
      var kind := KindFromId(if 1 <= c.id <= 18 then c.id else 1).value;
      var x, y := 5 - KindRot(kind) / 2, if On(g, UPBYSIDE) then 24 else 0;
      var die := kind == DieKind;
      var p := Construct(kind, x, y, if die then Below(Next(c.rng), 6) + 1 else 1);
      && r.g.pieces == c.m && r.g.motion.x == x && r.g.motion.y == y
      && r.g.rng == (if die then Next(c.rng) else c.rng)
      && (if CanMoveTo(p, g.board, x, y) then
            r.ev == [] && r.g.motion.current == Some(p) && r.g.motion.phase == Falling
            && r.g.motion.dropTime == g.frame.baseDropTime && !r.g.motion.dropping && r.g.motion.dropAccum == 0
          else r.ev == [GameOver] && r.g.motion.current.None? && r.g.motion.phase == Over)
  {
    hide Choose, Next, Below, KindFromId, ShapeGrid;
    var made := Create(g.pieces, g.rng, g.frame.defX, g.frame.defY);
    var c := Choose(g.pieces, g.rng);
    var kind := KindFromId(if 1 <= c.id <= 18 then c.id else 1).value;
    var pips := if kind == DieKind then Below(Next(c.rng), 6) + 1 else 1;
    var x, y := 5 - KindRot(kind) / 2, if On(g, UPBYSIDE) then 24 else 0;
    var p := Construct(kind, x, y, pips);
    assert made.p.cells == p.cells && made.p.rot == KindRot(kind) && made.p.(x := x, y := y) == p;
    assert CanMoveTo(made.p, g.board, x, y) == CanMoveTo(p, g.board, x, y);
    hide CanMoveTo, Construct, Create;
    assert Spawn(g).g.motion.x == x && Spawn(g).g.motion.y == y;
  }

  // ----- a plain lock -----

  // No weapon is wearing down, waiting or changing what a clear pays.
  predicate Plainly(g: Sim)
  {
    && g.curses.remaining == NoDurations() && g.curses.pending == [] && g.curses.swap.None?
    && !On(g, MONDALE) && !Active(g.board.active, FORCE) && !Active(g.board.active, BOTTLE)
  }

  lemma {:induction false} NothingWears(g: Sim, lines: int, i: nat)
    requires i <= MAX_WEAPONS && g.curses.remaining == NoDurations()
    ensures TickDurations(g, lines, i) == g
    decreases MAX_WEAPONS - i
  { if i < MAX_WEAPONS { NothingWears(g, lines, i + 1); } }

  /** A lock with no weapons about: the piece lands, the full rows go and pay their values once
      per line, the lines are counted and the total announced, and nothing else of the player's
      changes but the generator, the stream and the next piece. */
  lemma LockLands(g: Sim)
    requires g.motion.current.Some? && Plainly(g)
    ensures var landed := LandedGrid(g.motion.current.value, g.board.cells);
      var lines := LineLaws.FullCount(landed);
      var h := Lock(g).g;
      && h.board.cells == (if Upright(g.board) then LineLaws.PackedDown(landed) else LineLaws.PackedUp(landed))
      && h.tally.lines == g.tally.lines + lines
      && h.tally.funds == g.tally.funds + (if lines == 0 then 0 else LineLaws.FullValue(landed) * lines)
      && h.tally.score == g.tally.score && h.curses == g.curses && h.arsenal == g.arsenal && h.frame == g.frame
      && (exists e :: e in Lock(g).ev && e.Locked? && e.lines == lines && e.funds == h.tally.funds - g.tally.funds)
  {
    hide Land, CheckLines, LineLaws.PackedDown, LineLaws.PackedUp, LineLaws.FullValue, LineLaws.FullCount, Count,
      FullRow, Lock, Active, LandedGrid;
    var p := g.motion.current.value;
    LandIs(p, g.board);
    var b := Land(p, g.board);
    assert Upright(b) == Upright(g.board);
    LineLaws.CheckLinesFilters(b);
    LockOf(g);
  }

  lemma LandIs(p: Piece, b: Board)
    ensures Land(p, b) == b.(cells := LandedGrid(p, b.cells), idiot := Land(p, b).idiot, reason := Land(p, b).reason)
  { hide BadMove, LandedGrid; }

  lemma LockOf(g: Sim)
    requires g.motion.current.Some? && Plainly(g)
    ensures var (b, clear) := CheckLines(Land(g.motion.current.value, g.board));
      var h := Lock(g).g;
      && h.board.cells == b.cells && h.tally.lines == g.tally.lines + clear.lines
      && h.tally.funds == g.tally.funds + clear.funds && h.tally.score == g.tally.score
      && h.curses == g.curses && h.arsenal == g.arsenal && h.frame == g.frame
      && Locked(clear.lines, clear.value, clear.funds) in Lock(g).ev
  {
    hide Land, CheckLines, Spawn, HashOf, TickDurations, CanMoveTo;
    LandedOf(g);
    hide LockPiece;
    var l := LockPiece(g).g;
    assert FlushPending(l).g == l;
  }

  lemma LandedOf(g: Sim)
    requires g.motion.current.Some? && Plainly(g)
    ensures var (b, clear) := CheckLines(Land(g.motion.current.value, g.board));
      var h := LockPiece(g).g;
      && h.board.cells == b.cells && h.tally.lines == g.tally.lines + clear.lines
      && h.tally.funds == g.tally.funds + clear.funds && h.tally.score == g.tally.score
      && h.curses == g.curses && h.frame == g.frame
      && Locked(clear.lines, clear.value, clear.funds) in LockPiece(g).ev
  {
    hide Land, CheckLines, TickDurations, CanMoveTo;
    var (b, clear) := CheckLines(Land(g.motion.current.value, g.board));
    var c := CreditClear(g.(board := b, tally := g.tally.(lines := g.tally.lines + clear.lines),
                            motion := g.motion.(current := None)), clear.funds);
    var g' := c.g.(board := FlushIdiot(b).0);
    NothingWears(UpdateBazaar(g').g, clear.lines, 0);
  }
}
