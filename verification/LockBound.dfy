/** A spawned piece locks within a fixed amount of unfrozen, unpaused time, whatever the player
    does and whatever happens to the board meanwhile. */
module LockBound {
  import opened Wrappers
  import opened Weapons
  import opened Rng
  import opened Boards
  import opened Pieces
  import opened PieceStream
  import opened Arsenals
  import opened Engine
  import opened Inputs
  import opened PieceLaws
  import PredictionLaws
  import WeaponLaws
  import HealthLaws

  // ----- the measure -----

  // drop bounds the live gravity interval, gap the length of one tick.
  datatype Bounds = Bounds(drop: int, gap: int)
  {
    predicate Valid() { drop >= 1 && gap >= 1 }
  }

  const SLIDE: int := 150

  function RowsLeft(g: Sim): int
  { if g.frame.deltaY == 1 then 36 - g.motion.y else g.motion.y + 15 }

  // Milliseconds to go: each row costs at most one drop and one slide interval, each with
  // one tick's remainder lost; pressing the hard drop may discard the time banked once.
  function TimeLeft(g: Sim, k: Bounds): int
  {
    var d, s := k.drop + k.gap, SLIDE + k.gap;
    RowsLeft(g) * (d + s)
    + (if g.motion.phase == Sliding then s - g.motion.slideAccum else d - g.motion.dropAccum + s)
    + (if g.motion.dropTime != g.frame.fastDropTime then d else 0)
  }

  // A piece in play, its clocks within their intervals.
  ghost predicate InPlay(g: Sim, k: Bounds)
  {
    && k.Valid() && (g.frame.deltaY == 1 || g.frame.deltaY == -1)
    && g.motion.current.Some? && g.motion.phase != Over
    && (var p := g.motion.current.value; Proper(p) && Filled(p) != {} && p.y == g.motion.y)
    && -15 <= g.motion.y <= 36
    && g.motion.dropTime <= k.drop && g.frame.fastDropTime <= k.drop && g.motion.slideTime <= SLIDE
    && (g.motion.phase == Falling ==> 0 <= g.motion.dropAccum <= k.drop)
    && (g.motion.phase == Sliding ==> 0 <= g.motion.slideAccum <= SLIDE)
  }

  lemma TimeLeftBounds(g: Sim, k: Bounds)
    requires InPlay(g, k)
    ensures 0 <= TimeLeft(g, k) <= 51 * (k.drop + SLIDE + 2 * k.gap) + 2 * (k.drop + k.gap) + SLIDE + k.gap
  {
    hide Proper, Filled;
    var c := k.drop + k.gap + (SLIDE + k.gap);
    assert RowsLeft(g) <= 51;
    MulUpTo(RowsLeft(g), 51, c);
  }

  lemma MulUpTo(r: int, n: int, c: int)
    requires 0 <= r <= n && c >= 0
    ensures 0 <= r * c <= n * c
  {}

  // ----- falling -----

  // A piece with a square fits only between the outermost rows FallOut opens.
  lemma FitsInRange(p: Piece, b: Board, x: int, y: int)
    requires Filled(p) != {} && CanMoveTo(p, b, x, y)
    ensures -15 <= y <= 36
  {
    var s :| s in Filled(p);
    assert p.cells[s.0][s.1].Some?;
    assert !Occupied(b, x + s.0, y + s.1);
  }

  // The piece went down one row.
  predicate Descended(g: Sim, h: Sim)
  { h.motion.y == g.motion.y + g.frame.deltaY && h.frame == g.frame }

  lemma DescendTime(g: Sim, h: Sim, k: Bounds)
    requires InPlay(g, k) && Descended(g, h)
    ensures RowsLeft(h) == RowsLeft(g) - 1
    ensures RowsLeft(h) * (k.drop + k.gap + (SLIDE + k.gap)) + (k.drop + k.gap + (SLIDE + k.gap))
      == RowsLeft(g) * (k.drop + k.gap + (SLIDE + k.gap))
  { hide Proper, Filled; OneLess(RowsLeft(g), k.drop + k.gap + (SLIDE + k.gap)); }

  lemma OneLess(r: int, c: int)
    ensures (r - 1) * c + c == r * c
  {}

  lemma ShiftedInPlay(g: Sim, h: Sim, k: Bounds)
    requires InPlay(g, k) && Fits(g, h.motion.x, h.motion.y)
    requires h == g.(motion := h.motion)
    requires h.motion.current == Some(g.motion.current.value.(x := h.motion.x, y := h.motion.y))
    requires h.motion.phase != Over && h.motion.dropTime == g.motion.dropTime && h.motion.slideTime == g.motion.slideTime
    requires h.motion.phase == Falling && 0 <= h.motion.dropAccum <= k.drop
    ensures InPlay(h, k)
  {
    var p := g.motion.current.value;
    FitsInRange(p, g.board, h.motion.x, h.motion.y);
    HealthLaws.ShiftProper(p, h.motion.x, h.motion.y);
    assert Filled(h.motion.current.value) == Filled(p);
    hide Proper, Filled, CanMoveTo;
  }

  // One drop step with the interval just taken from the banked time.
  lemma DropStepTime(g: Sim, k: Bounds)
    requires InPlay(g, k) && g.motion.phase == Falling
    ensures var h := DropStep(g);
      && InPlay(h, k) && h.frame == g.frame && h.motion.dropTime == g.motion.dropTime
      && (h.motion.phase == Falling ==> Descended(g, h) && h.motion.dropAccum == g.motion.dropAccum)
      && (h.motion.phase != Falling ==>
            h.motion.phase == Sliding && h.motion.y == g.motion.y && h.motion.slideAccum == 0)
  {
    hide Proper, Filled, CanMoveTo;
    var y := g.motion.y + g.frame.deltaY;
    if Fits(g, g.motion.x, y) { ShiftedInPlay(g, DropStep(g), k); }
  }

  // Banked time beyond the interval is let through by the loop, so it is stated aside.
  ghost predicate Banked(g: Sim, k: Bounds)
  { g.motion.dropAccum >= 0 && InPlay(g.(motion := g.motion.(dropAccum := 0)), k) }

  function DropEvery(g: Sim): int { Max(g.motion.dropTime, 1) }

  // One round of the loop of drop steps, from the time banked.
  lemma FallOnce(g: Sim, k: Bounds)
    requires Banked(g, k) && g.motion.phase == Falling && g.motion.dropAccum >= DropEvery(g)
    ensures var h := DropStep(g.(motion := g.motion.(dropAccum := g.motion.dropAccum - DropEvery(g))));
      && h.frame == g.frame && h.motion.dropTime == g.motion.dropTime
      && h.motion.dropAccum == g.motion.dropAccum - DropEvery(g)
      && (h.motion.phase == Falling ==> Banked(h, k) && TimeLeft(h, k) <= TimeLeft(g, k))
      && (h.motion.phase != Falling ==>
            InPlay(h, k) && TimeLeft(h, k) + k.drop + k.gap <= TimeLeft(g, k) + g.motion.dropAccum)
  {
    hide Proper, Filled, DropStep;
    var g0 := g.(motion := g.motion.(dropAccum := 0));
    var h0 := DropStep(g0);
    DropStepTime(g0, k);
    DropStepKeepsBank(g0, g.motion.dropAccum - DropEvery(g));
    if h0.motion.phase == Falling { DescendTime(g0, h0, k); }
  }

  // The whole loop.
  lemma {:induction false} FallTime(g: Sim, k: Bounds)
    requires Banked(g, k) && g.motion.phase == Falling
    ensures var h := Fall(g, DropEvery(g));
      && InPlay(h, k) && h.frame == g.frame && h.motion.dropTime == g.motion.dropTime
      && (h.motion.phase == Falling ==> TimeLeft(h, k) <= TimeLeft(g, k))
      && (h.motion.phase != Falling ==> TimeLeft(h, k) + k.drop + k.gap <= TimeLeft(g, k) + g.motion.dropAccum)
    decreases g.motion.dropAccum
  {
    hide Banked, InPlay, TimeLeft, DropStep;
    if g.motion.dropAccum >= DropEvery(g) {
      FallOnce(g, k);
      var h := DropStep(g.(motion := g.motion.(dropAccum := g.motion.dropAccum - DropEvery(g))));
      if h.motion.phase == Falling { FallTime(h, k); } else { FallDone(h, DropEvery(g)); }
    } else {
      FallWaits(g, k);
    }
  }

  lemma FallWaits(g: Sim, k: Bounds)
    requires Banked(g, k) && g.motion.phase == Falling && g.motion.dropAccum < DropEvery(g)
    ensures Fall(g, DropEvery(g)) == g && InPlay(g, k)
  { hide Proper, Filled; }

  lemma FallDone(g: Sim, step: int)
    requires step >= 1 && g.motion.phase != Falling
    ensures Fall(g, step) == g
  {}

  lemma DropStepKeepsBank(g: Sim, bank: int)
    ensures DropStep(g.(motion := g.motion.(dropAccum := bank)))
      == DropStep(g).(motion := DropStep(g).motion.(dropAccum := bank))
  { hide CanMoveTo; }

  // ----- one tick -----

  // A part of a tick: the piece is in play still, and the time it has left went down.
  ghost predicate Spent(g: Sim, h: Sim, k: Bounds, dt: int)
  {
    && InPlay(h, k) && h.frame == g.frame && h.lockSeq == g.lockSeq && TimeLeft(h, k) <= TimeLeft(g, k) - dt
  }

  // Turns and sideways moves cost nothing.
  lemma SidewaysFree(g: Sim, h: Sim, k: Bounds)
    requires InPlay(g, k) && h == g.(motion := h.motion)
    requires h.motion == g.motion.(current := h.motion.current, x := h.motion.x, sliding := h.motion.sliding,
                                   hatterAccum := h.motion.hatterAccum, slickAccum := h.motion.slickAccum,
                                     slickDir := h.motion.slickDir)
    requires h.motion.current.Some?
    requires var p := h.motion.current.value; Proper(p) && Filled(p) != {} && p.y == h.motion.y
    ensures Spent(g, h, k, 0)
  { hide Proper, Filled; }

  lemma TurnedHasSquares(p: Piece, b: Board)
    requires Proper(p) && Filled(p) != {}
    ensures var q := Rotate(p, b, false); Proper(q) && Filled(q) != {} && q.y == p.y
  {
    hide Proper, Filled, Rotated, CanRotate;
    CountConserved(p, false);
    RotatedProper(p, false);
    HealthLaws.RotatedStays(p, false);
  }

  lemma RotateNowFree(g: Sim, k: Bounds)
    requires InPlay(g, k)
    ensures Spent(g, RotateNow(g), k, 0)
  {
    hide Proper, Filled, Rotate;
    TurnedHasSquares(g.motion.current.value, g.board);
    SidewaysFree(g, RotateNow(g), k);
  }

  lemma MoveFree(g: Sim, x: int, k: Bounds)
    requires InPlay(g, k)
    ensures Spent(g, ShiftTo(g, x, g.motion.y), k, 0)
  {
    var p := g.motion.current.value;
    HealthLaws.ShiftProper(p, x, g.motion.y);
    assert Filled(p.(x := x, y := g.motion.y)) == Filled(p);
    hide Proper, Filled;
    SidewaysFree(g, ShiftTo(g, x, g.motion.y), k);
  }

  lemma SpentThen(g: Sim, h: Sim, m: Sim, k: Bounds, d: int, e: int)
    requires Spent(g, h, k, d) && Spent(h, m, k, e)
    ensures Spent(g, m, k, d + e)
  { hide InPlay, TimeLeft; }

  lemma {:induction false} HatterFree(g: Sim, k: Bounds)
    requires InPlay(g, k)
    ensures Spent(g, Hatter(g), k, 0)
    decreases g.motion.hatterAccum
  {
    hide Proper, Filled, RotateNow;
    if g.motion.hatterAccum >= 20 {
      var h := g.(motion := g.motion.(hatterAccum := g.motion.hatterAccum - 20));
      SidewaysFree(g, h, k);
      hide InPlay, TimeLeft;
      RotateNowFree(h, k);
      SpentThen(g, h, RotateNow(h), k, 0, 0);
      HatterFree(RotateNow(h), k);
      SpentThen(g, RotateNow(h), Hatter(RotateNow(h)), k, 0, 0);
    }
  }

  lemma SlickStepFree(g: Sim, k: Bounds)
    requires InPlay(g, k)
    ensures Spent(g, SlickStep(g), k, 0)
  {
    hide Proper, Filled, CanMoveTo;
    var x := g.motion.x + if g.motion.slickDir == 0 then g.frame.leftX else g.frame.rightX;
    if Fits(g, x, g.motion.y) { MoveFree(g, x, k); } else { SidewaysFree(g, SlickStep(g), k); }
  }

  lemma {:induction false} SlickFree(g: Sim, k: Bounds)
    requires InPlay(g, k)
    ensures Spent(g, Slick(g), k, 0)
    decreases g.motion.slickAccum
  {
    hide Proper, Filled, SlickStep;
    if g.motion.slickAccum >= 20 {
      var h := g.(motion := g.motion.(slickAccum := g.motion.slickAccum - 20));
      SidewaysFree(g, h, k);
      hide InPlay, TimeLeft;
      SlickStepFree(h, k);
      SpentThen(g, h, SlickStep(h), k, 0, 0);
      SlickFree(SlickStep(h), k);
      SpentThen(g, SlickStep(h), Slick(SlickStep(h)), k, 0, 0);
    }
  }

  lemma TickWeaponsFree(g: Sim, dt: int, k: Bounds)
    requires InPlay(g, k)
    ensures Spent(g, TickWeapons(g, dt), k, 0)
  {
    hide Proper, Filled, Hatter, Slick, On;
    var h0 := g.(motion := g.motion.(hatterAccum := g.motion.hatterAccum + dt));
    SidewaysFree(g, h0, k);
    SidewaysFree(g, g, k);
    HatterFree(h0, k);
    SpentThen(g, h0, Hatter(h0), k, 0, 0);
    var h := if On(g, HATTER) then Hatter(h0) else g;
    var m := h.(motion := h.motion.(slickAccum := h.motion.slickAccum + dt));
    SidewaysFree(h, m, k);
    SlickFree(m, k);
    SpentThen(h, m, Slick(m), k, 0, 0);
    SpentThen(g, h, Slick(m), k, 0, 0);
    hide InPlay, TimeLeft;
  }

  lemma FallingTick(g: Sim, dt: int, k: Bounds)
    requires InPlay(g, k) && g.motion.phase == Falling && 0 < dt <= k.gap
    ensures Spent(g, Fall(g.(motion := g.motion.(dropAccum := g.motion.dropAccum + dt)), Max(g.motion.dropTime, 1)),
      k, dt)
  {
    hide Proper, Filled, Fall;
    FallTime(g.(motion := g.motion.(dropAccum := g.motion.dropAccum + dt)), k);
  }

  // The slide runs on, or the piece falls on one row, or it locks.
  lemma SlidingTick(g: Sim, dt: int, k: Bounds)
    requires InPlay(g, k) && g.motion.phase == Sliding && 0 < dt <= k.gap
    ensures var h := Slide(g.(motion := g.motion.(slideAccum := g.motion.slideAccum + dt)), Max(g.motion.slideTime, 0)).g;
      h.lockSeq != g.lockSeq || Spent(g, h, k, dt)
  {
    hide Proper, Filled, CanMoveTo, Lock, Slide;
    var step := Max(g.motion.slideTime, 0);
    var g1 := g.(motion := g.motion.(slideAccum := g.motion.slideAccum + dt));
    SlideOnce(g1, step);
    if !(step > 0 && g1.motion.slideAccum < step) {
      var g2 := if step == 0 then g1 else g1.(motion := g1.motion.(slideAccum := g1.motion.slideAccum - step));
      var y := g.motion.y + g.frame.deltaY;
      if Fits(g2, g.motion.x, y) {
        var h := Place(g2).g;
        assert Fits(g, h.motion.x, h.motion.y);
        DescendTime(g, h, k);
        PlacedInPlay(g, h, k);
      } else {
        PredictionLaws.LockAdvances(g2);
      }
    }
  }

  lemma PlacedInPlay(g: Sim, h: Sim, k: Bounds)
    requires InPlay(g, k) && Fits(g, h.motion.x, h.motion.y) && h == g.(motion := h.motion)
    requires h.motion.current == Some(g.motion.current.value.(x := h.motion.x, y := h.motion.y))
    requires h.motion.phase == Falling && h.motion.dropTime == g.motion.dropTime
    requires h.motion.slideTime == g.motion.slideTime
    requires h.motion.dropAccum == 0
    ensures InPlay(h, k)
  { ShiftedInPlay(g, h, k); }

  // The slide loop makes one round at most.
  lemma SlideOnce(g: Sim, step: int)
    requires step >= 0 && g.motion.phase == Sliding && g.motion.current.Some?
    ensures step > 0 && g.motion.slideAccum < step ==> Slide(g, step).g == g
    ensures !(step > 0 && g.motion.slideAccum < step) ==>
      Slide(g, step).g == Place(if step == 0 then g else g.(motion := g.motion.(slideAccum := g.motion.slideAccum - step))).g
  {
    hide Place;
    if step > 0 && g.motion.slideAccum >= step {
      var h := Place(g.(motion := g.motion.(slideAccum := g.motion.slideAccum - step))).g;
      assert h.motion.phase != Sliding;
      assert Slide(h, step).g == h;
    }
  }

  predicate Counts(g: Sim, dt: int) { !Halted(g) && dt > 0 }

  lemma TickTime(g: Sim, dt: int, k: Bounds)
    requires InPlay(g, k) && dt <= k.gap
    ensures var h := Tick(g, dt).g;
      h.lockSeq != g.lockSeq || Spent(g, h, k, if Counts(g, dt) then dt else 0)
  {
    hide Proper, Filled, TickWeapons, Fall, Slide;
    SidewaysFree(g, g, k);
    if Counts(g, dt) {
      TickWeaponsFree(g, dt, k);
      var w := TickWeapons(g, dt);
      if w.motion.phase == Falling { FallingTick(w, dt, k); } else { SlidingTick(w, dt, k); }
      hide InPlay, TimeLeft;
    }
  }

  // ----- the player and the rest of the match -----

  lemma SoftDropTime(g: Sim, k: Bounds)
    requires InPlay(g, k)
    ensures Spent(g, SoftDrop(g), k, 0)
  {
    hide Proper, Filled, DropStep;
    SidewaysFree(g, g, k);
    if !g.paused && !g.tally.inBazaar && g.motion.phase == Falling {
      DropStepTime(g, k);
      var d := DropStep(g);
      if d.motion.phase == Falling { DescendTime(g, d, k); }
    }
  }

  lemma FastDropTime(g: Sim, k: Bounds)
    requires InPlay(g, k)
    ensures Spent(g, FastDrop(g), k, 0)
  { hide Proper, Filled; }

  // A change that leaves the piece, its clocks and the lock counter alone, whatever it does
  // to the board, the weapons, the bank and the scoreboard.
  predicate Elsewhere(g: Sim, h: Sim) { h.motion == g.motion && h.frame == g.frame && h.lockSeq == g.lockSeq }

  lemma ElsewhereTime(g: Sim, h: Sim, k: Bounds)
    requires InPlay(g, k) && Elsewhere(g, h)
    ensures Spent(g, h, k, 0)
  { hide Proper, Filled; }

  lemma InputTime(g: Sim, i: Input, k: Bounds)
    requires InPlay(g, k)
    ensures Spent(g, ApplySim(g, i).g, k, 0)
  {
    hide Proper, Filled, Rotate, DropStep, Buy, Sell, UseSlot, Price, On, InsertLines, CanMoveTo;
    match i
    case MoveLeft => SidewaysFree(g, g, k); MoveByTime(g, g.frame.leftX, k);
    case MoveRight => SidewaysFree(g, g, k); MoveByTime(g, g.frame.rightX, k);
    case RotateKey => SidewaysFree(g, g, k); RotateNowFree(g, k);
    case SoftDropKey => SoftDropTime(g, k);
    case BeginDropKey => DropKeyTime(g, ApplySim(g, i).g, k);
    case AiDropKey => DropKeyTime(g, ApplySim(g, i).g, k);
    case _ => ElsewhereTime(g, ApplySim(g, i).g, k);
  }

  lemma MoveByTime(g: Sim, dx: int, k: Bounds)
    requires InPlay(g, k)
    ensures Spent(g, MoveBy(g, dx), k, 0)
  {
    hide Proper, Filled, CanMoveTo;
    SidewaysFree(g, g, k);
    if Fits(g, g.motion.x + dx, g.motion.y) {
      var h := ShiftTo(g, g.motion.x + dx, g.motion.y);
      MoveFree(g, g.motion.x + dx, k);
      SidewaysFree(h, h.(motion := h.motion.(sliding := if g.motion.sliding != 0 then g.motion.sliding + 1 else 0)), k);
      hide InPlay, TimeLeft;
    }
  }

  lemma DropKeyTime(g: Sim, h: Sim, k: Bounds)
    requires InPlay(g, k) && (h == BeginDrop(g) || h == AiBeginDrop(g))
    ensures Spent(g, h, k, 0)
  {
    hide Proper, Filled;
    FastDropTime(g, k);
    ElsewhereTime(FastDrop(g), h, k);
    hide InPlay, TimeLeft;
  }

  // ----- a whole run -----

  datatype Beat = Clock(dt: int) | Key(input: Input) | Outside(to: Sim)

  function Beaten(g: Sim, b: Beat): Sim
  {
    match b
    case Clock(dt) => Tick(g, dt).g
    case Key(i) => ApplySim(g, i).g
    case Outside(h) => if Elsewhere(g, h) then h else g
  }

  // Unfrozen, unpaused time.
  function ActiveTime(g: Sim, bs: seq<Beat>): int
    decreases |bs|
  {
    if bs == [] then 0
    else
      (if bs[0].Clock? && Counts(g, bs[0].dt) then bs[0].dt else 0) + ActiveTime(Beaten(g, bs[0]), bs[1..])
  }

  predicate ShortTicks(bs: seq<Beat>, gap: int)
  { forall b :: b in bs && b.Clock? ==> b.dt <= gap }

  // No lock happens along the way.
  predicate Unlocked(g: Sim, bs: seq<Beat>)
    decreases |bs|
  { bs == [] || (Beaten(g, bs[0]).lockSeq == g.lockSeq && Unlocked(Beaten(g, bs[0]), bs[1..])) }

  lemma {:induction false} TimeRunsOut(g: Sim, bs: seq<Beat>, k: Bounds)
    requires InPlay(g, k) && ShortTicks(bs, k.gap) && Unlocked(g, bs)
    ensures ActiveTime(g, bs) <= TimeLeft(g, k)
    decreases |bs|
  {
    hide InPlay, TimeLeft, Beaten;
    TimeLeftBounds(g, k);
    if bs != [] {
      var b, h := bs[0], Beaten(g, bs[0]);
      BeatTime(g, b, k);
      assert forall c :: c in bs[1..] ==> c in bs;
      TimeRunsOut(h, bs[1..], k);
    }
  }

  lemma BeatTime(g: Sim, b: Beat, k: Bounds)
    requires InPlay(g, k) && (b.Clock? ==> b.dt <= k.gap) && Beaten(g, b).lockSeq == g.lockSeq
    ensures InPlay(Beaten(g, b), k)
    ensures TimeLeft(Beaten(g, b), k) <= TimeLeft(g, k) - if b.Clock? && Counts(g, b.dt) then b.dt else 0
  {
    hide InPlay, TimeLeft, Tick, ApplySim, Counts;
    match b
    case Clock(dt) => TickTime(g, dt, k);
    case Key(i) => InputTime(g, i, k);
    case Outside(h) => if Elsewhere(g, h) { ElsewhereTime(g, h, k); }
  }

  // ----- the bound -----

  // 1024 ms is the slowest gravity interval, Meadow's.
  const SLOWEST: int := 1024

  function LockTime(gap: int): int { 51 * (SLOWEST + SLIDE + 2 * gap) + 2 * (SLOWEST + gap) + SLIDE + gap }

  lemma FreshHasSquares(k: PieceKind, pips: int)
    ensures Filled(Construct(k, 0, 0, pips)) != {}
  {
    var p := Construct(k, 0, 0, pips);
    if Shape(k, 1, 1) { assert (1, 1) in Filled(p); }
    else if Shape(k, 1, 0) { assert (1, 0) in Filled(p); }
    else if Shape(k, 2, 0) { assert (2, 0) in Filled(p); }
    else { assert Shape(k, 0, 1) || Shape(k, 0, 0); assert (0, 1) in Filled(p) || (0, 0) in Filled(p); }
  }

  lemma SpawnedInPlay(g: Sim, gap: int)
    requires HealthLaws.BetweenPieces(g) && gap >= 1 && Spawn(g).g.motion.phase != Over
    ensures InPlay(Spawn(g).g, Bounds(SLOWEST, gap))
  {
    hide Proper, CanMoveTo, Create, Boards.Occupied;
    HealthLaws.SpawnHealthy(g);
    WeaponLaws.SpawnConsistent(g);
    CreatedHasSquares(g.pieces, g.rng, g.frame.defX, g.frame.defY);
    var h := Spawn(g).g;
    var made := Create(g.pieces, g.rng, g.frame.defX, g.frame.defY);
    var x, y := g.frame.defX - made.p.rot / 2, g.frame.defY;
    assert Filled(made.p.(x := x, y := y)) == Filled(made.p);
    hide Filled;
    FitsInRange(made.p, g.board, x, y);
    ClockInRange(g);
  }

  lemma CreatedHasSquares(m: Stream, s: Word, x: int, y: int)
    requires Live(m.keep)
    ensures Filled(Create(m, s, x, y).p) != {}
  {
    hide Choose;
    var c := Choose(m, s);
    var kind := if 1 <= c.id <= 18 then KindFromId(c.id).value else El;
    var pips := if kind == DieKind then Rng.Below(Next(c.rng), 6) + 1 else 1;
    FreshHasSquares(kind, pips);
    assert Filled(Construct(kind, x, y, pips)) == Filled(Construct(kind, 0, 0, pips));
  }

  lemma ClockInRange(g: Sim)
    requires WeaponLaws.Consistent(g)
    ensures 256 <= g.frame.baseDropTime <= SLOWEST && g.frame.fastDropTime <= 20
    ensures g.frame.deltaY == 1 || g.frame.deltaY == -1
  {}

  /** Bounded lock: from the moment a piece is spawned, no sequence of ticks, moves, turns,
      soft and hard drops, with any weapon in force and with anything at all happening to
      the board, keeps it from locking for longer than a fixed amount of unfrozen time. */
  lemma BoundedLock(g: Sim, bs: seq<Beat>, gap: int)
    requires HealthLaws.BetweenPieces(g) && Spawn(g).g.motion.phase != Over
    requires gap >= 1 && ShortTicks(bs, gap) && Unlocked(Spawn(g).g, bs)
    ensures ActiveTime(Spawn(g).g, bs) <= LockTime(gap)
  {
    hide InPlay, TimeLeft, Unlocked, ActiveTime, Spawn;
    var k := Bounds(SLOWEST, gap);
    SpawnedInPlay(g, gap);
    TimeLeftBounds(Spawn(g).g, k);
    TimeRunsOut(Spawn(g).g, bs, k);
  }
}
