/** The weapon state of a game stays consistent through every run: relaunches, overlapping
    expiries, swapped boards and the clears a bottle completes. */
module WeaponLaws {
  import opened Wrappers
  import opened Weapons
  import opened Boards
  import opened Pieces
  import opened PieceStream
  import opened Arsenals
  import opened Rng
  import opened Engine
  import opened Inputs

  // A weapon with a lifetime is on exactly while lines of it remain; a one-shot weapon
  // never has any.
  predicate Lasts(g: Sim, t: WeaponToken)
  {
    && g.curses.remaining[t] >= 0
    && (if Duration(t) == 0 then g.curses.remaining[t] == 0 else (On(g, t) <==> g.curses.remaining[t] > 0))
  }

  // The movement frame is flipped exactly while Upbyside is on.
  predicate FrameRight(g: Sim)
  {
    && g.frame.defX == 5
    && (if On(g, UPBYSIDE) then
          g.frame.defY == 24 && g.frame.deltaY == -1 && g.frame.leftX == 1 && g.frame.rightX == -1
        else
          g.frame.defY == 0 && g.frame.deltaY == 1 && g.frame.leftX == -1 && g.frame.rightX == 1)
  }

  predicate ClockRight(g: Sim)
  {
    && g.frame.baseDropTime == 512 * (if On(g, MEADOW) then 2 else 1) / (if On(g, SPEEDY) then 2 else 1)
    && g.frame.fastDropTime == 10 * (if On(g, MEADOW) then 2 else 1)
  }

  // The stream weapons that may hold this piece's weight away from its default.
  predicate Owned(f: Flags, id: int)
  {
    || (1 <= id <= 7 && Active(f, FEARED_WEIRD))
    || (id == 5 && Active(f, SO_LONG))
    || (id == 7 && Active(f, FOUR_BY_FOUR))
    || (id == 8 && Active(f, NO_DICE))
    || (10 <= id <= 16 && Active(f, FEARED_WEIRD))
    || (id == 17 && Active(f, FOUR_BY_FOUR))
  }

  predicate StreamRight(m: Stream, f: Flags)
  {
    && (forall id :: 0 <= id < 19 ==> m.keep[id] == DefaultWeight(id) || Owned(f, id))
    && (m.broken <==> Active(f, BROKEN))
    && m.hapOn >= 0 && 0 <= m.oldPiece <= 18
  }

  // Consistent but for token x, whose lines have just run out.
  ghost predicate Coherent(g: Sim, x: int)
  {
    && g.board.active == g.curses.active
    && !g.board.computer
    && (g.board.upside <==> On(g, UPBYSIDE))
    && (forall t: WeaponToken :: t != x ==> Lasts(g, t))
    && FrameRight(g) && ClockRight(g) && StreamRight(g.pieces, g.curses.active)
  }

  ghost predicate Consistent(g: Sim) { Coherent(g, -1) }

  lemma StreamOffRight(m: Stream, f: Flags, t: WeaponToken)
    requires StreamRight(m, f)
    ensures StreamRight(StreamOff(m, t), SetFlag(f, t, false))
  {}

  lemma StreamOnRight(m: Stream, f: Flags, t: WeaponToken)
    requires StreamRight(m, f)
    ensures StreamRight(StreamOn(m, t), SetFlag(f, t, true))
  {}

  lemma RevertKeeps(b: Board, t: WeaponToken)
    ensures var r := RevertEffect(b, t);
      r.active == b.active && r.computer == b.computer && r.upside == (t != UPBYSIDE && b.upside)
  { hide FlipHoriz, Walled; }

  lemma LastsAfterOff(g: Sim, h: Sim, t: WeaponToken, x: WeaponToken)
    requires h.curses.active == SetFlag(g.curses.active, x, false)
    requires h.curses.remaining == g.curses.remaining
    requires t != x ==> Lasts(g, t)
    requires g.curses.remaining[x] == 0
    ensures Lasts(h, t)
  {}

  // A weapon that was on turns off.
  lemma OffCoherent(g: Sim, x: WeaponToken)
    requires Coherent(g, x) && On(g, x) && g.curses.remaining[x] == 0
    ensures Consistent(ApplyOff(g, x))
  {
    hide RevertEffect, StreamOff, Lasts, StreamRight;
    RevertKeeps(g.board, x);
    StreamOffRight(g.pieces, g.curses.active, x);
    var h := ApplyOff(g, x);
    forall t: WeaponToken | true
      ensures Lasts(h, t)
    { LastsAfterOff(g, h, t, x); }
  }

  lemma WearOne(g: Sim, i: WeaponToken, left: int)
    requires Consistent(g) && left >= 0
    requires g.curses.remaining[i] > 0
    ensures var h := g.(curses := g.curses.(remaining := g.curses.remaining[i := left]));
      On(h, i) && Coherent(h, i) && (left > 0 ==> Consistent(h))
  {
    hide StreamRight, FrameRight, ClockRight;
    var h := g.(curses := g.curses.(remaining := g.curses.remaining[i := left]));
    assert Lasts(g, i);
    forall t: WeaponToken | true
      ensures t != i ==> Lasts(h, t)
    { assert Lasts(g, t); }
    SameFlags(g, h);
  }

  lemma SameFlags(g: Sim, h: Sim)
    requires h.curses.active == g.curses.active && h.frame == g.frame
    ensures FrameRight(h) == FrameRight(g) && ClockRight(h) == ClockRight(g)
  {}

  lemma WornConsistent(g: Sim, lines: int, i: WeaponToken)
    requires Consistent(g) && lines > 0
    ensures Consistent(Worn(g, lines, i))
  {
    LastsOf(g, i);
    if g.curses.remaining[i] != 0 {
      assert g.curses.remaining[i] > 0;
      hide Coherent, ApplyOff, Lasts, On;
      var left := Max(g.curses.remaining[i] - lines, 0);
      WearOne(g, i, left);
      if left == 0 { OffCoherent(g.(curses := g.curses.(remaining := g.curses.remaining[i := left])), i); }
    }
  }

  lemma {:induction false} DurationsConsistent(g: Sim, lines: int, i: nat)
    requires i <= MAX_WEAPONS && Consistent(g) && lines > 0
    ensures Consistent(TickDurations(g, lines, i))
    decreases MAX_WEAPONS - i
  {
    hide Consistent, Worn;
    if i < MAX_WEAPONS {
      WornConsistent(g, lines, i);
      DurationsConsistent(Worn(g, lines, i), lines, i + 1);
    }
  }

  lemma LastsOf(g: Sim, t: WeaponToken)
    requires Consistent(g)
    ensures Lasts(g, t)
  {}

  // Only these parts matter to consistency.
  lemma ConsistentParts(g: Sim, h: Sim)
    requires Consistent(g)
    requires h.curses.active == g.curses.active && h.curses.remaining == g.curses.remaining
    requires h.frame == g.frame && h.pieces == g.pieces
    requires h.board.active == g.board.active && h.board.upside == g.board.upside && h.board.computer == g.board.computer
    ensures Consistent(h)
  {
    hide StreamRight, FrameRight, ClockRight;
    SameFlags(g, h);
    forall t: WeaponToken | true
      ensures Lasts(h, t)
    { assert Lasts(g, t); }
  }

  lemma EffectKeeps(b: Board, t: WeaponToken, s: Word)
    ensures ApplyEffect(b, t, s).b.upside == (t == UPBYSIDE || b.upside)
  { hide CheckLines, PickOpen, FallOutTimes, BlindFrom, RemoveFirst, BandOpen, Below, Next; FallOutKeeps(b, 28); }

  // The flag, the lines and the board change together.
  lemma EngageLasts(g: Sim, t: WeaponToken, u: WeaponToken)
    requires Consistent(g)
    ensures Lasts(Engage(g, t).0, u)
  {
    hide ApplyEffect;
    LastsOf(g, u);
  }

  lemma EarnConsistent(g: Sim, clear: LineClear)
    requires Consistent(g)
    ensures Consistent(EarnBottle(g, clear).g)
  {
    hide TickDurations, Coherent, MondaleKept;
    if clear.lines > 0 {
      var c := CreditClear(g.(tally := g.tally.(lines := g.tally.lines + clear.lines)), clear.funds);
      var u := UpdateBazaar(c.g);
      ConsistentParts(g, u.g);
      DurationsConsistent(u.g, clear.lines, 0);
    }
  }

  // Bottle: consistent as soon as its walls stand, and through the clear they complete.
  lemma BottleOnConsistent(g: Sim)
    requires Consistent(g)
    ensures Consistent(ApplyOn(g, BOTTLE).g)
  {
    var e := Engage(g, BOTTLE);
    EffectKeeps(g.board.(active := SetFlag(g.board.active, BOTTLE, true)), BOTTLE, g.rng);
    forall t: WeaponToken | true
      ensures Lasts(e.0, t)
    { EngageLasts(g, BOTTLE, t); }
    StreamOnRight(g.pieces, g.curses.active, BOTTLE);
    hide ApplyEffect, StreamRight, Lasts, EarnBottle;
    assert StreamOn(g.pieces, BOTTLE) == g.pieces;
    assert Consistent(e.0);
    EarnConsistent(e.0, e.1);
  }

  lemma OtherOnConsistent(g: Sim, t: WeaponToken)
    requires Consistent(g) && t != BOTTLE
    ensures Consistent(ApplyOn(g, t).g)
  {
    var e := Engage(g, t);
    EffectKeeps(g.board.(active := SetFlag(g.board.active, t, true)), t, g.rng);
    StreamOnRight(g.pieces, g.curses.active, t);
    hide ApplyEffect, StreamRight, StreamOn;
    var h := ApplyOn(g, t).g;
    assert e.1 == NO_CLEAR;
    assert EarnBottle(e.0, e.1) == Step(e.0, []);
    assert h.curses == e.0.curses && h.board == e.0.board;
    forall u: WeaponToken | true
      ensures Lasts(h, u)
    { EngageLasts(g, t, u); }
    hide Lasts;
    assert FrameRight(h) && ClockRight(h);
  }

  lemma OnConsistent(g: Sim, t: WeaponToken)
    requires Consistent(g)
    ensures Consistent(ApplyOn(g, t).g)
  {
    hide Coherent, ApplyOn;
    if t == BOTTLE { BottleOnConsistent(g); } else { OtherOnConsistent(g, t); }
  }

  lemma {:induction false} AllOnConsistent(g: Sim, ts: seq<WeaponToken>)
    requires Consistent(g)
    ensures Consistent(ApplyAll(g, ts).g)
    decreases |ts|
  {
    hide Coherent, ApplyOn;
    if ts != [] {
      OnConsistent(g, ts[0]);
      AllOnConsistent(ApplyOn(g, ts[0]).g, ts[1..]);
    }
  }

  lemma ForceOffConsistent(g: Sim, t: WeaponToken)
    requires Consistent(g) && Duration(t) > 0
    ensures Consistent(ForceOff(g, t))
  {
    hide RevertEffect, StreamOff, StreamRight, FrameRight, ClockRight;
    LastsOf(g, t);
    var h := g.(curses := g.curses.(remaining := g.curses.remaining[t := 0]));
    if On(g, t) {
      WearOne(g, t, 0);
      OffCoherent(h, t);
      assert ForceOff(g, t) == ApplyOff(h, t);
    } else {
      assert g.curses.remaining[t := 0] == g.curses.remaining;
      assert ForceOff(g, t) == g;
    }
  }

  lemma InstallConsistent(g: Sim)
    requires Consistent(g)
    ensures Consistent(InstallSwap(g))
  {
    hide Coherent, ForceOff, ImportGrid;
    if g.curses.swap.Some? {
      var h := g.(board := ImportBoard(g.board, g.curses.swap.value), curses := g.curses.(swap := None));
      ConsistentParts(g, h);
      ForceOffConsistent(h, BOTTLE);
      ForceOffConsistent(ForceOff(h, BOTTLE), UPBYSIDE);
    }
  }

  lemma LandKeeps(p: Piece, b: Board)
    ensures var r := Land(p, b); r.active == b.active && r.upside == b.upside && r.computer == b.computer
  { hide BadMove, LandedGrid; }

  lemma LockPieceConsistent(g: Sim)
    requires Consistent(g) && g.motion.current.Some?
    ensures Consistent(LockPiece(g).g)
  {
    hide TickDurations, Coherent, MondaleKept, CheckLines, Land, CanMoveTo;
    var p := g.motion.current.value;
    LandKeeps(p, g.board);
    var (b, clear) := CheckLines(Land(p, g.board));
    var c := CreditClear(g.(board := b, tally := g.tally.(lines := g.tally.lines + clear.lines),
                            motion := g.motion.(current := None)), clear.funds);
    var (b', why) := FlushIdiot(b);
    var mid := c.g.(board := b');
    ConsistentParts(g, mid);
    if clear.lines > 0 {
      ConsistentParts(mid, UpdateBazaar(mid).g);
      DurationsConsistent(UpdateBazaar(mid).g, clear.lines, 0);
    }
  }

  lemma ChooseKeeps(m: Stream, s: Word, f: Flags)
    requires Live(m.keep) && StreamRight(m, f)
    ensures StreamRight(Choose(m, s).m, f) && 1 <= Choose(m, s).id <= 18
  { hide Pick; }

  lemma SpawnConsistent(g: Sim)
    requires Consistent(g)
    ensures Consistent(Spawn(g).g)
  {
    hide CanMoveTo, Choose;
    ChooseKeeps(g.pieces, g.rng, g.curses.active);
    var made := Create(g.pieces, g.rng, g.frame.defX, g.frame.defY);
    assert StreamRight(made.m, g.curses.active);
    hide StreamRight, Create;
    var h := Spawn(g).g;
    SameFlags(g, h);
    assert forall t: WeaponToken :: Lasts(g, t) ==> Lasts(h, t);
  }

  lemma LockConsistent(g: Sim)
    requires Consistent(g) && g.motion.current.Some?
    ensures Consistent(Lock(g).g)
  {
    hide Coherent, LockPiece, ApplyAll, InstallSwap, Spawn, HashOf;
    var l := LockPiece(g).g;
    LockPieceConsistent(g);
    var q := l.(curses := l.curses.(pending := []));
    ConsistentParts(l, q);
    AllOnConsistent(q, l.curses.pending);
    InstallConsistent(ApplyAll(q, l.curses.pending).g);
    var f := FlushPending(l).g;
    SpawnConsistent(f);
    ConsistentParts(Spawn(f).g, Lock(g).g);
  }

  lemma PlaceConsistent(g: Sim)
    requires Consistent(g)
    ensures Consistent(Place(g).g)
  {
    hide Coherent, Lock, Fits;
    if g.motion.current.Some? && !Fits(g, g.motion.x, g.motion.y + g.frame.deltaY) {
      LockConsistent(g);
    } else {
      ConsistentParts(g, Place(g).g);
    }
  }

  lemma {:induction false} SlideConsistent(g: Sim, step: int)
    requires step >= 0 && Consistent(g)
    ensures Consistent(Slide(g, step).g)
    decreases g.motion.slideAccum
  {
    hide Coherent, Place;
    if g.motion.phase != Sliding || (step > 0 && g.motion.slideAccum < step) {
    } else if step == 0 {
      PlaceConsistent(g);
    } else {
      var h := g.(motion := g.motion.(slideAccum := g.motion.slideAccum - step));
      ConsistentParts(g, h);
      PlaceConsistent(h);
      SlideConsistent(Place(h).g, step);
    }
  }

  lemma TickConsistent(g: Sim, dt: int)
    requires Consistent(g)
    ensures Consistent(Tick(g, dt).g)
  {
    hide Coherent, Slide, Fall, TickWeapons;
    if !Halted(g) && dt > 0 {
      var w := TickWeapons(g, dt);
      ConsistentParts(g, w);
      if w.motion.phase == Sliding {
        var h := w.(motion := w.motion.(slideAccum := w.motion.slideAccum + dt));
        ConsistentParts(w, h);
        SlideConsistent(h, Max(w.motion.slideTime, 0));
      } else {
        ConsistentParts(w, Tick(g, dt).g);
      }
    }
  }

  // Inputs and the other player's effects reach none of the weapon state directly.
  lemma InputConsistent(g: Sim, i: Input)
    requires Consistent(g)
    ensures Consistent(ApplySim(g, i).g)
  {
    hide Coherent, Fits, RotateNow, Buy, Sell, UseSlot, Price, On, DropStep, InsertLines;
    if i.OpScoreIn? { InsertKeeps(g.board, g.rng, if On(g, LAWYERS) then Max(i.lines - g.tally.opLines, 0) else 0); }
    ConsistentParts(g, ApplySim(g, i).g);
  }

  lemma {:induction false} InsertKeeps(b: Board, s: Word, n: nat)
    ensures var r := InsertLines(b, s, n).0;
      r.active == b.active && r.upside == b.upside && r.computer == b.computer
    decreases n
  {
    hide Inserted;
    if n > 0 { InsertKeeps(InsertLine(b, s).0, InsertLine(b, s).1, n - 1); }
  }

  lemma NewConsistent(seed: Word)
    ensures Consistent(NewGame(seed).g)
  {
    var g := Blank(Seeded(seed));
    assert Consistent(g);
    hide Coherent, Spawn;
    SpawnConsistent(g);
  }

  /** Once every stream weapon is off again, the keep table is exactly the default one,
      however they overlapped. */
  lemma StreamRecovers(g: Sim)
    requires Consistent(g)
    requires !On(g, FEARED_WEIRD) && !On(g, FOUR_BY_FOUR) && !On(g, NO_DICE) && !On(g, SO_LONG) && !On(g, BROKEN)
    ensures g.pieces.keep == DefaultTable() && !g.pieces.broken
  {
    assert forall id :: 0 <= id < 19 ==> !Owned(g.curses.active, id);
  }
}
