/** What a launch does to the two games (rust/bt-core/src/versus.rs:77-191), and that what it
    queues arrives at the target's next lock (rust/bt-core/src/game.rs:684-695, 1374-1387). */
module RelayLaws {
  import opened Wrappers
  import opened Weapons
  import opened Boards
  import opened Pieces
  import opened PieceStream
  import opened Arsenals
  import opened Engine
  import opened Inputs
  import opened VersusMatch
  import opened BoutLog
  import opened GameRuns
  import opened KeyframeLaws
  import EffectLaws
  import ResultLaws

  // ----- at the launch -----

  // A game after a launch: its queue, its waiting board, its arsenal and its funds, and nothing
  // else, may have changed.
  predicate OnlyOwed(g: Sim, h: Sim)
  {
    h == g.(curses := g.curses.(pending := h.curses.pending, swap := h.curses.swap), arsenal := h.arsenal,
            tally := g.tally.(funds := h.tally.funds))
  }

  /** An uncursed launcher's weapon reaches the other side, exchanges go both ways, and Keating
      pays what the victim has; a mirror-cursed launcher's own weapon comes back to it, or is
      lost. Spying touches neither game. */
  lemma LaunchHits(att: Player, vic: Player, t: WeaponToken)
    ensures var r := RelayOne(att, vic, WeaponLaunched(t));
      var a, v, cursed := r.att.g, r.vic.g, On(att.g, MIRROR);
      && OnlyOwed(att.g, a) && OnlyOwed(vic.g, v)
      && v.curses.pending == vic.g.curses.pending
           + (if cursed || t in {SWAP, SUSAN, AMES, ACE, CONDOR} then [] else [t])
      && a.curses.pending == att.g.curses.pending
           + (if cursed && !MirrorNullifies(t) then [t] else [])
      && a.arsenal == (if t == SUSAN && !cursed then vic.g.arsenal else att.g.arsenal)
      && v.arsenal == (if t == SUSAN && !cursed then att.g.arsenal else vic.g.arsenal)
      && a.tally.funds == att.g.tally.funds + (if t == KEATING && !cursed then vic.g.tally.funds else 0)
      && v.tally.funds == vic.g.tally.funds
      && a.curses.swap == (if t == SWAP && !cursed then Some(ExportBoard(vic.g.board)) else att.g.curses.swap)
      && v.curses.swap == (if t == SWAP && !cursed then Some(ExportBoard(att.g.board)) else vic.g.curses.swap)
      && r.spies == (if !cursed && t in {AMES, ACE, CONDOR} then [t] else [])
  { hide ExportBoard, On; }

  /** The other totals: a side's score, lines and funds are shown to the other, whose client is
      told all but the funds; a stolen tax is paid to the other. */
  lemma TotalsTell(att: Player, vic: Player, score: int, lines: int, funds: int, tax: int)
    ensures var r := RelayOne(att, vic, Scored(score, lines, funds));
      && r.att == att && r.vic.opScore == score && r.vic.opFunds == funds && r.vic.g.tally.opLines == lines
      && r.vicOut == [RelayOpScore(score, lines)] && r.attOut == []
    ensures var r := RelayOne(att, vic, FundsStolen(tax));
      && r.att == att && r.vic.g == vic.g.(tally := vic.g.tally.(funds := vic.g.tally.funds + tax))
      && r.vicOut == [RelayFunds(tax)] && r.attOut == []
  { hide InsertLines, On; }

  // ----- the exchanged board -----

  // The board as it was at launch, turned over if Upbyside ends with the exchange, without what
  // stood beside the bottle's neck if Bottle does.
  ghost predicate Exchanged(c: Grid, d: Grid, bottle: bool, over: bool)
  {
    forall x, y :: InBounds(x, y) ==>
      var row := if over then 27 - y else y;
      d[y][x] == if bottle && 10 <= row <= 17 && (x <= 2 || x >= 7) then None else c[row][x]
  }

  lemma ExportedBack(b: Board)
    requires GridFits(b.cells)
    ensures ImportGrid(ExportBoard(b)) == b.cells
  {
    ExportFits(b.cells, 28);
    GridBack(b);
    hide ExportCells, ImportGrid;
    All32Is(ExportBoard(b));
  }

  lemma TurnedOff(g: Sim, t: WeaponToken)
    ensures var h := ForceOff(g, t);
      && h.board.cells == (if On(g, t) then RevertEffect(g.board, t).cells else g.board.cells)
      && h.board.computer == g.board.computer
      && (forall u: WeaponToken :: On(h, u) == (On(g, u) && u != t))
  { hide StreamOff, Walled, FlipHoriz; }

  lemma TurnedOver(b: Board)
    ensures var d := RevertEffect(b, UPBYSIDE);
      forall x, y :: InBounds(x, y) ==> d.cells[y][x] == b.cells[if b.computer then y else 27 - y][x]
  {}

  lemma Installs(g: Sim, b: Board)
    requires GridFits(b.cells) && g.curses.swap == Some(ExportBoard(b))
    ensures Exchanged(b.cells, InstallSwap(g).board.cells, On(g, BOTTLE), On(g, UPBYSIDE) && !g.board.computer)
    ensures !On(InstallSwap(g), BOTTLE) && !On(InstallSwap(g), UPBYSIDE)
  {
    ExportedBack(b);
    var h := g.(board := ImportBoard(g.board, g.curses.swap.value), curses := g.curses.(swap := None));
    hide ForceOff, ExportBoard, ImportGrid, GridFits, Exchanged;
    assert h.board.cells == b.cells && forall u: WeaponToken :: On(h, u) == On(g, u);
    TurnedOff(h, BOTTLE);
    TurnedOff(ForceOff(h, BOTTLE), UPBYSIDE);
    Uncovered(h);
  }

  lemma Uncovered(h: Sim)
    ensures Exchanged(h.board.cells, ForceOff(ForceOff(h, BOTTLE), UPBYSIDE).board.cells, On(h, BOTTLE),
      On(h, UPBYSIDE) && !h.board.computer)
  {
    var k := ForceOff(h, BOTTLE);
    TurnedOff(h, BOTTLE);
    TurnedOff(k, UPBYSIDE);
    EffectLaws.WallsComeAndGo(h.board);
    TurnedOver(k.board);
    hide ForceOff, RevertEffect, On;
  }

  // ----- weapons go off in a lock -----

  // Wearing down turns weapons off and never on.
  predicate Fewer(f: Flags, h: Flags) { forall t: WeaponToken :: Active(h, t) ==> Active(f, t) }

  lemma {:induction false} WearsOff(g: Sim, lines: int, i: nat)
    requires i <= MAX_WEAPONS
    ensures Fewer(g.curses.active, TickDurations(g, lines, i).curses.active)
    decreases MAX_WEAPONS - i
  {
    if i < MAX_WEAPONS {
      assert Fewer(g.curses.active, Worn(g, lines, i).curses.active) by { hide RevertEffect, StreamOff; }
      hide Worn;
      WearsOff(Worn(g, lines, i), lines, i + 1);
    }
  }

  lemma CountWearsOff(g: Sim, lines: int)
    ensures Fewer(g.curses.active, CountLines(g, lines).g.curses.active)
  {
    hide TickDurations, Fewer;
    WearsOff(UpdateBazaar(g).g, lines, 0);
  }

  lemma LandingWearsOff(g: Sim)
    requires g.motion.current.Some?
    ensures Fewer(g.curses.active, LockPiece(g).g.curses.active)
  {
    hide Land, CheckLines, CountLines, MondaleKept, CanMoveTo, FlushIdiot, Fewer;
    var (b, clear) := CheckLines(Land(g.motion.current.value, g.board));
    var c := CreditClear(g.(board := b, tally := g.tally.(lines := g.tally.lines + clear.lines),
                            motion := g.motion.(current := None)), clear.funds);
    var g' := c.g.(board := FlushIdiot(b).0);
    CountWearsOff(g', clear.lines);
    assert LockPiece(g).g == if clear.lines > 0 then CountLines(g', clear.lines).g else g';
    FewerSelf(g.curses.active);
  }

  lemma FewerSelf(f: Flags)
    ensures Fewer(f, f)
  {}

  // After ts nothing is in force but what was and what ts turned on.
  lemma {:induction false} OnlyThese(g: Sim, ts: seq<WeaponToken>)
    ensures forall t: WeaponToken :: On(ApplyAll(g, ts).g, t) ==> On(g, t) || t in ts
    decreases |ts|
  {
    if ts != [] {
      OnlyThis(g, ts[0]);
      hide ApplyOn;
      OnlyThese(ApplyOn(g, ts[0]).g, ts[1..]);
    }
  }

  lemma OnlyThis(g: Sim, t: WeaponToken)
    ensures forall u: WeaponToken :: On(ApplyOn(g, t).g, u) ==> On(g, u) || u == t
  {
    var e := Engage(g, t);
    assert forall u: WeaponToken :: On(e.0, u) ==> On(g, u) || u == t by { hide ApplyEffect, Duration; }
    EarningWearsOff(e.0, e.1);
    hide Engage, EarnBottle, StreamOn;
  }

  lemma EarningWearsOff(g: Sim, clear: LineClear)
    ensures Fewer(g.curses.active, EarnBottle(g, clear).g.curses.active)
  {
    hide CountLines, MondaleKept;
    forall m: Sim, n: int
      ensures Fewer(m.curses.active, CountLines(m, n).g.curses.active)
    { CountWearsOff(m, n); }
  }

  // ----- the next lock -----

  // No flipped or bottled board is about to be exchanged.
  predicate Level(g: Sim)
  { !On(g, BOTTLE) && !On(g, UPBYSIDE) && BOTTLE !in g.curses.pending && UPBYSIDE !in g.curses.pending }

  // h is g after a lock at which the board c arrived.
  ghost predicate Landed(c: Grid, g: Sim, h: Sim)
  {
    && h.lockSeq == g.lockSeq + 1 && h.curses.swap.None? && h.curses.pending == []
    && !On(h, BOTTLE) && !On(h, UPBYSIDE)
    && (exists bottle, over :: Exchanged(c, h.board.cells, bottle, over))
    && (Level(g) ==> h.board.cells == c)
  }

  lemma PlainExchange(c: Grid, d: Grid)
    requires Exchanged(c, d, false, false)
    ensures d == c
  {
    forall y | 0 <= y < 28
      ensures d[y] == c[y]
    { assert forall x :: 0 <= x < 10 ==> d[y][x] == c[y][x]; }
  }

  lemma LockInstalls(g: Sim, b: Board)
    requires g.motion.current.Some? && GridFits(b.cells) && g.curses.swap == Some(ExportBoard(b))
    ensures Landed(b.cells, g, Lock(g).g)
  {
    hide GridFits, ExportBoard, LockPiece, ApplyAll, InstallSwap, HashOf, Exchanged, Spawn;
    var l := LockPiece(g).g;
    LandingWearsOff(g);
    var q := l.(curses := l.curses.(pending := []));
    OnlyThese(q, l.curses.pending);
    var w := ApplyAll(q, l.curses.pending).g;
    Installs(w, b);
    var k := Lock(g).g;
    assert k.board == InstallSwap(w).board && k.curses == InstallSwap(w).curses;
    var bottle, over := On(w, BOTTLE), On(w, UPBYSIDE) && !w.board.computer;
    assert Exchanged(b.cells, k.board.cells, bottle, over);
    if Level(g) {
      assert !On(q, BOTTLE) && !On(q, UPBYSIDE);
      PlainExchange(b.cells, k.board.cells);
    }
  }

  // ----- a tick locks at most once, and ends there -----

  // Either no lock, or exactly that of the same game with its piece somewhere.
  ghost predicate LocksOnce(g: Sim, r: Step)
  {
    || (r.g.lockSeq == g.lockSeq && r.g.curses == g.curses && r.ev == [])
    || exists m: Motion :: m.current.Some? && r == Lock(g.(motion := m))
  }

  lemma PlaceLocks(g: Sim)
    ensures LocksOnce(g, Place(g))
  {
    hide Lock, Fits;
    if g.motion.current.Some? && Place(g) == Lock(g) { assert Place(g) == Lock(g.(motion := g.motion)); }
  }

  lemma LockCounts(g: Sim)
    requires g.motion.current.Some?
    ensures Lock(g).g.lockSeq == g.lockSeq + 1 && Lock(g).g.curses.swap.None? && Lock(g).g.curses.pending == []
  { hide HashOf, LockPiece, Spawn, ApplyAll, InstallSwap; }

  // The clocks of the motion have no part in it.
  lemma SameBefore(g: Sim, m: Motion, r: Step)
    requires LocksOnce(g.(motion := m), r)
    ensures LocksOnce(g, r)
  {
    hide Lock;
    var h := g.(motion := m);
    if n: Motion :| n.current.Some? && r == Lock(h.(motion := n)) {
      assert h.(motion := n) == g.(motion := n);
    }
  }

  lemma {:induction false} SlideLocks(g: Sim, step: int)
    requires step >= 0
    ensures LocksOnce(g, Slide(g, step))
    decreases g.motion.slideAccum
  {
    hide Place, LocksOnce;
    if g.motion.phase == Sliding && (step == 0 || g.motion.slideAccum >= step) {
      var m := if step == 0 then g else g.(motion := g.motion.(slideAccum := g.motion.slideAccum - step));
      PlaceLocks(m);
      if step > 0 {
        if m.motion.current.None? {
          PlacesNothing(m);
          SlideLocks(m, step);
        } else {
          ResultLaws.SlideRests(Place(m).g, step);
        }
        assert Slide(g, step) == if m.motion.current.None? then Slide(m, step) else Place(m);
      }
      SameBefore(g, m.motion, Slide(g, step));
    } else {
      NoLock(g, g);
    }
  }

  lemma NoLock(g: Sim, h: Sim)
    requires h == g.(motion := h.motion)
    ensures LocksOnce(g, Step(h, []))
  {}

  lemma PlacesNothing(g: Sim)
    requires g.motion.current.None?
    ensures Place(g) == Step(g, [])
  {}

  /** A clock tick locks no piece and leaves weapons and events alone, or it is exactly one lock. */
  lemma TickLocks(g: Sim, dt: int)
    ensures LocksOnce(g, Tick(g, dt))
  {
    hide TickWeapons, Fall, Slide, LocksOnce;
    if !Halted(g) && dt > 0 {
      var w := TickWeapons(g, dt);
      if w.motion.phase == Sliding {
        var m := w.(motion := w.motion.(slideAccum := w.motion.slideAccum + dt));
        SlideLocks(m, Max(w.motion.slideTime, 0));
        SameBefore(g, m.motion, Tick(g, dt));
      } else {
        NoLock(g, Tick(g, dt).g);
      }
    } else {
      NoLock(g, g);
    }
  }

  // ----- until the next lock -----

  // Short of a lock a board keeps waiting and no weapon leaves the queue.
  predicate Awaits(g: Sim, h: Sim)
  {
    && h.lockSeq >= g.lockSeq
    && (h.lockSeq == g.lockSeq ==> h.curses.swap == g.curses.swap && g.curses.pending <= h.curses.pending)
  }

  lemma MomentAwaits(g: Sim, m: Moment)
    ensures Awaits(g, After(g, m).g)
  {
    hide Tick, ApplySim, Lock;
    match m
    case Passes(dt) =>
      TickLocks(g, dt);
      if n: Motion :| n.current.Some? && Tick(g, dt) == Lock(g.(motion := n)) { LockCounts(g.(motion := n)); }
    case Does(i) => InputAwaits(g, i);
  }

  lemma InputAwaits(g: Sim, i: Input)
    ensures Awaits(g, ApplySim(g, i).g)
  { hide Fits, RotateNow, Buy, Sell, UseSlot, Price, On, DropStep, InsertLines; }

  lemma {:induction false} PlayAwaits(g: Sim, ms: seq<Moment>)
    ensures Awaits(g, Played(g, ms).g)
    decreases |ms|
  {
    hide After;
    if ms != [] {
      MomentAwaits(g, ms[0]);
      PlayAwaits(After(g, ms[0]).g, ms[1..]);
    }
  }

  // Whatever g goes through, at its next lock the board c arrives.
  ghost predicate Arrives(c: Grid, g: Sim)
  {
    forall ms: seq<Moment>, dt: int :: var h := Played(g, ms).g;
      h.lockSeq == g.lockSeq && Tick(h, dt).g.lockSeq != h.lockSeq ==> Landed(c, h, Tick(h, dt).g)
  }

  lemma SwapArrives(g: Sim, b: Board)
    requires GridFits(b.cells) && g.curses.swap == Some(ExportBoard(b))
    ensures Arrives(b.cells, g)
  {
    hide GridFits, ExportBoard, Played, Tick, Lock, Landed;
    forall ms: seq<Moment>, dt: int
      ensures var h := Played(g, ms).g;
        h.lockSeq == g.lockSeq && Tick(h, dt).g.lockSeq != h.lockSeq ==> Landed(b.cells, h, Tick(h, dt).g)
    {
      var h := Played(g, ms).g;
      PlayAwaits(g, ms);
      TickLocks(h, dt);
      if h.lockSeq == g.lockSeq && Tick(h, dt).g.lockSeq != h.lockSeq {
        var n: Motion :| n.current.Some? && Tick(h, dt) == Lock(h.(motion := n));
        var l := h.(motion := n);
        LockInstalls(l, b);
        SameLanding(b.cells, h, l, Lock(l).g);
      }
    }
  }

  lemma SameLanding(c: Grid, g: Sim, m: Sim, h: Sim)
    requires m == g.(motion := m.motion) && Landed(c, m, h)
    ensures Landed(c, g, h)
  { hide Exchanged; }

  /** Swap Meet: each side's board, as it stood at the launch, arrives at the other's next lock,
      after any play and any effects in between, behind the weapons then pending, with Bottle and
      Upbyside ended, and square by square if neither was in force or pending. */
  lemma BoardsChangeHands(att: Player, vic: Player)
    requires GridFits(att.g.board.cells) && GridFits(vic.g.board.cells) && !On(att.g, MIRROR)
    ensures var r := RelayOne(att, vic, WeaponLaunched(SWAP));
      && r.att.g.board == att.g.board && r.vic.g.board == vic.g.board
      && Arrives(vic.g.board.cells, r.att.g) && Arrives(att.g.board.cells, r.vic.g)
  {
    hide GridFits, ExportBoard, Arrives;
    LaunchHits(att, vic, SWAP);
    var r := RelayOne(att, vic, WeaponLaunched(SWAP));
    hide RelayOne;
    SwapArrives(r.att.g, vic.g.board);
    SwapArrives(r.vic.g, att.g.board);
  }

  // ----- queued weapons -----

  // How long a queue keeps t in force.
  function Lasting(ts: seq<WeaponToken>, t: WeaponToken): int
    decreases |ts|
  { if ts == [] then 0 else (if ts[0] == t then Duration(t) else 0) + Lasting(ts[1..], t) }

  /** A queue without Bottle turns on what is in it, each for as long as its copies last together. */
  lemma {:induction false} QueueGoesOff(g: Sim, ts: seq<WeaponToken>, t: WeaponToken)
    requires BOTTLE !in ts
    ensures var h := ApplyAll(g, ts).g;
      && h.curses.remaining[t] == g.curses.remaining[t] + Lasting(ts, t)
      && (On(h, t) <==> On(g, t) || t in ts)
    decreases |ts|
  {
    if ts != [] {
      EffectLaws.LastsLonger(g, ts[0]);
      hide ApplyOn, Duration;
      QueueGoesOff(ApplyOn(g, ts[0]).g, ts[1..], t);
    }
  }

  lemma LockArms(g: Sim)
    requires g.motion.current.Some? && g.curses.swap.None? && BOTTLE !in g.curses.pending
    ensures forall t: WeaponToken :: t in g.curses.pending ==> On(Lock(g).g, t)
  {
    hide LockPiece, ApplyAll, HashOf, Spawn;
    var l := LockPiece(g).g;
    forall t: WeaponToken | t in g.curses.pending
      ensures On(Lock(g).g, t)
    { QueueGoesOff(l.(curses := l.curses.(pending := [])), l.curses.pending, t); }
  }

  /** A weapon that reached its target's queue is in force after the target's next lock, whatever
      happened in between, and the queue is empty; with Bottle or an exchanged board in the same
      lock, its own lines or the exchange may already have ended it. */
  lemma WeaponsArrive(g: Sim, t: WeaponToken, ms: seq<Moment>, dt: int)
    requires t in g.curses.pending
    ensures var h := Played(g, ms).g; var k := Tick(h, dt).g;
      h.lockSeq == g.lockSeq && k.lockSeq != h.lockSeq ==>
        && k.curses.pending == []
        && (h.curses.swap.None? && BOTTLE !in h.curses.pending ==> On(k, t))
  {
    hide Played, Tick, Lock;
    var h := Played(g, ms).g;
    PlayAwaits(g, ms);
    TickLocks(h, dt);
    if h.lockSeq == g.lockSeq && Tick(h, dt).g.lockSeq != h.lockSeq {
      var n: Motion :| n.current.Some? && Tick(h, dt) == Lock(h.(motion := n));
      LockCounts(h.(motion := n));
      if h.curses.swap.None? && BOTTLE !in h.curses.pending { LockArms(h.(motion := n)); }
    }
  }

  /** An admin grant gives its side the weapon, if the bank has room, and the funds, leaves the other
      side alone, and records what it gave. */
  lemma GrantGives(b: Bout, s: Seat, w: WeaponToken, f: int)
    ensures var g, d := b.v.Of(s).g, DebugGrant(b, s, Some(w), f);
      var lands := Buy(g.arsenal, w).1;
      && d.v.Of(s.Other()) == b.v.Of(s.Other())
      && d.v.Of(s).g.arsenal == (if lands then Buy(g.arsenal, w).0 else g.arsenal)
      && d.v.Of(s).g.tally.funds == g.tally.funds + f
      && d.v.Of(s).g.board == g.board && d.v.Of(s).g.motion == g.motion
      && |d.frames| == |b.frames| + (if lands then 1 else 0) + (if f != 0 then 1 else 0)
  { hide BuySlot; }
}
