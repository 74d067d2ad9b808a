/** Money: a line clear is paid out exactly once whatever is taxed, and a bazaar visit trades
    funds against the bank at fixed prices. */
module LedgerLaws {
  import opened Wrappers
  import opened Weapons
  import opened Boards
  import opened Pieces
  import opened PieceStream
  import opened Arsenals
  import opened Rng
  import opened Engine
  import opened Inputs
  import opened VersusMatch
  import opened BoutLog
  import opened MirrorLaws

  // ----- one game -----

  // Announced transfers to the opponent.
  function Stolen(ev: seq<GameEvent>): int
    decreases |ev|
  {
    if ev == [] then 0
    else Stolen(ev[..|ev| - 1]) + if ev[|ev| - 1].FundsStolen? then ev[|ev| - 1].amount else 0
  }

  lemma {:induction false} StolenConcat(a: seq<GameEvent>, b: seq<GameEvent>)
    ensures Stolen(a + b) == Stolen(a) + Stolen(b)
    decreases |b|
  {
    if b == [] {
      assert a + b == a;
    } else {
      assert (a + b)[..|a + b| - 1] == a + b[..|b| - 1];
      StolenConcat(a, b[..|b| - 1]);
    }
  }

  lemma {:induction false} NoneStolen(ev: seq<GameEvent>)
    requires forall e :: e in ev ==> !e.FundsStolen?
    ensures Stolen(ev) == 0
    decreases |ev|
  { if ev != [] { assert ev[|ev| - 1] in ev; NoneStolen(ev[..|ev| - 1]); } }

  // Paid to the player or announced for the opponent: this much and no more.
  ghost predicate Pays(g: Sim, s: Step, amount: int)
  { s.g.tally.funds + Stolen(s.ev) == g.tally.funds + amount }

  lemma PaysThen(g: Sim, s: Step, t: Step, x: int, y: int)
    requires Pays(g, s, x) && Pays(s.g, t, y)
    ensures Pays(g, Step(t.g, s.ev + t.ev), x + y)
  { StolenConcat(s.ev, t.ev); }

  // The tax and what is kept of it add up to the clear, whatever the rounding.
  lemma CreditPays(g: Sim, clear: int)
    ensures Pays(g, CreditClear(g, clear), clear)
  {
    hide MondaleKept, Stolen;
    NoneStolen([]);
    OneStolen(clear - MondaleKept(clear));
  }

  lemma OneStolen(n: int)
    ensures Stolen([FundsStolen(n)]) == n
  { assert [FundsStolen(n)][..0] == []; }

  // What the rows completed by the bottle pay, and what turning up does to a balance.
  function BottleFunds(g: Sim, t: WeaponToken): int
  { var e := Engage(g, t); if e.1.lines == 0 then 0 else e.1.funds }

  function Seizure(t: WeaponToken, funds: int): int
  { if t == KEATING then -funds else if t == REAGAN then -2 * funds else 0 }

  // The balance a weapon finds when it turns on.
  function BalanceFor(g: Sim, t: WeaponToken): int { var e := Engage(g, t); EarnBottle(e.0, e.1).g.tally.funds }

  lemma EarnPays(g: Sim, clear: LineClear)
    ensures Pays(g, EarnBottle(g, clear), if clear.lines == 0 then 0 else clear.funds)
  {
    hide TickDurations, CreditClear, UpdateBazaar;
    if clear.lines > 0 {
      var g1 := g.(tally := g.tally.(lines := g.tally.lines + clear.lines));
      var c := CreditClear(g1, clear.funds);
      CreditPays(g1, clear.funds);
      var l := CountLines(c.g, clear.lines);
      StolenConcat(c.ev, l.ev);
      StolenConcat(c.ev + l.ev, [Announce(l.g)]);
      NoneStolen([Announce(l.g)]);
      NoneStolen(l.ev) by { TriggerEvents(c.g); }
    }
  }

  lemma TriggerEvents(g: Sim)
    ensures forall e :: e in UpdateBazaar(g).ev ==> !e.FundsStolen?
  {}

  lemma OnPays(g: Sim, t: WeaponToken)
    ensures Pays(g, ApplyOn(g, t), BottleFunds(g, t) + Seizure(t, BalanceFor(g, t)))
  {
    hide EarnBottle, ApplyEffect, StreamOn, SetFlag, Duration, Stolen;
    var e := Engage(g, t);
    EarnPays(e.0, e.1);
  }

  // The same for a queue of weapons, each finding what the last one left.
  function QueueFunds(g: Sim, ts: seq<WeaponToken>): int
    decreases |ts|
  { if ts == [] then 0 else BottleFunds(g, ts[0]) + QueueFunds(ApplyOn(g, ts[0]).g, ts[1..]) }

  function QueueSeizures(g: Sim, ts: seq<WeaponToken>): int
    decreases |ts|
  { if ts == [] then 0 else Seizure(ts[0], BalanceFor(g, ts[0])) + QueueSeizures(ApplyOn(g, ts[0]).g, ts[1..]) }

  lemma {:induction false} AllPay(g: Sim, ts: seq<WeaponToken>)
    ensures Pays(g, ApplyAll(g, ts), QueueFunds(g, ts) + QueueSeizures(g, ts))
    decreases |ts|
  {
    hide ApplyOn, Pays, BottleFunds, BalanceFor;
    if ts == [] {
      assert Pays(g, Step(g, []), 0) by { PaysNothing(g); }
    } else {
      var s := ApplyOn(g, ts[0]);
      OnPays(g, ts[0]);
      AllPay(s.g, ts[1..]);
      PaysThen(g, s, ApplyAll(s.g, ts[1..]), BottleFunds(g, ts[0]) + Seizure(ts[0], BalanceFor(g, ts[0])),
               QueueFunds(s.g, ts[1..]) + QueueSeizures(s.g, ts[1..]));
    }
  }

  lemma PaysNothing(g: Sim)
    ensures Pays(g, Step(g, []), 0)
  {}

  lemma {:induction false} NoSeizures(g: Sim, ts: seq<WeaponToken>)
    requires KEATING !in ts && REAGAN !in ts
    ensures QueueSeizures(g, ts) == 0
    decreases |ts|
  {
    hide ApplyOn, BalanceFor;
    if ts != [] { NoSeizures(ApplyOn(g, ts[0]).g, ts[1..]); }
  }

  // ----- a lock, a tick -----

  // What the piece's own lines pay when it lands.
  function LandingFunds(g: Sim): int
    requires g.motion.current.Some?
  { CheckLines(Land(g.motion.current.value, g.board)).1.funds }

  function LockFunds(g: Sim): int
    requires g.motion.current.Some?
  {
    var l := LockPiece(g).g;
    LandingFunds(g) + QueueFunds(l.(curses := l.curses.(pending := [])), l.curses.pending)
  }

  function LockSeizures(g: Sim): int
    requires g.motion.current.Some?
  { var l := LockPiece(g).g; QueueSeizures(l.(curses := l.curses.(pending := [])), l.curses.pending) }

  lemma LockPiecePays(g: Sim)
    requires g.motion.current.Some?
    ensures Pays(g, LockPiece(g), LandingFunds(g))
  {
    hide TickDurations, CreditClear, UpdateBazaar, CheckLines, Land, CanMoveTo, FlushIdiot, Stolen;
    var p := g.motion.current.value;
    var (b, clear) := CheckLines(Land(p, g.board));
    var g1 := g.(board := b, tally := g.tally.(lines := g.tally.lines + clear.lines),
      motion := g.motion.(current := None));
    var c := CreditClear(g1, clear.funds);
    CreditPays(g1, clear.funds);
    var (b', why) := FlushIdiot(b);
    var g' := c.g.(board := b');
    var l := if clear.lines > 0 then CountLines(g', clear.lines) else Step(g', []);
    var x := if g.motion.dropping && g.motion.sliding <= 1
                && !CanMoveTo(p, g.board, g.motion.x, g.motion.y - g.frame.deltaY) then [Airslide] else [];
    var y := [Locked(clear.lines, clear.value, clear.funds)];
    var z := if why.Some? then [Idiot(why.value)] else [];
    TriggerEvents(g');
    NoneStolen(x);
    NoneStolen(y);
    NoneStolen(z);
    NoneStolen(l.ev);
    NoneStolen([Announce(l.g)]);
    StolenConcat(x, c.ev);
    StolenConcat(x + c.ev, y);
    StolenConcat(x + c.ev + y, z);
    StolenConcat(x + c.ev + y + z, l.ev);
    StolenConcat(x + c.ev + y + z + l.ev, [Announce(l.g)]);
  }

  lemma LockPays(g: Sim)
    requires g.motion.current.Some?
    ensures Pays(g, Lock(g), LockFunds(g) + LockSeizures(g))
  {
    hide LockPiece, ApplyAll, InstallSwap, Spawn, HashOf, Pays, LandingFunds, QueueFunds, QueueSeizures;
    var l := LockPiece(g);
    var q := l.g.(curses := l.g.curses.(pending := []));
    LockPiecePays(g);
    AllPay(q, l.g.curses.pending);
    var f := FlushPending(l.g);
    assert Pays(l.g, f, LockFunds(g) - LandingFunds(g) + LockSeizures(g)) by { SameFunds(l.g, q, f, ApplyAll(q,
      l.g.curses.pending), LockFunds(g) - LandingFunds(g) + LockSeizures(g)); }
    var s := Spawn(f.g);
    SpawnPays(f.g);
    PaysThen(g, l, f, LandingFunds(g), LockFunds(g) - LandingFunds(g) + LockSeizures(g));
    PaysThen(g, Step(f.g, l.ev + f.ev), s, LockFunds(g) + LockSeizures(g), 0);
    SameFunds(g, g, Lock(g), Step(s.g, l.ev + f.ev + s.ev), LockFunds(g) + LockSeizures(g));
  }

  lemma SameFunds(g: Sim, h: Sim, s: Step, t: Step, x: int)
    requires Pays(h, t, x) && g.tally.funds == h.tally.funds && s.g.tally.funds == t.g.tally.funds && s.ev == t.ev
    ensures Pays(g, s, x)
  {}

  lemma SpawnPays(g: Sim)
    ensures Pays(g, Spawn(g), 0)
  { hide Create, CanMoveTo; NoneStolen(Spawn(g).ev); }

  // The state a tick locks the piece in, if it does.
  function Locking(g: Sim, dt: int): (m: Option<Sim>)
    ensures m.Some? ==> m.value.motion.current.Some?
  {
    var w := TickWeapons(g, dt);
    var step := Max(w.motion.slideTime, 0);
    if Halted(g) || dt <= 0 || w.motion.phase != Sliding || (step > 0 && w.motion.slideAccum + dt < step) then None
    else
      var m := w.(motion := w.motion.(slideAccum := w.motion.slideAccum + dt - step));
      if m.motion.current.Some? && !Fits(m, m.motion.x, m.motion.y + m.frame.deltaY) then Some(m) else None
  }

  // What the lines cleared in a tick pay, its bottle's included.
  function TickFunds(g: Sim, dt: int): int
  { if Locking(g, dt).Some? then LockFunds(Locking(g, dt).value) else 0 }

  // What Keating and Reagan, turning on in a tick, do to the balance.
  function TickSeizures(g: Sim, dt: int): int
  { if Locking(g, dt).Some? then LockSeizures(Locking(g, dt).value) else 0 }

  lemma PlacePays(g: Sim)
    ensures Pays(g, Place(g),
      if g.motion.current.Some? && !Fits(g, g.motion.x, g.motion.y + g.frame.deltaY) then LockFunds(g) + LockSeizures(g) else 0)
  {
    hide Lock, LockFunds, LockSeizures, CanMoveTo;
    if g.motion.current.Some? && !Fits(g, g.motion.x, g.motion.y + g.frame.deltaY) { LockPays(g); }
  }

  lemma {:induction false} EmptySlidePays(g: Sim, step: int)
    requires step >= 0 && (g.motion.current.None? || g.motion.phase != Sliding)
    ensures Pays(g, Slide(g, step), 0)
    decreases g.motion.slideAccum
  {
    hide Lock, CanMoveTo;
    if g.motion.phase == Sliding && step > 0 && g.motion.slideAccum >= step {
      var m := g.(motion := g.motion.(slideAccum := g.motion.slideAccum - step));
      EmptySlidePays(m, step);
      assert Place(m) == Step(m, []);
      assert [] + Slide(m, step).ev == Slide(m, step).ev;
    }
  }

  // The funds a lock in this state would pay, if its place is a lock.
  function PlaceFunds(g: Sim): int
  {
    if g.motion.current.Some? && !Fits(g, g.motion.x, g.motion.y + g.frame.deltaY) then LockFunds(g) + LockSeizures(g)
    else 0
  }

  lemma SlidePays(g: Sim, step: int)
    requires step >= 0 && g.motion.phase == Sliding && !(step > 0 && g.motion.slideAccum < step)
    ensures Pays(g, Slide(g, step), PlaceFunds(g.(motion := g.motion.(slideAccum := g.motion.slideAccum - step))))
  {
    hide Place, Pays, PlaceFunds;
    var m := g.(motion := g.motion.(slideAccum := g.motion.slideAccum - step));
    assert Pays(m, Place(m), PlaceFunds(m)) by { PlacePays(m); PlaceFundsIs(m); }
    if step == 0 {
      assert m == g;
    } else {
      PlaceSettles(m);
      EmptySlidePays(Place(m).g, step);
      var p := Place(m);
      PaysThen(m, p, Slide(p.g, step), PlaceFunds(m), 0);
      SameFunds(g, m, Slide(g, step), Step(Slide(p.g, step).g, p.ev + Slide(p.g, step).ev), PlaceFunds(m));
    }
  }

  lemma PlaceFundsIs(g: Sim)
    ensures PlaceFunds(g) ==
      if g.motion.current.Some? && !Fits(g, g.motion.x, g.motion.y + g.frame.deltaY) then LockFunds(g) + LockSeizures(g) else 0
  { hide Fits, LockFunds, LockSeizures; }

  lemma PlaceSettles(g: Sim)
    ensures Place(g).g.motion.current.None? || Place(g).g.motion.phase != Sliding
  { hide Lock, Fits; }

  lemma TickPays(g: Sim, dt: int)
    ensures Pays(g, Tick(g, dt), TickFunds(g, dt) + TickSeizures(g, dt))
  {
    hide LockFunds, LockSeizures, Fits, Slide, TickWeapons, Fall, Pays;
    PaysNothing(g);
    if !Halted(g) && dt > 0 {
      var w := TickWeapons(g, dt);
      var step := Max(w.motion.slideTime, 0);
      var h := w.(motion := w.motion.(slideAccum := w.motion.slideAccum + dt));
      if w.motion.phase == Sliding {
        if step > 0 && h.motion.slideAccum < step {
          assert Slide(h, step) == Step(h, []) by { SlideWaits(h, step); }
          PaysNothing(h);
          SameFunds(g, h, Tick(g, dt), Slide(h, step), 0);
        } else {
          SlidePays(h, step);
          PlaceFundsIs(w.(motion := w.motion.(slideAccum := w.motion.slideAccum + dt - step)));
          SameFunds(g, h, Tick(g, dt), Slide(h, step), TickFunds(g, dt) + TickSeizures(g, dt));
        }
      } else {
        SameFunds(g, g, Tick(g, dt), Step(g, []), 0);
      }
    }
  }

  lemma SlideWaits(g: Sim, step: int)
    requires step > 0 && g.motion.slideAccum < step
    ensures Slide(g, step) == Step(g, [])
  {}

  // ----- both games -----

  // What launched Keatings seize for their launchers in a relay pass.
  function Credits(att: Player, vic: Player, evs: seq<GameEvent>): int
    decreases |evs|
  {
    if evs == [] then 0
    else
      var r := RelayOne(att, vic, evs[0]);
      (if evs[0] == WeaponLaunched(KEATING) && !On(att.g, MIRROR) then vic.g.tally.funds else 0)
      + Credits(r.att, r.vic, evs[1..])
  }

  predicate NoStolen(ev: seq<GameEvent>) { forall e :: e in ev ==> !e.FundsStolen? }

  lemma RelayOnePays(att: Player, vic: Player, e: GameEvent)
    ensures var r := RelayOne(att, vic, e);
      r.att.g.tally.funds + r.vic.g.tally.funds
        == att.g.tally.funds + vic.g.tally.funds + Stolen([e])
           + if e == WeaponLaunched(KEATING) && !On(att.g, MIRROR) then vic.g.tally.funds else 0
  {
    hide ExportBoard, On, InsertLines;
    assert [e][..0] == [];
  }

  lemma {:induction false} StolenFirst(ev: seq<GameEvent>)
    requires ev != []
    ensures Stolen(ev) == Stolen([ev[0]]) + Stolen(ev[1..])
  {
    StolenConcat([ev[0]], ev[1..]);
    assert [ev[0]] + ev[1..] == ev;
  }

  lemma {:induction false} RelayPays(att: Player, vic: Player, evs: seq<GameEvent>)
    ensures var r := RelayAll(att, vic, evs);
      r.att.g.tally.funds + r.vic.g.tally.funds
        == att.g.tally.funds + vic.g.tally.funds + Stolen(evs) + Credits(att, vic, evs)
    decreases |evs|
  {
    hide RelayOne, Stolen, On;
    if evs == [] {
      NoneStolen(evs);
    } else {
      var r := RelayOne(att, vic, evs[0]);
      RelayOnePays(att, vic, evs[0]);
      StolenFirst(evs);
      RelayPays(r.att, r.vic, evs[1..]);
    }
  }

  function Total(v: Versus): int { v.a.g.tally.funds + v.b.g.tally.funds }

  function PassCredits(v: Versus): int
  {
    var r := FirstHalf(v);
    Credits(v.a.(ev := []), v.b, v.a.ev) + Credits(r.vic.(ev := []), r.att, r.vic.ev)
  }

  lemma PassPays(v: Versus)
    ensures Total(Relay(v)) == Total(v) + Stolen(v.a.ev) + Stolen(v.b.ev) + PassCredits(v)
    ensures NoStolen(Relay(v).a.ev) && NoStolen(Relay(v).b.ev)
  {
    var a0 := v.a.(ev := []);
    var r, t := FirstHalf(v), SecondHalf(v);
    var b0 := r.vic.(ev := []);
    RelayPays(a0, v.b, v.a.ev);
    RelayPays(b0, r.att, r.vic.ev);
    RelayAllLaw(a0, v.b, v.a.ev);
    RelayAllLaw(b0, r.att, r.vic.ev);
    hide RelayAll, Credits, Stolen;
    var tail := r.vic.ev[|v.b.ev|..];
    assert r.vic.ev == v.b.ev + tail;
    StolenConcat(v.b.ev, tail);
    NoneStolen(tail);
    assert t.vic.ev == r.att.ev + t.vic.ev[|r.att.ev|..];
    assert r.att.ev == r.att.ev[0..] && t.att.ev == t.att.ev[0..];
  }

  lemma QueuedPays(p: Player, dt: int)
    requires NoStolen(p.ev)
    ensures var q := Advance(p, Tick(p.g, dt));
      q.g.tally.funds + Stolen(q.ev) == p.g.tally.funds + TickFunds(p.g, dt) + TickSeizures(p.g, dt)
  {
    TickPays(p.g, dt);
    NoneStolen(p.ev);
    StolenConcat(p.ev, Tick(p.g, dt).ev);
    hide Tick, TickFunds, TickSeizures, Stolen;
  }

  predicate NothingStolen(v: Versus) { NoStolen(v.a.ev) && NoStolen(v.b.ev) }

  predicate Stands(v: Versus) { v.result != 0 || v.Frozen() }

  // What both sides' lines pay during a tick; nothing while the boards stand still.
  function Cleared(v: Versus, dt: int): int
  { if Stands(v) then 0 else TickFunds(v.a.g, dt) + TickFunds(v.b.g, dt) }

  // What activating Keatings and Reagans add to both balances.
  function Seized(v: Versus, dt: int): int
  { if Stands(v) then 0 else TickSeizures(v.a.g, dt) + TickSeizures(v.b.g, dt) }

  // What launched Keatings credit, also those left over to a frozen tick.
  function Credited(v: Versus, dt: int): int
  { if v.result != 0 then 0 else PassCredits(TickBoth(v, dt)) }

  /** The ledger of a tick of the match, frozen or not. The two balances together grow by what
      the cleared lines pay, and otherwise move only by Keating and Reagan: the Mondale tax one
      side loses is what the other banks, whatever its rounding. */
  lemma TickLedger(v: Versus, dt: int)
    requires NothingStolen(v)
    ensures Total(VTick(v, dt)) == Total(v) + Cleared(v, dt) + Seized(v, dt) + Credited(v, dt)
    ensures NothingStolen(VTick(v, dt))
  {
    hide Tick, TickFunds, TickSeizures, Stolen, Relay, PassCredits;
    if v.result == 0 {
      if v.Frozen() {
        NoneStolen(v.a.ev);
        NoneStolen(v.b.ev);
      } else {
        QueuedPays(v.a, dt);
        QueuedPays(v.b, dt);
      }
      PassPays(TickBoth(v, dt));
    }
  }

  lemma {:induction false} NoCredits(att: Player, vic: Player, evs: seq<GameEvent>)
    requires WeaponLaunched(KEATING) !in evs
    ensures Credits(att, vic, evs) == 0
    decreases |evs|
  {
    hide RelayOne;
    if evs != [] {
      var r := RelayOne(att, vic, evs[0]);
      assert evs[0] in evs;
      NoCredits(r.att, r.vic, evs[1..]);
    }
  }

  // Neither Keating nor Reagan waits for this tick's lock, and no Keating is launched.
  predicate NoSwindle(v: Versus)
  {
    && KEATING !in v.a.g.curses.pending && REAGAN !in v.a.g.curses.pending
    && KEATING !in v.b.g.curses.pending && REAGAN !in v.b.g.curses.pending
    && WeaponLaunched(KEATING) !in v.a.ev && WeaponLaunched(KEATING) !in v.b.ev
  }

  lemma LockWaits(g: Sim)
    requires g.motion.current.Some? && KEATING !in g.curses.pending && REAGAN !in g.curses.pending
    ensures LockSeizures(g) == 0
  {
    hide LockPiece, QueueSeizures;
    var l := LockPiece(g).g;
    NoSeizures(l.(curses := l.curses.(pending := [])), l.curses.pending);
  }

  lemma NoTickSeizures(g: Sim, dt: int)
    requires KEATING !in g.curses.pending && REAGAN !in g.curses.pending
    ensures TickSeizures(g, dt) == 0
  {
    hide LockSeizures, TickWeapons, Fits;
    if Locking(g, dt).Some? { LockWaits(Locking(g, dt).value); }
  }

  // A tick launches nothing.
  lemma TickLaunchesNothing(g: Sim, dt: int)
    ensures forall e :: e in Tick(g, dt).ev ==> !e.WeaponLaunched?
  {
    hide Slide, Fall, TickWeapons;
    if !Halted(g) && dt > 0 {
      var w := TickWeapons(g, dt);
      SlideLaunchesNothing(w.(motion := w.motion.(slideAccum := w.motion.slideAccum + dt)), Max(w.motion.slideTime, 0));
    }
  }

  lemma {:induction false} SlideLaunchesNothing(g: Sim, step: int)
    requires step >= 0
    ensures forall e :: e in Slide(g, step).ev ==> !e.WeaponLaunched?
    decreases g.motion.slideAccum
  {
    hide Place;
    if g.motion.phase == Sliding && !(step > 0 && g.motion.slideAccum < step) {
      var m := g.(motion := g.motion.(slideAccum := g.motion.slideAccum - step));
      LockLaunchesNothing(m);
      if step > 0 { SlideLaunchesNothing(Place(m).g, step); } else { assert m == g; }
    }
  }

  lemma LockLaunchesNothing(g: Sim)
    ensures forall e :: e in Place(g).ev ==> !e.WeaponLaunched?
  {
    hide Fits, ApplyAll, InstallSwap, TickDurations, CheckLines, Land, CanMoveTo, FlushIdiot, MondaleKept, HashOf,
      Create, Live;
    if g.motion.current.Some? {
      var l := LockPiece(g);
      AllLaunchNothing(l.g.(curses := l.g.curses.(pending := [])), l.g.curses.pending);
      LockPieceLaunchesNothing(g);
      hide LockPiece;
    }
  }

  lemma LockPieceLaunchesNothing(g: Sim)
    requires g.motion.current.Some?
    ensures forall e :: e in LockPiece(g).ev ==> !e.WeaponLaunched?
  { hide TickDurations, CheckLines, Land, CanMoveTo, FlushIdiot, MondaleKept; }

  lemma {:induction false} AllLaunchNothing(g: Sim, ts: seq<WeaponToken>)
    ensures forall e :: e in ApplyAll(g, ts).ev ==> !e.WeaponLaunched?
    decreases |ts|
  {
    hide ApplyOn;
    if ts != [] {
      OnLaunchesNothing(g, ts[0]);
      AllLaunchNothing(ApplyOn(g, ts[0]).g, ts[1..]);
    }
  }

  lemma OnLaunchesNothing(g: Sim, t: WeaponToken)
    ensures forall e :: e in ApplyOn(g, t).ev ==> !e.WeaponLaunched?
  { hide ApplyEffect, TickDurations, MondaleKept, StreamOn, SetFlag, Duration; }

  lemma NoPassCredits(t: Versus)
    requires WeaponLaunched(KEATING) !in t.a.ev && WeaponLaunched(KEATING) !in t.b.ev
    ensures PassCredits(t) == 0
  {
    hide Credits, RelayAll;
    var r := FirstHalf(t);
    NoCredits(t.a.(ev := []), t.b, t.a.ev);
    RelayAllLaw(t.a.(ev := []), t.b, t.a.ev);
    assert r.vic.ev == t.b.ev + r.vic.ev[|t.b.ev|..];
    NoCredits(r.vic.(ev := []), r.att, r.vic.ev);
  }

  lemma NoneLaunched(v: Versus, dt: int)
    requires WeaponLaunched(KEATING) !in v.a.ev && WeaponLaunched(KEATING) !in v.b.ev
    ensures WeaponLaunched(KEATING) !in TickBoth(v, dt).a.ev && WeaponLaunched(KEATING) !in TickBoth(v, dt).b.ev
  {
    hide Tick;
    TickLaunchesNothing(v.a.g, dt);
    TickLaunchesNothing(v.b.g, dt);
  }

  /** Without Keating and Reagan the two balances together change by exactly what the cleared
      lines pay. */
  lemma CleanLedger(v: Versus, dt: int)
    requires NothingStolen(v) && NoSwindle(v)
    ensures Total(VTick(v, dt)) == Total(v) + Cleared(v, dt)
  {
    hide VTick, TickBoth, TickFunds, TickSeizures, PassCredits, Total, NothingStolen;
    TickLedger(v, dt);
    NoTickSeizures(v.a.g, dt);
    NoTickSeizures(v.b.g, dt);
    NoneLaunched(v, dt);
    NoPassCredits(TickBoth(v, dt));
  }

  // ----- runs -----

  // No input and no relayed effect announces a tax; only a tick does.
  lemma InputStealsNothing(g: Sim, i: Input)
    ensures NoStolen(ApplySim(g, i).ev)
  { hide Fits, RotateNow, Buy, Sell, UseSlot, Price, On, DropStep, InsertLines; }

  lemma ApplyStealsNothing(v: Versus, s: Seat, i: Input)
    requires NothingStolen(v)
    ensures NothingStolen(v.With(s, Apply(v.Of(s), i)))
  {
    hide ApplySim;
    InputStealsNothing(v.Of(s).g, i);
  }

  lemma DoStealsNothing(b: Bout, a: Act)
    requires NothingStolen(b.v)
    ensures NothingStolen(Do(b, a).v)
  {
    hide NothingStolen, Apply, VTick;
    match a
    case DoInput(s, i, n) => if Fresh(b, s, i, n) && !Barred(b, i) { ApplyStealsNothing(b.v, s, i); }
    case DoGrant(s, w, f) =>
      var lands := w.Some? && GrantLands(b, s, w.value);
      var b' := if lands then Recorded(b, s, GrantIn(w.value)) else b;
      if lands { ApplyStealsNothing(b.v, s, GrantIn(w.value)); }
      if f != 0 { ApplyStealsNothing(b'.v, s, FundsIn(f)); }
    case DoReset(s) =>
    case DoTick(dt) => TickLedger(b.v, dt);
  }

  lemma {:induction false} RunStealsNothing(b: Bout, acts: seq<Act>)
    requires NothingStolen(b.v)
    ensures NothingStolen(BoutLog.Run(b, acts).v)
    decreases |acts|
  {
    hide NothingStolen, Do;
    if acts != [] {
      DoStealsNothing(b, acts[0]);
      RunStealsNothing(Do(b, acts[0]), acts[1..]);
    }
  }

  lemma NewStealsNothing(seedA: Word, seedB: Word)
    ensures NothingStolen(NewBout(seedA, seedB).v)
  { hide Create, CanMoveTo; }

  /** The ledger of every tick a hosted match can come to, after any inputs, grants,
      reconnects and ticks. */
  lemma ReachableLedger(seedA: Word, seedB: Word, acts: seq<Act>, dt: int)
    ensures var v := BoutLog.Run(NewBout(seedA, seedB), acts).v;
      && Total(VTick(v, dt)) == Total(v) + Cleared(v, dt) + Seized(v, dt) + Credited(v, dt)
      && (NoSwindle(v) ==> Total(VTick(v, dt)) == Total(v) + Cleared(v, dt))
  {
    hide NothingStolen, BoutLog.Run, NewBout, Total, VTick, Cleared, Seized, Credited, NoSwindle;
    NewStealsNothing(seedA, seedB);
    RunStealsNothing(NewBout(seedA, seedB), acts);
    var v := BoutLog.Run(NewBout(seedA, seedB), acts).v;
    TickLedger(v, dt);
    if NoSwindle(v) { CleanLedger(v, dt); }
  }

  // ----- a bazaar visit -----

  // Funds and bank together, at the prices in force.
  function Worth(g: Sim): int { g.tally.funds + ListValue(g.arsenal) * (if On(g, CARTER) then 2 else 1) }

  lemma TradeKeepsWorth(g: Sim, i: Input)
    requires Tidy(g.arsenal) && Legal(i) && g.tally.inBazaar
    ensures var h := ApplySim(g, i).g; Worth(h) == Worth(g) && Tidy(h.arsenal)
  {
    hide Price, ListValue, Tidy, Fits, Rotate, DropStep, Buy, Sell, UseSlot;
    match i
    case BuyIndex(k) => if FromIndex(k).Some? { BuyAddsPrice(g.arsenal, k); }
    case SellIndex(k) => if FromIndex(k).Some? { SellTakesPrice(g.arsenal, k); }
    case _ =>
  }

  function Trades(g: Sim, ins: seq<Input>): Sim
    decreases |ins|
  { if ins == [] then g else Trades(ApplySim(g, ins[0]).g, ins[1..]) }

  // The visit lasts: no leave among the inputs.
  predicate Staying(ins: seq<Input>) { forall i :: i in ins ==> Legal(i) && !i.LeaveKey? }

  /** Within a bazaar visit, Carter or not, no sequence of purchases, sales and refused
      inputs changes what funds and bank are worth together. */
  lemma {:induction false} VisitKeepsWorth(g: Sim, ins: seq<Input>)
    requires Tidy(g.arsenal) && g.tally.inBazaar && Staying(ins)
    ensures Worth(Trades(g, ins)) == Worth(g)
    decreases |ins|
  {
    hide Worth, ApplySim, Tidy, Legal;
    if ins != [] {
      assert ins[0] in ins;
      TradeKeepsWorth(g, ins[0]);
      assert ApplySim(g, ins[0]).g.tally.inBazaar by { StaysIn(g, ins[0]); }
      assert forall i :: i in ins[1..] ==> i in ins;
      VisitKeepsWorth(ApplySim(g, ins[0]).g, ins[1..]);
    }
  }

  lemma StaysIn(g: Sim, i: Input)
    requires Legal(i) && !i.LeaveKey? && g.tally.inBazaar
    ensures ApplySim(g, i).g.tally.inBazaar
  { hide Fits, Rotate, DropStep, Buy, Sell, UseSlot, Price, On; }
}
