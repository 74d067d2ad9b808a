/** Who wins (rust/bt-core/src/versus.rs:292-381): the result of a match is what the two games'
    phases say it is. */
module ResultLaws {
  import opened Wrappers
  import opened Weapons
  import opened Rng
  import opened Boards
  import opened Pieces
  import opened PieceStream
  import opened Engine
  import opened Inputs
  import opened VersusMatch
  import opened BoutLog
  import opened MirrorLaws
  import LimitRuns
  import Sessions

  // ----- a game announces its end exactly when it ends -----

  predicate Topped(g: Sim) { g.motion.phase == Over }

  predicate Quits(s: Step) { GameOver in s.ev }

  lemma SpawnTops(g: Sim)
    ensures Topped(Spawn(g).g) <==> Quits(Spawn(g))
  { hide Create, CanMoveTo; }

  lemma LandingGoesOn(g: Sim)
    requires g.motion.current.Some?
    ensures !Quits(LockPiece(g))
  { hide TickDurations, CheckLines, Land, CanMoveTo, FlushIdiot, MondaleKept; }

  lemma {:induction false} WeaponsGoOn(g: Sim, ts: seq<WeaponToken>)
    ensures !Quits(ApplyAll(g, ts))
    decreases |ts|
  {
    hide ApplyOn;
    if ts != [] {
      WeaponGoesOn(g, ts[0]);
      WeaponsGoOn(ApplyOn(g, ts[0]).g, ts[1..]);
    }
  }

  lemma WeaponGoesOn(g: Sim, t: WeaponToken)
    ensures !Quits(ApplyOn(g, t))
  { hide ApplyEffect, TickDurations, MondaleKept, StreamOn, SetFlag, Duration; }

  lemma LockTops(g: Sim)
    requires g.motion.current.Some?
    ensures Topped(Lock(g).g) <==> Quits(Lock(g))
  {
    hide LockPiece, ApplyAll, InstallSwap, Spawn, HashOf;
    var l := LockPiece(g);
    LandingGoesOn(g);
    WeaponsGoOn(l.g.(curses := l.g.curses.(pending := [])), l.g.curses.pending);
    SpawnTops(FlushPending(l.g).g);
  }

  lemma PlaceTops(g: Sim)
    requires !Topped(g)
    ensures Topped(Place(g).g) <==> Quits(Place(g))
  {
    hide Lock, Fits;
    if g.motion.current.Some? { LockTops(g); }
  }

  lemma {:induction false} SlideTops(g: Sim, step: int)
    requires step >= 0 && !Topped(g)
    ensures Topped(Slide(g, step).g) <==> Quits(Slide(g, step))
    decreases g.motion.slideAccum
  {
    hide Place;
    if g.motion.phase == Sliding && (step == 0 || g.motion.slideAccum >= step) {
      var m := g.(motion := g.motion.(slideAccum := g.motion.slideAccum - step));
      PlaceTops(m);
      if step == 0 {
        assert m == g;
      } else if Topped(Place(m).g) {
        SlideRests(Place(m).g, step);
      } else {
        SlideTops(Place(m).g, step);
      }
    }
  }

  lemma SlideRests(g: Sim, step: int)
    requires step > 0 && g.motion.phase != Sliding
    ensures Slide(g, step) == Step(g, [])
  {}

  lemma PhaseThroughWeapons(g: Sim, dt: int)
    ensures TickWeapons(g, dt).motion.phase == g.motion.phase
  {
    hide RotateNow, SlickStep;
    HatterPhase(g.(motion := g.motion.(hatterAccum := g.motion.hatterAccum + dt)));
    var h := if On(g, HATTER) then Hatter(g.(motion := g.motion.(hatterAccum := g.motion.hatterAccum + dt))) else g;
    SlickPhase(h.(motion := h.motion.(slickAccum := h.motion.slickAccum + dt)));
    hide Hatter, Slick;
  }

  lemma {:induction false} HatterPhase(g: Sim)
    ensures Hatter(g).motion.phase == g.motion.phase
    decreases g.motion.hatterAccum
  {
    hide Rotate;
    if g.motion.hatterAccum >= 20 {
      HatterPhase(RotateNow(g.(motion := g.motion.(hatterAccum := g.motion.hatterAccum - 20))));
    }
  }

  lemma {:induction false} SlickPhase(g: Sim)
    ensures Slick(g).motion.phase == g.motion.phase
    decreases g.motion.slickAccum
  {
    hide Fits;
    if g.motion.slickAccum >= 20 {
      SlickPhase(SlickStep(g.(motion := g.motion.(slickAccum := g.motion.slickAccum - 20))));
    }
  }

  lemma {:induction false} FallGoesOn(g: Sim, step: int)
    requires step >= 1 && !Topped(g)
    ensures !Topped(Fall(g, step))
    decreases g.motion.dropAccum
  {
    hide Fits;
    if g.motion.phase == Falling && g.motion.dropAccum >= step {
      FallGoesOn(DropStep(g.(motion := g.motion.(dropAccum := g.motion.dropAccum - step))), step);
    }
  }

  // A tick ends a game exactly when it announces the end, and an ended game only stands.
  lemma TickTops(g: Sim, dt: int)
    ensures if Topped(g) then Tick(g, dt) == Step(g, []) else (Topped(Tick(g, dt).g) <==> Quits(Tick(g, dt)))
  {
    hide TickWeapons, Fall, Slide;
    if !Halted(g) && dt > 0 {
      PhaseThroughWeapons(g, dt);
      var w := TickWeapons(g, dt);
      if w.motion.phase == Falling {
        FallGoesOn(w.(motion := w.motion.(dropAccum := w.motion.dropAccum + dt)), Max(w.motion.dropTime, 1));
      } else {
        SlideTops(w.(motion := w.motion.(slideAccum := w.motion.slideAccum + dt)), Max(w.motion.slideTime, 0));
      }
    }
  }

  lemma InputGoesOn(g: Sim, i: Input)
    ensures Topped(ApplySim(g, i).g) <==> Topped(g)
    ensures !Quits(ApplySim(g, i))
  { hide Fits, RotateNow, InsertLines; }

  // ----- a relay pass -----

  lemma {:induction false} PassTops(att: Player, vic: Player, evs: seq<GameEvent>)
    ensures var r := RelayAll(att, vic, evs);
      && r.att.g.motion == att.g.motion && r.vic.g.motion == vic.g.motion
      && (r.over <==> GameOver in evs)
    decreases |evs|
  {
    hide RelayOne;
    if evs != [] {
      var r := RelayOne(att, vic, evs[0]);
      EventTops(att, vic, evs[0]);
      PassTops(r.att, r.vic, evs[1..]);
    }
  }

  lemma EventTops(att: Player, vic: Player, e: GameEvent)
    ensures var r := RelayOne(att, vic, e);
      && r.att.g.motion == att.g.motion && r.vic.g.motion == vic.g.motion
      && (r.over <==> e == GameOver)
  { hide ExportBoard, On, MirrorNullifies, InsertLines; }

  // Whoever has ended decides; with both at once the first side does.
  predicate Decided(v: Versus)
  {
    && 0 <= v.result <= 2
    && (v.result == 0 <==> !Topped(v.a.g) && !Topped(v.b.g))
    && (v.result == 2 <==> Topped(v.a.g))
    && (v.result == 1 <==> Topped(v.b.g) && !Topped(v.a.g))
  }

  // What an end still queued says: in a running match nothing is.
  predicate NoneQueued(v: Versus) { v.result == 0 ==> GameOver !in v.a.ev && GameOver !in v.b.ev }

  lemma PassDecides(t: Versus)
    requires t.result == 0
    requires (Topped(t.a.g) <==> GameOver in t.a.ev) && (Topped(t.b.g) <==> GameOver in t.b.ev)
    ensures Decided(Relay(t)) && NoneQueued(Relay(t))
    ensures Topped(Relay(t).a.g) == Topped(t.a.g) && Topped(Relay(t).b.g) == Topped(t.b.g)
  {
    var a0, r, s := t.a.(ev := []), FirstHalf(t), SecondHalf(t);
    var b0 := r.vic.(ev := []);
    PassTops(a0, t.b, t.a.ev);
    PassTops(b0, r.att, r.vic.ev);
    RelayAllLaw(a0, t.b, t.a.ev);
    RelayAllLaw(b0, r.att, r.vic.ev);
    hide RelayAll;
    var x, y := r.vic.ev[|t.b.ev|..], s.vic.ev[|r.att.ev|..];
    assert r.vic.ev == t.b.ev + x && s.vic.ev == r.att.ev + y;
    assert r.att.ev[0..] == r.att.ev && s.att.ev[0..] == s.att.ev;
  }

  lemma TickDecides(v: Versus, dt: int)
    requires Decided(v) && NoneQueued(v)
    ensures Decided(VTick(v, dt)) && NoneQueued(VTick(v, dt))
  {
    hide Tick, Relay;
    if v.result == 0 {
      TickTops(v.a.g, dt);
      TickTops(v.b.g, dt);
      PassDecides(TickBoth(v, dt));
    }
  }

  lemma ActDecides(v: Versus, s: Seat, i: Input)
    requires Decided(v) && NoneQueued(v)
    ensures Decided(v.With(s, Apply(v.Of(s), i))) && NoneQueued(v.With(s, Apply(v.Of(s), i)))
  {
    hide ApplySim, Topped;
    InputGoesOn(v.Of(s).g, i);
  }

  lemma DoDecides(b: Bout, a: Act)
    requires Decided(b.v) && NoneQueued(b.v)
    ensures Decided(Do(b, a).v) && NoneQueued(Do(b, a).v)
  {
    hide Decided, NoneQueued, Apply, VTick;
    match a
    case DoInput(s, i, n) => if Fresh(b, s, i, n) && !Barred(b, i) { ActDecides(b.v, s, i); }
    case DoGrant(s, w, f) =>
      var lands := w.Some? && GrantLands(b, s, w.value);
      var b' := if lands then Recorded(b, s, GrantIn(w.value)) else b;
      if lands { ActDecides(b.v, s, GrantIn(w.value)); }
      if f != 0 { ActDecides(b'.v, s, FundsIn(f)); }
    case DoReset(s) =>
    case DoTick(dt) => TickDecides(b.v, dt);
  }

  lemma {:induction false} RunDecides(b: Bout, acts: seq<Act>)
    requires Decided(b.v) && NoneQueued(b.v)
    ensures Decided(BoutLog.Run(b, acts).v)
    decreases |acts|
  {
    hide Decided, NoneQueued, Do;
    if acts != [] {
      DoDecides(b, acts[0]);
      RunDecides(Do(b, acts[0]), acts[1..]);
    }
  }

  lemma StartDecides(seedA: Word, seedB: Word)
    ensures Decided(NewBout(seedA, seedB).v) && NoneQueued(NewBout(seedA, seedB).v)
  {
    hide NewPlayer;
    LimitRuns.StartsSo(seedA);
    LimitRuns.StartsSo(seedB);
  }

  /** In every match that can come about the result is 0 while neither game is over, 2 once A's
      is, and 1 once B's is and A's is not: the side that tops out loses, and A does when both
      top out in the same tick. */
  lemma TheOneToppedOutLoses(seedA: Word, seedB: Word, acts: seq<Act>)
    ensures var v := BoutLog.Run(NewBout(seedA, seedB), acts).v;
      && 0 <= v.result <= 2
      && (v.result == 0 <==> v.a.g.motion.phase != Over && v.b.g.motion.phase != Over)
      && (v.result == 2 <==> v.a.g.motion.phase == Over)
      && (v.result == 1 <==> v.b.g.motion.phase == Over && v.a.g.motion.phase != Over)
  {
    hide BoutLog.Run, NewBout;
    StartDecides(seedA, seedB);
    RunDecides(NewBout(seedA, seedB), acts);
  }

  /** Each client is told so: 0 while both games run, 2 when its own side lost, 1 when it won. */
  lemma EachIsToldSo(seedA: Word, seedB: Word, acts: seq<Act>)
    ensures var v := BoutLog.Run(NewBout(seedA, seedB), acts).v;
      var aEnded, bEnded := v.a.g.motion.phase == Over, v.b.g.motion.phase == Over;
      && Sessions.ResultFor(v, A) == (if aEnded then 2 else if bEnded then 1 else 0)
      && Sessions.ResultFor(v, B) == (if aEnded then 1 else if bEnded then 2 else 0)
  {
    hide BoutLog.Run, NewBout;
    TheOneToppedOutLoses(seedA, seedB, acts);
  }
}
