/** The two-player mirror: each side always knows the other's line total, both see the same
    countdown, and the bazaar opens for both or for neither. */
module MirrorLaws {
  import opened Weapons
  import opened Arsenals
  import opened Rng
  import opened Engine
  import opened Inputs
  import opened TallyLaws
  import opened VersusMatch
  import opened BoutLog

  predicate AllScores(ev: seq<GameEvent>, l: int)
  { forall e :: e in ev && e.Scored? ==> e.totalLines == l }

  // An event a relay pass can leave behind for the next one.
  predicate Leftover(e: GameEvent, l: int) { e == EnterBazaar || (e.Scored? && e.totalLines == l) }

  predicate AllLeftover(ev: seq<GameEvent>, l: int) { forall e :: e in ev ==> Leftover(e, l) }

  // Line totals mirrored, countdowns right, and every queued announcement up to date.
  ghost predicate Settled(v: Versus)
  {
    && v.a.g.tally.opLines == v.b.g.tally.lines && v.b.g.tally.opLines == v.a.g.tally.lines
    && CountdownShown(v.a.g) && CountdownShown(v.b.g)
    && AllScores(v.a.ev, v.a.g.tally.lines) && AllScores(v.b.ev, v.b.g.tally.lines)
  }

  lemma {:induction false} AllScoresLast(ev: seq<GameEvent>, l: int)
    requires AllScores(ev, l)
    ensures LastLines(ev, l) == l && SmallSteps(ev, l)
  {
    if ev != [] {
      assert ev[|ev| - 1] in ev;
      AllScoresLast(ev[..|ev| - 1], l);
    }
  }

  // ----- one relayed event -----

  predicate SameLines(p: Player, q: Player)
  {
    && q.g.tally.lines == p.g.tally.lines && q.g.tally.opLines == p.g.tally.opLines
    && q.g.tally.tilBazaar == p.g.tally.tilBazaar && q.g.tally.inBazaar == p.g.tally.inBazaar
  }

  // The attacker gains announcements of its current total only; the victim's mirror
  // becomes the last announced total.
  ghost predicate RelayLaw(att: Player, vic: Player, evs: seq<GameEvent>, r: Relayed)
  {
    && SameLines(att, r.att)
    && att.ev <= r.att.ev && AllLeftover(r.att.ev[|att.ev|..], att.g.tally.lines)
    && r.vic.g.tally.lines == vic.g.tally.lines
    && r.vic.g.tally.opLines == LastLines(evs, vic.g.tally.opLines)
    && (CountdownShown(vic.g) ==> CountdownShown(r.vic.g))
    && vic.ev <= r.vic.ev && AllLeftover(r.vic.ev[|vic.ev|..], vic.g.tally.lines)
    && (vic.g.tally.inBazaar ==> r.vic.g.tally.inBazaar)
    && (r.vic.g.tally.inBazaar <==> vic.g.tally.inBazaar || EnterBazaar in r.vic.ev[|vic.ev|..])
    && (CountdownShown(vic.g) && SmallSteps(evs, vic.g.tally.opLines) ==>
          && Rounds(vic.g) <= Rounds(r.vic.g)
          && (r.vic.g.tally.inBazaar <==> vic.g.tally.inBazaar || Rounds(vic.g) < Rounds(r.vic.g)))
  }

  lemma AddFundsAnnounces(p: Player, n: int)
    ensures var q := Advance(p, AddFunds(p.g, n));
      SameLines(p, q) && p.ev <= q.ev && AllLeftover(q.ev[|p.ev|..], p.g.tally.lines)
      && EnterBazaar !in q.ev[|p.ev|..]
  {
    var s := AddFunds(p.g, n);
    assert (p.ev + s.ev)[|p.ev|..] == s.ev;
  }

  lemma DeliverLaw(att: Player, vic: Player, t: WeaponToken)
    ensures var r := Deliver(att, vic, t);
      && SameLines(att, r.att) && SameLines(vic, r.vic) && r.vic.ev == vic.ev
      && att.ev <= r.att.ev && AllLeftover(r.att.ev[|att.ev|..], att.g.tally.lines)
  {
    hide ExportBoard, On, AddFunds;
    if !On(att.g, MIRROR) && t == KEATING { AddFundsAnnounces(att, vic.g.tally.funds); }
  }

  lemma ScoreLaw(vic: Player, sc: int, l: int, f: int)
    ensures var q := Apply(vic, OpScoreIn(sc, l, f));
      && q.g.tally.lines == vic.g.tally.lines && q.g.tally.opLines == l && CountdownShown(q.g)
      && vic.ev <= q.ev && AllLeftover(q.ev[|vic.ev|..], vic.g.tally.lines)
      && (q.g.tally.inBazaar <==> vic.g.tally.inBazaar || EnterBazaar in q.ev[|vic.ev|..])
      && (CountdownShown(vic.g) && 0 <= l - vic.g.tally.opLines < 20 ==>
            && Rounds(vic.g) <= Rounds(q.g)
            && (q.g.tally.inBazaar <==> vic.g.tally.inBazaar || Rounds(vic.g) < Rounds(q.g)))
  {
    hide ReceiveOpLines;
    ReceiveKept(vic.g, l);
    var s := ReceiveOpLines(vic.g, l);
    assert (vic.ev + s.ev)[|vic.ev|..] == s.ev;
  }

  lemma RelayOneLaw(att: Player, vic: Player, e: GameEvent)
    ensures RelayLaw(att, vic, [e], RelayOne(att, vic, e))
  {
    hide Deliver, AddFunds, Apply, On;
    assert [e][..0] == [];
    assert att.ev[|att.ev|..] == [] && vic.ev[|vic.ev|..] == [];
    assert !e.Scored? ==> LastLines([e], vic.g.tally.opLines) == vic.g.tally.opLines;
    match e
    case WeaponLaunched(t) => if !IsSpy(t) { DeliverLaw(att, vic, t); }
    case Scored(s, l, f) => ScoreLaw(vic, s, l, f);
    case FundsStolen(n) => AddFundsAnnounces(vic, n);
    case _ =>
  }

  lemma RelayLawThen(att: Player, vic: Player, e: GameEvent, rest: seq<GameEvent>, r: Relayed, s: Relayed)
    requires RelayLaw(att, vic, [e], r) && RelayLaw(r.att, r.vic, rest, s)
    ensures RelayLaw(att, vic, [e] + rest, Then(r, s))
  {
    LastLinesConcat([e], rest, vic.g.tally.opLines);
    SplitTail(att.ev, r.att.ev, s.att.ev);
    SplitTail(vic.ev, r.vic.ev, s.vic.ev);
  }

  lemma SplitTail(a: seq<GameEvent>, b: seq<GameEvent>, c: seq<GameEvent>)
    requires a <= b && b <= c
    ensures a <= c && c[|a|..] == b[|a|..] + c[|b|..]
  {}

  lemma {:induction false} RelayAllLaw(att: Player, vic: Player, evs: seq<GameEvent>)
    ensures RelayLaw(att, vic, evs, RelayAll(att, vic, evs))
    decreases |evs|
  {
    hide RelayOne;
    if evs == [] {
    } else {
      hide RelayLaw;
      var r := RelayOne(att, vic, evs[0]);
      RelayOneLaw(att, vic, evs[0]);
      RelayAllLaw(r.att, r.vic, evs[1..]);
      RelayLawThen(att, vic, evs[0], evs[1..], r, RelayAll(r.att, r.vic, evs[1..]));
      assert [evs[0]] + evs[1..] == evs;
    }
  }

  // ----- a whole pass -----

  // Before a relay pass: the last announcement queued by each side is its line total.
  ghost predicate Primed(v: Versus)
  {
    && LastLines(v.a.ev, v.b.g.tally.opLines) == v.a.g.tally.lines
    && LastLines(v.b.ev, v.a.g.tally.opLines) == v.b.g.tally.lines
    && CountdownShown(v.a.g) && CountdownShown(v.b.g)
  }

  lemma TickPrimes(v: Versus, dt: int)
    requires Settled(v)
    ensures Primed(TickBoth(v, dt))
  {
    hide Tick;
    AllScoresLast(v.a.ev, v.a.g.tally.lines);
    AllScoresLast(v.b.ev, v.b.g.tally.lines);
    if !v.Frozen() {
      TickKept(v.a.g, dt);
      TickKept(v.b.g, dt);
      LastLinesConcat(v.a.ev, Tick(v.a.g, dt).ev, v.a.g.tally.lines);
      LastLinesConcat(v.b.ev, Tick(v.b.g, dt).ev, v.b.g.tally.lines);
    }
  }

  // What a pass leaves queued is only up-to-date announcements and bazaar openings.
  ghost predicate OnlyLeftovers(v: Versus)
  { AllLeftover(v.a.ev, v.a.g.tally.lines) && AllLeftover(v.b.ev, v.b.g.tally.lines) }

  lemma RelaySettles(v: Versus)
    requires Primed(v)
    ensures Settled(Relay(v)) && OnlyLeftovers(Relay(v))
  {
    var r, s := FirstHalf(v), SecondHalf(v);
    RelayAllLaw(v.a.(ev := []), v.b, v.a.ev);
    RelayAllLaw(r.vic.(ev := []), r.att, r.vic.ev);
    hide RelayAll;
    var tail := r.vic.ev[|v.b.ev|..];
    assert r.vic.ev == v.b.ev + tail;
    assert r.att.ev == r.att.ev[0..];
    LastLinesConcat(v.b.ev, tail, v.a.g.tally.opLines);
    AllScoresLast(tail, v.b.g.tally.lines);
    var out := Relay(v);
    assert out.b.ev == s.att.ev[0..];
    SplitTail([], r.att.ev, s.vic.ev);
    assert out.a.ev == r.att.ev + s.vic.ev[|r.att.ev|..];
  }

  /** After every tick both line mirrors and both countdowns are right, and nothing but
      up-to-date announcements and bazaar openings waits for the next pass. */
  lemma MirrorAfterTick(v: Versus, dt: int)
    requires Settled(v)
    ensures Settled(VTick(v, dt))
    ensures v.result == 0 ==> OnlyLeftovers(VTick(v, dt))
  {
    hide Relay, TickBoth;
    if v.result == 0 {
      TickPrimes(v, dt);
      RelaySettles(TickBoth(v, dt));
    }
  }

  // ----- entering the bazaar -----

  // Each single clear of the tick is under 20 lines.
  ghost predicate SmallClears(g: Sim, dt: int) { SmallSteps(Tick(g, dt).ev, g.tally.lines) }

  function Combined(v: Versus): int { v.a.g.tally.lines + v.b.g.tally.lines }

  lemma QueueSmall(p: Player, dt: int)
    requires AllScores(p.ev, p.g.tally.lines) && SmallClears(p.g, dt)
    ensures SmallSteps(Advance(p, Tick(p.g, dt)).ev, p.g.tally.lines)
  {
    hide Tick;
    AllScoresLast(p.ev, p.g.tally.lines);
    LastLinesConcat(p.ev, Tick(p.g, dt).ev, p.g.tally.lines);
  }

  /** A tick that starts unfrozen opens the bazaar for both sides or for neither, exactly
      when the combined total passes a multiple of 20, whoever cleared the lines. */
  lemma JointEntry(v: Versus, dt: int)
    requires Settled(v) && v.result == 0 && !v.Frozen()
    requires SmallClears(v.a.g, dt) && SmallClears(v.b.g, dt)
    ensures var w := VTick(v, dt);
      && (w.a.g.tally.inBazaar <==> Combined(v) / 20 < Combined(w) / 20)
      && (w.b.g.tally.inBazaar <==> Combined(v) / 20 < Combined(w) / 20)
  {
    hide Tick, Relay, SmallClears;
    var t := TickBoth(v, dt);
    QueueSmall(v.a, dt);
    QueueSmall(v.b, dt);
    TickPrimes(v, dt);
    TickRounds(v.a.g, dt);
    TickRounds(v.b.g, dt);
    RelayEntry(t);
  }

  lemma TickRounds(g: Sim, dt: int)
    requires SmallClears(g, dt) && CountdownShown(g) && !g.tally.inBazaar
    ensures var s := Tick(g, dt).g;
      && s.tally.opLines == g.tally.opLines
      && Rounds(g) <= Rounds(s) && (s.tally.inBazaar <==> Rounds(g) < Rounds(s))
  {
    hide Tick;
    TickKept(g, dt);
  }

  lemma RelayEntry(t: Versus)
    requires Primed(t)
    requires SmallSteps(t.a.ev, t.b.g.tally.opLines) && SmallSteps(t.b.ev, t.a.g.tally.opLines)
    ensures var w := Relay(t);
      && w.a.g.tally.lines == t.a.g.tally.lines && w.b.g.tally.lines == t.b.g.tally.lines
      && Rounds(t.a.g) <= Combined(t) / 20 && Rounds(t.b.g) <= Combined(t) / 20
      && (w.a.g.tally.inBazaar <==> t.a.g.tally.inBazaar || Rounds(t.a.g) < Combined(t) / 20)
      && (w.b.g.tally.inBazaar <==> t.b.g.tally.inBazaar || Rounds(t.b.g) < Combined(t) / 20)
  {
    var r := FirstHalf(t);
    RelayAllLaw(t.a.(ev := []), t.b, t.a.ev);
    RelayAllLaw(r.vic.(ev := []), r.att, r.vic.ev);
    hide RelayAll;
    var tail := r.vic.ev[|t.b.ev|..];
    assert r.vic.ev == t.b.ev + tail;
    LastLinesConcat(t.b.ev, tail, t.a.g.tally.opLines);
    AllScoresLast(tail, t.b.g.tally.lines);
  }

  // ----- whole runs -----

  predicate HostInput(i: Input) { Legal(i) || i.GrantIn? || i.FundsIn? }

  lemma ApplyKeepsSettled(v: Versus, s: Seat, i: Input)
    requires Settled(v) && HostInput(i)
    ensures Settled(v.With(s, Apply(v.Of(s), i)))
  {
    hide Fits, RotateNow, Buy, Sell, UseSlot, Price, On, DropStep;
    var p := v.Of(s);
    var q := ApplySim(p.g, i);
    assert q.g.tally.lines == p.g.tally.lines && q.g.tally.opLines == p.g.tally.opLines
      && q.g.tally.tilBazaar == p.g.tally.tilBazaar;
    assert AllScores(p.ev + q.ev, p.g.tally.lines);
  }

  lemma DoKeepsSettled(b: Bout, a: Act)
    requires Settled(b.v)
    ensures Settled(Do(b, a).v)
  {
    hide Apply, VTick, Settled;
    match a
    case DoInput(s, i, n) =>
      if Fresh(b, s, i, n) && !Barred(b, i) { ApplyKeepsSettled(b.v, s, i); }
    case DoGrant(s, w, f) =>
      var b' := if w.Some? && GrantLands(b, s, w.value) then Recorded(b, s, GrantIn(w.value)) else b;
      if w.Some? && GrantLands(b, s, w.value) { ApplyKeepsSettled(b.v, s, GrantIn(w.value)); }
      if f != 0 { ApplyKeepsSettled(b'.v, s, FundsIn(f)); }
    case DoReset(s) =>
    case DoTick(dt) => MirrorAfterTick(b.v, dt);
  }

  lemma NewSettled(seedA: Word, seedB: Word)
    ensures Settled(NewVersus(seedA, seedB))
  {
    hide NewGame, Spawn;
    NewGameAnnounces(seedA);
    NewGameAnnounces(seedB);
  }

  lemma NewGameAnnounces(seed: Word)
    ensures var s := NewGame(seed);
      s.g.tally == Tally(0, 0, 0, 0, false, 20) && AllScores(s.ev, 0)
  { var g := Blank(Seeded(seed)); }

  lemma {:induction false} RunKeepsSettled(b: Bout, acts: seq<Act>)
    requires Settled(b.v)
    ensures Settled(Run(b, acts).v)
    decreases |acts|
  {
    hide Do, Settled;
    if acts != [] {
      DoKeepsSettled(b, acts[0]);
      RunKeepsSettled(Do(b, acts[0]), acts[1..]);
    }
  }

  /** Every run of a match, from any seeds, keeps the mirror and the countdown. */
  lemma RunSettled(seedA: Word, seedB: Word, acts: seq<Act>)
    ensures Settled(Run(NewBout(seedA, seedB), acts).v)
  {
    hide NewVersus, Settled, Run;
    NewSettled(seedA, seedB);
    RunKeepsSettled(NewBout(seedA, seedB), acts);
  }
}
