/** Playing back the exported log of a match reproduces both games and the result. The
    playback drops the events each tick leaves queued, which the live match relays one tick
    later; the proof is that this difference never reaches the lockstep state. */
module ReplayLaws {
  import opened Weapons
  import opened Arsenals
  import opened Rng
  import opened Engine
  import opened Inputs
  import opened TallyLaws
  import opened VersusMatch
  import opened BoutLog
  import opened MirrorLaws

  // The same lockstep state, with `pre` still queued on p only.
  predicate Twin(p: Player, q: Player, pre: seq<GameEvent>) { p.g == q.g && p.ev == pre + q.ev }

  ghost predicate TwinRelayed(r: Relayed, s: Relayed, preA: seq<GameEvent>, preV: seq<GameEvent>)
  { Twin(r.att, s.att, preA) && Twin(r.vic, s.vic, preV) && r.over == s.over }

  lemma TwinAdvance(p: Player, q: Player, pre: seq<GameEvent>, s: Step)
    requires Twin(p, q, pre)
    ensures Twin(Advance(p, s), Advance(q, s), pre)
  { assert (pre + q.ev) + s.ev == pre + (q.ev + s.ev); }

  lemma TwinScore(p: Player, q: Player, pre: seq<GameEvent>, s: int, l: int, f: int)
    requires Twin(p, q, pre)
    ensures Twin(Apply(p, OpScoreIn(s, l, f)), Apply(q, OpScoreIn(s, l, f)), pre)
  {
    hide ReceiveOpLines;
    TwinAdvance(p, q, pre, ReceiveOpLines(p.g, l));
  }

  lemma TwinDeliver(a: Player, v: Player, c: Player, w: Player, t: WeaponToken,
                    preA: seq<GameEvent>, preV: seq<GameEvent>)
    requires Twin(a, c, preA) && Twin(v, w, preV)
    ensures TwinRelayed(Deliver(a, v, t), Deliver(c, w, t), preA, preV)
  {
    hide AddFunds, ExportBoard, On, ReceiveWeapon, QueueSwap, Advance, MirrorNullifies;
    if t == KEATING { TwinAdvance(a, c, preA, AddFunds(a.g, v.g.tally.funds)); }
  }

  // Relaying an event reads nothing outside the lockstep state.
  lemma TwinRelayOne(a: Player, v: Player, c: Player, w: Player, e: GameEvent,
                     preA: seq<GameEvent>, preV: seq<GameEvent>)
    requires Twin(a, c, preA) && Twin(v, w, preV)
    ensures TwinRelayed(RelayOne(a, v, e), RelayOne(c, w, e), preA, preV)
  {
    hide AddFunds, Apply, Deliver, On, Advance;
    match e
    case WeaponLaunched(t) => TwinDeliver(a, v, c, w, t, preA, preV);
    case Scored(s, l, f) => TwinScore(v, w, preV, s, l, f);
    case FundsStolen(n) => TwinAdvance(v, w, preV, AddFunds(v.g, n));
    case _ =>
  }

  lemma {:induction false} TwinRelayAll(a: Player, v: Player, c: Player, w: Player, evs: seq<GameEvent>,
                                        preA: seq<GameEvent>, preV: seq<GameEvent>)
    requires Twin(a, c, preA) && Twin(v, w, preV)
    ensures TwinRelayed(RelayAll(a, v, evs), RelayAll(c, w, evs), preA, preV)
    decreases |evs|
  {
    hide RelayOne;
    if evs != [] {
      TwinRelayOne(a, v, c, w, evs[0], preA, preV);
      var r, s := RelayOne(a, v, evs[0]), RelayOne(c, w, evs[0]);
      TwinRelayAll(r.att, r.vic, s.att, s.vic, evs[1..], preA, preV);
    }
  }

  lemma {:induction false} RelayConcat(att: Player, vic: Player, x: seq<GameEvent>, y: seq<GameEvent>)
    ensures var r := RelayAll(att, vic, x);
      var s := RelayAll(r.att, r.vic, y);
      var t := RelayAll(att, vic, x + y);
      t.att == s.att && t.vic == s.vic && t.over == (r.over || s.over)
    decreases |x|
  {
    hide RelayOne;
    if x == [] {
      assert x + y == y;
    } else {
      var r := RelayOne(att, vic, x[0]);
      RelayConcat(r.att, r.vic, x[1..], y);
      assert (x + y)[1..] == x[1..] + y;
    }
  }

  // A mirrored announcement repeated changes only the display mirrors.
  lemma RepeatIsSilent(g: Sim)
    requires CountdownShown(g)
    ensures ReceiveOpLines(g, g.tally.opLines) == Step(g, [])
  {}

  lemma {:induction false} LeftoversAreSilent(att: Player, vic: Player, pre: seq<GameEvent>)
    requires AllLeftover(pre, vic.g.tally.opLines) && CountdownShown(vic.g)
    ensures var r := RelayAll(att, vic, pre);
      r.att == att && r.vic.g == vic.g && r.vic.ev == vic.ev && !r.over
    decreases |pre|
  {
    hide ReceiveOpLines;
    if pre != [] {
      var e := pre[0];
      assert e in pre;
      RepeatIsSilent(vic.g);
      var r := RelayOne(att, vic, e);
      assert r.att == att && r.vic.g == vic.g && r.vic.ev == vic.ev && !r.over;
      LeftoversAreSilent(att, r.vic, pre[1..]);
    }
  }

  // One half of a pass, the live side with leftovers in front of the queue.
  lemma HalfTwins(a: Player, v: Player, c: Player, w: Player, pre: seq<GameEvent>, evs: seq<GameEvent>,
    preV: seq<GameEvent>)
    requires Twin(a, c, []) && Twin(v, w, preV)
    requires AllLeftover(pre, v.g.tally.opLines) && CountdownShown(v.g)
    ensures TwinRelayed(RelayAll(a, v, pre + evs), RelayAll(c, w, evs), [], preV)
  {
    hide RelayAll, CountdownShown;
    LeftoversAreSilent(a, v, pre);
    RelayConcat(a, v, pre, evs);
    var r := RelayAll(a, v, pre);
    TwinRelayAll(r.att, r.vic, c, w, evs, [], preV);
  }

  // ----- a whole tick -----

  // w plays back what v played live: same games and result; while the match is on, the
  // live queues may still hold leftovers in front.
  ghost predicate Follows(v: Versus, w: Versus)
  {
    && v.result == w.result && v.a.g == w.a.g && v.b.g == w.b.g
    && Settled(v)
    && (v.result == 0 ==> exists x, y :: Behind(v, w, x, y))
  }

  ghost predicate Behind(v: Versus, w: Versus, x: seq<GameEvent>, y: seq<GameEvent>)
  {
    && v.a.ev == x + w.a.ev && AllLeftover(x, v.a.g.tally.lines)
    && v.b.ev == y + w.b.ev && AllLeftover(y, v.b.g.tally.lines)
  }

  lemma RelayTwins(v: Versus, w: Versus, x: seq<GameEvent>, y: seq<GameEvent>)
    requires v.result == 0 && w.result == 0
    requires Twin(v.a, w.a, x) && Twin(v.b, w.b, y)
    requires CountdownShown(v.a.g) && CountdownShown(v.b.g)
    requires AllLeftover(x, v.b.g.tally.opLines) && AllLeftover(y, v.a.g.tally.opLines)
    ensures var p, q := Relay(v), Relay(w);
      p.result == q.result && Twin(p.a, q.a, []) && Twin(p.b, q.b, [])
  {
    hide RelayAll, CountdownShown;
    HalfTwins(v.a.(ev := []), v.b, w.a.(ev := []), w.b, x, w.a.ev, y);
    var r, s := FirstHalf(v), FirstHalf(w);
    RelayAllLaw(v.a.(ev := []), v.b, v.a.ev);
    SameCountdown(v.a.g, r.att.g);
    HalfTwins(r.vic.(ev := []), r.att, s.vic.(ev := []), s.att, y, s.vic.ev, []);
  }

  lemma SameCountdown(g: Sim, h: Sim)
    requires g.tally.lines == h.tally.lines && g.tally.opLines == h.tally.opLines
    requires g.tally.tilBazaar == h.tally.tilBazaar
    ensures CountdownShown(g) == CountdownShown(h)
  {}

  lemma TickFollows(v: Versus, w: Versus, dt: int)
    requires Follows(v, w)
    ensures Follows(VTick(v, dt), Drained(VTick(w, dt)))
  {
    hide Tick, Relay;
    MirrorAfterTick(v, dt);
    if v.result == 0 {
      var x, y :| Behind(v, w, x, y);
      var p, q := TickBoth(v, dt), TickBoth(w, dt);
      TickKept(v.a.g, dt);
      TickKept(v.b.g, dt);
      var sa, sb := Tick(v.a.g, dt), Tick(v.b.g, dt);
      TwinAdvance(v.a, w.a, x, sa);
      TwinAdvance(v.b, w.b, y, sb);
      RelayTwins(p, q, x, y);
      var live, played := VTick(v, dt), Drained(VTick(w, dt));
      assert live.a.ev + [] == live.a.ev && live.b.ev + [] == live.b.ev;
      assert Behind(live, played, live.a.ev, live.b.ev);
    }
  }

  lemma InputFollows(v: Versus, w: Versus, s: Seat, i: Input)
    requires Follows(v, w) && HostInput(i)
    ensures Follows(v.With(s, Apply(v.Of(s), i)), w.With(s, Apply(w.Of(s), i)))
  {
    hide ApplySim, Settled;
    ApplyKeepsSettled(v, s, i);
    var p := v.Of(s);
    var st := ApplySim(p.g, i);
    var v', w' := v.With(s, Apply(v.Of(s), i)), w.With(s, Apply(w.Of(s), i));
    LinesByInput(p.g, i);
    if v.result == 0 {
      var x, y :| Behind(v, w, x, y);
      assert (x + w.a.ev) + st.ev == x + (w.a.ev + st.ev);
      assert (y + w.b.ev) + st.ev == y + (w.b.ev + st.ev);
      assert Behind(v', w', x, y);
    }
  }

  lemma LinesByInput(g: Sim, i: Input)
    requires HostInput(i)
    ensures ApplySim(g, i).g.tally.lines == g.tally.lines
  { hide Fits, RotateNow, Buy, Sell, UseSlot, Price, On, DropStep; }

  // ----- the recorded frames -----

  function PlayAll(v: Versus, fs: seq<VersusFrame>): Versus
    decreases |fs|
  {
    if fs == [] then v
    else PlayAll(v.With(fs[0].seat, Apply(v.Of(fs[0].seat), fs[0].input)), fs[1..])
  }

  lemma {:induction false} PlayAllSnoc(v: Versus, fs: seq<VersusFrame>, f: VersusFrame)
    ensures PlayAll(v, fs + [f]) == (var w := PlayAll(v, fs); w.With(f.seat, Apply(w.Of(f.seat), f.input)))
    decreases |fs|
  {
    hide Apply;
    if fs == [] {
      assert fs + [f] == [f];
      assert [f][1..] == [];
      assert [f][0] == f;
    } else {
      var u := v.With(fs[0].seat, Apply(v.Of(fs[0].seat), fs[0].input));
      PlayAllSnoc(u, fs[1..], f);
      assert (fs + [f])[1..] == fs[1..] + [f];
    }
  }

  // The cursor stops at n, the first frame of a later tick.
  lemma {:induction false} PlayFramesStops(v: Versus, fs: seq<VersusFrame>, k: nat, c: nat, n: nat)
    requires c <= n <= |fs|
    requires forall i :: c <= i < n ==> fs[i].stamp == k
    requires n < |fs| ==> fs[n].stamp != k
    ensures PlayFrames(v, fs, k, c) == (PlayAll(v, fs[c..n]), n)
    decreases n - c
  {
    hide Apply;
    if c < n {
      var u := v.With(fs[c].seat, Apply(v.Of(fs[c].seat), fs[c].input));
      PlayFramesStops(u, fs, k, c + 1, n);
      assert fs[c..n][0] == fs[c] && fs[c..n][1..] == fs[c + 1..n];
    }
  }

  lemma DoExtends(b: Bout, a: Act)
    ensures b.frames <= Do(b, a).frames && b.tick <= Do(b, a).tick
    ensures forall i :: |b.frames| <= i < |Do(b, a).frames| ==> Do(b, a).frames[i].stamp == b.tick % MOD32
    ensures a.DoTick? ==> Do(b, a).frames == b.frames && Do(b, a).tick == b.tick + 1
    ensures !a.DoTick? ==> Do(b, a).tick == b.tick
  { hide Apply, VTick; }

  lemma {:induction false} RunExtends(b: Bout, acts: seq<Act>)
    requires Run(b, acts).tick < MOD32
    ensures b.frames <= Run(b, acts).frames && b.tick <= Run(b, acts).tick
    ensures forall i :: |b.frames| <= i < |Run(b, acts).frames| ==> Run(b, acts).frames[i].stamp >= b.tick
    decreases |acts|
  {
    hide Do;
    if acts != [] {
      DoExtends(b, acts[0]);
      RunExtends(Do(b, acts[0]), acts[1..]);
    }
  }

  // Every batch of inputs is followed by a tick of the fixed length.
  predicate Batched(acts: seq<Act>, dt: int)
  {
    && (forall k :: 0 <= k < |acts| && acts[k].DoTick? ==> acts[k].dt == dt)
    && (acts != [] ==> acts[|acts| - 1].DoTick?)
  }

  // Playback has executed the match's ticks, with this tick's frames still to apply.
  ghost predicate InStep(b: Bout, fs: seq<VersusFrame>, p: Playback)
  {
    && b.frames <= fs && p.executed == b.tick && p.cursor <= |b.frames|
    && (forall i :: p.cursor <= i < |b.frames| ==> fs[i].stamp == b.tick)
    && Follows(b.v, PlayAll(p.v, b.frames[p.cursor..]))
  }

  lemma RecordedInStep(b: Bout, fs: seq<VersusFrame>, p: Playback, s: Seat, i: Input)
    requires InStep(b, fs, p) && HostInput(i) && b.tick < MOD32
    requires Recorded(b, s, i).frames <= fs
    ensures InStep(Recorded(b, s, i), fs, p)
  {
    hide Follows, Apply, PlayAll, HostInput;
    var b' := Recorded(b, s, i);
    var f := VersusFrame(b.tick % MOD32, s, i);
    PlayAllSnoc(p.v, b.frames[p.cursor..], f);
    assert b'.frames[p.cursor..] == b.frames[p.cursor..] + [f];
    InputFollows(b.v, PlayAll(p.v, b.frames[p.cursor..]), s, i);
    assert fs[|b.frames|] == b'.frames[|b.frames|] == f;
  }

  lemma ActInStep(b: Bout, fs: seq<VersusFrame>, p: Playback, a: Act)
    requires InStep(b, fs, p) && !a.DoTick? && b.tick < MOD32
    requires Do(b, a).frames <= fs
    ensures InStep(Do(b, a), fs, p)
  {
    hide Follows, Apply, Legal;
    match a
    case DoInput(s, i, n) =>
      if Fresh(b, s, i, n) && !Barred(b, i) { RecordedInStep(b.WithAck(s, n), fs, p, s, i); }
    case DoGrant(s, w, f) =>
      var b' := if w.Some? && GrantLands(b, s, w.value) then Recorded(b, s, GrantIn(w.value)) else b;
      if w.Some? && GrantLands(b, s, w.value) { RecordedInStep(b, fs, p, s, GrantIn(w.value)); }
      if f != 0 { RecordedInStep(b', fs, p, s, FundsIn(f)); }
    case DoReset(s) =>
  }

  lemma TickInStep(b: Bout, r: VersusReplay, p: Playback)
    requires InStep(b, r.frames, p) && b.tick < r.tickCount
    requires |b.frames| < |r.frames| ==> r.frames[|b.frames|].stamp != b.tick
    ensures InStep(BTick(b, r.dt), r.frames, PlayStep(r, p))
    ensures PlayStep(r, p).cursor == |b.frames|
  {
    hide VTick, Follows, PlayAll, Drained;
    var n := |b.frames|;
    PlayFramesStops(p.v, r.frames, b.tick, p.cursor, n);
    assert r.frames[p.cursor..n] == b.frames[p.cursor..];
    TickFollows(b.v, PlayAll(p.v, b.frames[p.cursor..]), r.dt);
    assert b.frames[n..] == [];
    PlayNothing(PlayStep(r, p).v);
  }

  lemma PlayNothing(v: Versus)
    ensures PlayAll(v, []) == v
  {}

  lemma {:induction false} PlaybackFollows(b: Bout, acts: seq<Act>, r: VersusReplay, p: Playback)
    requires Batched(acts, r.dt) && Run(b, acts).tick < MOD32
    requires r.frames == Run(b, acts).frames && r.tickCount == Run(b, acts).tick
    requires InStep(b, r.frames, p)
    requires acts == [] ==> p.cursor == |b.frames|
    ensures Follows(Run(b, acts).v, PlayToEnd(r, p).v)
    decreases |acts|
  {
    hide Do, Follows, PlayStep, PlayAll;
    if acts == [] {
      assert b.frames[p.cursor..] == [];
      PlayNothing(p.v);
    } else {
      var b' := Do(b, acts[0]);
      DoExtends(b, acts[0]);
      RunExtends(b', acts[1..]);
      if acts[0].DoTick? {
        TickInStep(b, r, p);
        assert b' == BTick(b, r.dt) by { DoTickIs(b, acts[0]); }
        PlaybackFollows(b', acts[1..], r, PlayStep(r, p));
      } else {
        ActInStep(b, r.frames, p, acts[0]);
        PlaybackFollows(b', acts[1..], r, p);
      }
    }
  }

  lemma DoTickIs(b: Bout, a: Act)
    requires a.DoTick?
    ensures Do(b, a) == BTick(b, a.dt)
  {}

  lemma FreshFollows(seedA: Word, seedB: Word)
    ensures Follows(NewVersus(seedA, seedB), NewVersus(seedA % MOD32, seedB % MOD32))
  {
    NewSettled(seedA, seedB);
    hide Spawn, Settled;
    var v, w := NewVersus(seedA, seedB), NewVersus(seedA % MOD32, seedB % MOD32);
    assert v == w;
    assert Behind(v, w, [], []);
  }

  /** Any run of a match whose every input batch is followed by a tick of the fixed length,
      with admin grants and reconnects anywhere, is reproduced by its exported log: both
      games and the result come out exactly, from the seeds' low 32 bits. */
  lemma ReplayReproduces(seedA: Word, seedB: Word, acts: seq<Act>, dt: int)
    requires Batched(acts, dt) && Run(NewBout(seedA, seedB), acts).tick < MOD32
    ensures var b := Run(NewBout(seedA, seedB), acts);
      var r := ToReplay(b, dt);
      var w := PlayToEnd(r, StartPlayback(r)).v;
      w.a.g == b.v.a.g && w.b.g == b.v.b.g && w.result == b.v.result
  {
    hide Do, NewVersus, PlayStep;
    var b0 := NewBout(seedA, seedB);
    var b := Run(b0, acts);
    var r := ToReplay(b, dt);
    RunKeepsSeeds(b0, acts);
    var p := StartPlayback(r);
    FreshFollows(seedA, seedB);
    assert b0.frames[0..] == [];
    PlaybackFollows(b0, acts, r, p);
  }

  lemma {:induction false} RunKeepsSeeds(b: Bout, acts: seq<Act>)
    ensures Run(b, acts).seedA == b.seedA && Run(b, acts).seedB == b.seedB
    decreases |acts|
  {
    if acts != [] {
      DoKeepsSeeds(b, acts[0]);
      hide Do;
      RunKeepsSeeds(Do(b, acts[0]), acts[1..]);
    }
  }

  lemma DoKeepsSeeds(b: Bout, a: Act)
    ensures Do(b, a).seedA == b.seedA && Do(b, a).seedB == b.seedB
  { hide Apply, VTick; }
}
