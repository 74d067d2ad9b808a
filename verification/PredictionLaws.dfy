/** Between keyframe triggers a client that applies the same inputs and the forwarded events
    at the same points stays equal to its side of the match, lock hashes included; after a
    keyframe it equals the server's state with the unacknowledged inputs applied. */
module PredictionLaws {
  import opened Wrappers
  import opened Weapons
  import opened Boards
  import opened Arsenals
  import opened Engine
  import opened Inputs
  import opened VersusMatch
  import opened BoutLog
  import opened ChannelLaws
  import opened Prediction

  // ----- locks -----

  // The same lock, or the next one.
  predicate OneLock(g: Sim, h: Sim)
  { (h.lockSeq == g.lockSeq && h.lockHash == g.lockHash) || h.lockSeq == g.lockSeq + 1 }

  lemma PlaceLocksOnce(g: Sim)
    ensures OneLock(g, Place(g).g)
  { hide Lock, Fits; if g.motion.current.Some? { LockAdvances(g); } }

  lemma LockAdvances(g: Sim)
    requires g.motion.current.Some?
    ensures Lock(g).g.lockSeq == g.lockSeq + 1
  {}

  lemma SlideLocksOnce(g: Sim, step: int)
    requires step >= 0
    ensures OneLock(g, Slide(g, step).g)
  {
    hide Place;
    if g.motion.phase == Sliding && (step == 0 || g.motion.slideAccum >= step) {
      var g' := if step == 0 then g else g.(motion := g.motion.(slideAccum := g.motion.slideAccum - step));
      PlaceLocksOnce(g');
      if step > 0 { AfterPlace(g', step); }
    }
  }

  // One round of the slide loop settles it: the piece has locked, or falls again, or is
  // gone, in which case nothing more can lock.
  lemma {:induction false} AfterPlace(g: Sim, step: int)
    requires step > 0
    ensures var h := Place(g).g; Slide(h, step).g.lockSeq == h.lockSeq && Slide(h, step).g.lockHash == h.lockHash
    decreases g.motion.slideAccum
  {
    hide Lock, Fits;
    var h := Place(g).g;
    if g.motion.current.None? && g.motion.phase == Sliding && g.motion.slideAccum >= step {
      var g' := g.(motion := g.motion.(slideAccum := g.motion.slideAccum - step));
      AfterPlace(g', step);
    }
  }

  /** One clock tick makes at most one lock. */
  lemma TickLocksOnce(g: Sim, dt: int)
    ensures OneLock(g, Tick(g, dt).g)
  {
    hide Slide, Fall, TickWeapons;
    if !Halted(g) && dt > 0 {
      var w := TickWeapons(g, dt);
      if w.motion.phase == Sliding {
        SlideLocksOnce(w.(motion := w.motion.(slideAccum := w.motion.slideAccum + dt)), Max(w.motion.slideTime, 0));
      }
    }
  }

  /** No input and no forwarded effect ever locks a piece. */
  lemma InputNeverLocks(g: Sim, i: Input)
    ensures ApplySim(g, i).g.lockSeq == g.lockSeq && ApplySim(g, i).g.lockHash == g.lockHash
  { hide Fits, RotateNow, Buy, Sell, UseSlot, Price, On, DropStep, InsertLines; }

  lemma {:induction false} EventsNeverLock(p: Player, es: seq<RelayEvent>)
    ensures ApplyEvents(p, es).g.lockSeq == p.g.lockSeq && ApplyEvents(p, es).g.lockHash == p.g.lockHash
    decreases |es|
  {
    hide ApplySim;
    if es != [] {
      InputNeverLocks(p.g, ToInput(es[0]));
      EventsNeverLock(Apply(p, ToInput(es[0])), es[1..]);
    }
  }

  // ----- the client's half of a match -----

  function OnEvents(c: Predictor, es: seq<RelayEvent>): Predictor
    decreases |es|
  { if es == [] then c else OnEvents(OnEvent(c, ToInput(es[0])), es[1..]) }

  // What the client of seat s does while the server does a.
  function Follow(c: Predictor, b: Bout, s: Seat, a: Act): Predictor
  {
    match a
    case DoInput(who, i, n) => if who == s && Fresh(b, s, i, n) then Predict(c, i) else c
    case DoTick(dt) => OnEvents(ClientTick(c, dt), SentTo(TickBoth(b.v, dt), s))
    case _ => c
  }

  function FollowRun(c: Predictor, b: Bout, s: Seat, acts: seq<Act>): Predictor
    decreases |acts|
  { if acts == [] then c else FollowRun(Follow(c, b, s, acts[0]), Do(b, acts[0]), s, acts[1..]) }

  // No keyframe trigger: play is on, nothing is exchanged, nothing is granted to this seat.
  predicate NoTrigger(b: Bout, s: Seat, a: Act)
  {
    && !b.v.Frozen() && b.v.result == 0
    && (a.DoTick? ==> !Exchanges(TickBoth(b.v, a.dt)))
    && (a.DoGrant? ==> a.to != s)
  }

  predicate Untriggered(b: Bout, s: Seat, acts: seq<Act>)
    decreases |acts|
  { acts == [] || (NoTrigger(b, s, acts[0]) && Untriggered(Do(b, acts[0]), s, acts[1..])) }

  // The client holds its side's game, sees no barrier, and its ring holds only locks that
  // the server's game made too.
  ghost predicate InLockstep(c: Predictor, b: Bout, s: Seat, seen: set<LockPair>)
  {
    && Agree(c.p, b.v.Of(s)) && !c.Walled()
    && c.lastSeen == c.p.g.lockSeq && c.mismatches == 0
    && (forall q :: q in c.ring ==> q in seen)
    && Genuine(c.p.g, seen)
  }

  function PairOf(g: Sim): LockPair { LockPair(g.lockSeq, g.lockHash) }

  // One hash per lock, none later than the game's current lock.
  ghost predicate Genuine(g: Sim, seen: set<LockPair>)
  {
    && PairOf(g) in seen
    && (forall q, r :: q in seen && r in seen && q.no == r.no ==> q == r)
    && (forall q :: q in seen ==> q.no <= g.lockSeq)
  }

  lemma GenuineNext(g: Sim, h: Sim, seen: set<LockPair>)
    requires Genuine(g, seen) && OneLock(g, h)
    ensures Genuine(h, seen + {PairOf(h)})
  {}

  lemma OnEventsIs(c: Predictor, es: seq<RelayEvent>)
    requires c.lastSeen == c.p.g.lockSeq
    ensures OnEvents(c, es) == c.(p := ApplyEvents(c.p, es))
    decreases |es|
  {
    hide ApplySim;
    if es != [] {
      InputNeverLocks(c.p.g, ToInput(es[0]));
      OnEventsIs(OnEvent(c, ToInput(es[0])), es[1..]);
    }
  }

  // What predicting an input does to the game.
  lemma PredictIs(c: Predictor, i: Input)
    requires !c.Walled() && !c.p.g.tally.inBazaar && c.lastSeen == c.p.g.lockSeq && Legal(i)
    ensures var c' := Predict(c, i);
      && c' == c.(p := c'.p, inputSeq := c'.inputSeq, unacked := c'.unacked)
      && c'.p.g == ApplySim(c.p.g, i).g && c'.p.opScore == c.p.opScore
  {
    InputNeverLocks(c.p.g, i);
    assert i.LeaveKey? ==> ApplySim(c.p.g, i) == Step(c.p.g, []);
    assert Shopping(i) ==> !ShopAccepted(c.p.g, i) && ApplySim(c.p.g, i) == Step(c.p.g, []);
    hide ApplySim, ShopAccepted;
  }

  // Nothing a client may submit carries a score, and unfrozen the server applies it.
  lemma SubmittedIs(b: Bout, s: Seat, i: Input, n: nat)
    requires !b.v.Frozen() && Fresh(b, s, i, n)
    ensures !i.OpScoreIn? && !b.v.Of(s).g.tally.inBazaar
    ensures ApplyInput(b, s, i, n) == Recorded(b.WithAck(s, n), s, i)
  { hide Recorded; }

  // An input reaches both copies alike.
  lemma InputStep(c: Predictor, b: Bout, s: Seat, i: Input, n: nat, seen: set<LockPair>)
    requires InLockstep(c, b, s, seen) && !b.v.Frozen() && Fresh(b, s, i, n)
    ensures InLockstep(Predict(c, i), ApplyInput(b, s, i, n), s, seen)
    ensures PairOf(b.v.Of(s).g) == PairOf(ApplyInput(b, s, i, n).v.Of(s).g)
  {
    hide ApplySim, Predict, Legal, ApplyInput, Forwards, BazaarInput;
    SubmittedIs(b, s, i, n);
    PredictIs(c, i);
    InputNeverLocks(c.p.g, i);
    var c', b' := Predict(c, i), ApplyInput(b, s, i, n);
    assert b'.v.Of(s) == Apply(b.v.Of(s), i);
    assert c'.p.g == b'.v.Of(s).g && c'.p.opScore == b'.v.Of(s).opScore;
  }

  // The clock, then the events of the relay pass.
  lemma TickAgrees(c: Predictor, b: Bout, s: Seat, dt: int)
    requires Agree(c.p, b.v.Of(s)) && NoTrigger(b, s, DoTick(dt))
    ensures var t := TickBoth(b.v, dt);
      Agree(ApplyEvents(ClientTick(c, dt).p, SentTo(t, s)), BTick(b, dt).v.Of(s))
  {
    hide Tick, Relay, SentTo, ApplyEvents, Exchanges;
    var t := TickBoth(b.v, dt);
    var c1 := ClientTick(c, dt);
    assert Agree(c1.p, t.Of(s));
    OutboxComplete(t, s);
    ApplyEventsAgree(c1.p, t.Of(s), SentTo(t, s));
  }

  lemma ClientTickIs(c: Predictor, dt: int)
    requires c.lastSeen == c.p.g.lockSeq
    ensures var c' := ClientTick(c, dt);
      && OneLock(c.p.g, c'.p.g) && c'.lastSeen == c'.p.g.lockSeq
      && c' == c.(p := c'.p, ring := c'.ring, lastSeen := c'.lastSeen)
      && (forall q :: q in c'.ring ==> q in c.ring || q == PairOf(c'.p.g))
  {
    hide Tick;
    TickLocksOnce(c.p.g, dt);
  }

  lemma TickStep(c: Predictor, b: Bout, s: Seat, dt: int, seen: set<LockPair>)
    requires InLockstep(c, b, s, seen) && NoTrigger(b, s, DoTick(dt))
    ensures var c' := Follow(c, b, s, DoTick(dt));
      var b' := BTick(b, dt);
      InLockstep(c', b', s, seen + {PairOf(b'.v.Of(s).g)})
  {
    hide ClientTick, BTick, TickBoth, SentTo, ApplyEvents, OnEvents, NoTrigger, OneLock, Genuine;
    var c1 := ClientTick(c, dt);
    var es := SentTo(TickBoth(b.v, dt), s);
    TickAgrees(c, b, s, dt);
    ClientTickIs(c, dt);
    EventsNeverLock(c1.p, es);
    OnEventsIs(c1, es);
    SameLock(c.p.g, c1.p.g, ApplyEvents(c1.p, es).g);
    GenuineNext(c.p.g, ApplyEvents(c1.p, es).g, seen);
  }

  lemma SameLock(g: Sim, h: Sim, k: Sim)
    requires OneLock(g, h) && h.lockSeq == k.lockSeq && h.lockHash == k.lockHash
    ensures OneLock(g, k)
  {}

  lemma OthersStep(c: Predictor, b: Bout, s: Seat, a: Act, seen: set<LockPair>)
    requires InLockstep(c, b, s, seen) && NoTrigger(b, s, a) && !a.DoTick?
    requires a.DoInput? ==> a.seat != s
    ensures InLockstep(c, Do(b, a), s, seen) && Do(b, a).v.Of(s) == b.v.Of(s)
  { hide Apply, Genuine; }

  // Every lock the server's game shows along a run.
  function Shown(b: Bout, s: Seat, acts: seq<Act>): set<LockPair>
    decreases |acts|
  {
    {PairOf(b.v.Of(s).g)} + (if acts == [] then {} else Shown(Do(b, acts[0]), s, acts[1..]))
  }

  lemma FollowStep(c: Predictor, b: Bout, s: Seat, a: Act, seen: set<LockPair>)
    requires InLockstep(c, b, s, seen) && NoTrigger(b, s, a)
    ensures InLockstep(Follow(c, b, s, a), Do(b, a), s, seen + {PairOf(Do(b, a).v.Of(s).g)})
  {
    hide Apply, VTick, Predict, ClientTick, OnEvents, Tick;
    match a {
      case DoTick(dt) => TickStep(c, b, s, dt, seen);
      case DoInput(who, i, n) =>
        if who == s {
          if Fresh(b, s, i, n) { InputStep(c, b, s, i, n, seen); }
        } else {
          OthersStep(c, b, s, a, seen);
        }
        assert seen + {PairOf(Do(b, a).v.Of(s).g)} == seen;
      case _ =>
        OthersStep(c, b, s, a, seen);
        assert seen + {PairOf(Do(b, a).v.Of(s).g)} == seen;
    }
  }

  lemma {:induction false} FollowRunSteps(c: Predictor, b: Bout, s: Seat, acts: seq<Act>, seen: set<LockPair>)
    requires InLockstep(c, b, s, seen) && Untriggered(b, s, acts)
    ensures InLockstep(FollowRun(c, b, s, acts), BoutLog.Run(b, acts), s, seen + Shown(b, s, acts))
    decreases |acts|
  {
    hide InLockstep, Follow, Do, NoTrigger;
    if acts == [] {
      assert PairOf(b.v.Of(s).g) in seen by { PairSeen(c, b, s, seen); }
      assert seen + Shown(b, s, acts) == seen;
    } else {
      var b', c' := Do(b, acts[0]), Follow(c, b, s, acts[0]);
      var seen' := seen + {PairOf(b'.v.Of(s).g)};
      FollowStep(c, b, s, acts[0], seen);
      FollowRunSteps(c', b', s, acts[1..], seen');
      PairSeen(c, b, s, seen);
      assert PairOf(b'.v.Of(s).g) in Shown(b', s, acts[1..]);
      assert seen' + Shown(b', s, acts[1..]) == seen + Shown(b, s, acts);
    }
  }

  lemma PairSeen(c: Predictor, b: Bout, s: Seat, seen: set<LockPair>)
    requires InLockstep(c, b, s, seen)
    ensures PairOf(b.v.Of(s).g) in seen
  {}

  /** Over any run between keyframe triggers, however the two players' inputs interleave, a
      client that starts equal to its side of the match ends equal to it, and no lock hash
      the server shows on the way makes it suspect a divergence. */
  lemma LockstepAndNoFalseAlarm(c: Predictor, b: Bout, s: Seat, acts: seq<Act>, q: LockPair)
    requires Agree(c.p, b.v.Of(s)) && !c.Walled()
    requires c.ring == [] && c.mismatches == 0 && c.lastSeen == c.p.g.lockSeq
    requires Untriggered(b, s, acts) && q in Shown(b, s, acts)
    ensures var c' := FollowRun(c, b, s, acts);
      && Agree(c'.p, BoutLog.Run(b, acts).v.Of(s))
      && OnLockHash(c', q.no, q.hash) == (c'.(lastJudged := OnLockHash(c', q.no, q.hash).0.lastJudged), false)
  {
    hide FollowRun, Untriggered, BoutLog.Run, Shown;
    FollowRunSteps(c, b, s, acts, {PairOf(b.v.Of(s).g)});
    var c' := FollowRun(c, b, s, acts);
    var k := Lookup(c'.ring, q.no, 0);
    if k < |c'.ring| { assert c'.ring[k] in c'.ring; }
  }

  // ----- after a keyframe -----

  // The server takes the same inputs one after the other.
  function Taken(b: Bout, s: Seat, us: seq<Sent>): Bout
    decreases |us|
  { if us == [] then b else Taken(ApplyInput(b, s, us[0].input, us[0].no), s, us[1..]) }

  // Legal inputs numbered a+1, a+2, ...
  predicate Numbered(us: seq<Sent>, a: nat)
  { forall k :: 0 <= k < |us| ==> us[k].no == a + 1 + k && Legal(us[k].input) }

  lemma {:induction false} TailReaches(b: Bout, p: Player, s: Seat, us: seq<Sent>)
    requires !b.v.Frozen() && Numbered(us, b.Ack(s)) && p.g == b.v.Of(s).g
    ensures ReplayTail(p, us).g == Taken(b, s, us).v.Of(s).g
    ensures !Taken(b, s, us).v.Frozen() && Taken(b, s, us).Ack(s) == b.Ack(s) + |us|
    decreases |us|
  {
    if us != [] {
      var i := us[0].input;
      var b' := ApplyInput(b, s, i, us[0].no);
      ReplayAgrees(p, b.v.Of(s), i);
      assert Fresh(b, s, i, us[0].no);
      assert !b'.v.Frozen() && b'.Ack(s) == us[0].no;
      hide ApplyInput, ReplayInput;
      TailReaches(b', ReplayInput(p, i), s, us[1..]);
    }
  }

  lemma ReplayAgrees(p: Player, q: Player, i: Input)
    requires p.g == q.g && Legal(i) && !p.g.tally.inBazaar
    ensures ReplayInput(p, i).g == Apply(q, i).g
    ensures !Apply(q, i).g.tally.inBazaar
  { hide Fits, RotateNow, Buy, Sell, UseSlot, Price, On, DropStep; }

  // Retaining the inputs past an acknowledgement keeps a numbered tail of a numbered queue.
  lemma {:induction false} UnackedIsTail(us: seq<Sent>, a: nat, ack: nat)
    requires Numbered(us, a) && a <= ack <= a + |us|
    ensures Unacked(us, ack) == us[ack - a..]
    decreases |us|
  {
    if us != [] {
      var init := us[..|us| - 1];
      if ack == a + |us| {
        NoneUnacked(us, ack);
      } else {
        UnackedIsTail(init, a, ack);
        assert us[|us| - 1].no > ack;
        assert init[ack - a..] + [us[|us| - 1]] == us[ack - a..];
      }
    }
  }

  lemma NoneUnacked(us: seq<Sent>, ack: nat)
    requires forall u :: u in us ==> u.no <= ack
    ensures Unacked(us, ack) == []
  { if Unacked(us, ack) != [] { assert Unacked(us, ack)[0] in Unacked(us, ack); } }

  /** Reconciliation: with nobody shopping, a keyframe taken at acknowledgement `ack` leaves
      the client exactly where the server will be once it has taken the client's remaining
      inputs, which are the ones numbered above `ack`. */
  lemma KeyframeReconciles(c: Predictor, a: nat, b: Bout, s: Seat)
    requires !b.v.Frozen() && Numbered(c.unacked, a) && a <= b.Ack(s) <= a + |c.unacked|
    ensures var c' := OnSnapshot(c, b.Ack(s), false, false, Some(Keyframe(b.v.Of(s).g, b.v.Of(s).opScore)));
      var tail := c.unacked[b.Ack(s) - a..];
      && c'.unacked == tail
      && Agree(c'.p, Taken(b, s, tail).v.Of(s))
      && c'.ring == [] && c'.mismatches == 0 && c'.lastSeen == c'.p.g.lockSeq && !c'.Walled()
  {
    UnackedIsTail(c.unacked, a, b.Ack(s));
    var tail := c.unacked[b.Ack(s) - a..];
    var p := Player(b.v.Of(s).g, b.v.Of(s).opScore, 0, []);
    TailReaches(b, p, s, tail);
    ScoreMirrorKept(p, tail);
    TakenKeepsMirror(b, s, tail);
  }

  lemma {:induction false} ScoreMirrorKept(p: Player, us: seq<Sent>)
    requires forall u :: u in us ==> Legal(u.input)
    ensures ReplayTail(p, us).opScore == p.opScore
    decreases |us|
  {
    hide ApplySim;
    if us != [] { ScoreMirrorKept(ReplayInput(p, us[0].input), us[1..]); }
  }

  lemma {:induction false} TakenKeepsMirror(b: Bout, s: Seat, us: seq<Sent>)
    requires forall u :: u in us ==> Legal(u.input)
    ensures Taken(b, s, us).v.Of(s).opScore == b.v.Of(s).opScore
    decreases |us|
  {
    hide ApplySim;
    if us != [] { TakenKeepsMirror(ApplyInput(b, s, us[0].input, us[0].no), s, us[1..]); }
  }
}
