/** The numbering of a client's inputs through every interleaving of sends, deliveries, ticks,
    snapshots and reconnects. */
module SessionLaws {
  import opened Wrappers
  import opened Rng
  import Engine
  import opened Inputs
  import opened VersusMatch
  import opened BoutLog
  import opened Prediction
  import opened PredictionLaws
  import opened Sessions

  // The acknowledgement the client has last seen: it owes everything after it.
  function LastSeen(c: Predictor): int { c.inputSeq - |c.unacked| }

  // The acknowledgements on their way to the client, behind the one it has and up to the
  // server's own.
  predicate AcksOrdered(fs: seq<Message>, lo: int, hi: int)
    decreases |fs|
  {
    if fs == [] then lo <= hi
    else if fs[0].Snap? then lo <= fs[0].ack && AcksOrdered(fs[1..], fs[0].ack, hi)
    else AcksOrdered(fs[1..], lo, hi)
  }

  /** The stream invariant of an attached client: the inputs in flight are numbered from the
      server's acknowledgement up to the client's last one; the client still owes exactly
      those above the acknowledgement it last saw; and the ones in flight are the end of
      what it owes. */
  ghost predicate Stream(l: Link)
  { InStream(l.InFlight(), l.bout.Ack(l.seat), l.cl.inputSeq, l.cl.unacked, l.down) }

  ghost predicate InStream(flying: seq<Sent>, ack: nat, last: nat, owed: seq<Sent>, down: seq<Message>)
  {
    var seen := last - |owed|;
    && Numbered(flying, ack) && ack + |flying| == last
    && 0 <= seen <= ack && Numbered(owed, seen)
    && AcksOrdered(down, seen, ack)
    && owed[ack - seen..] == flying
  }

  lemma {:induction false} AcksBounded(fs: seq<Message>, lo: int, hi: int)
    requires AcksOrdered(fs, lo, hi)
    ensures lo <= hi
    ensures forall k :: 0 <= k < |fs| && fs[k].Snap? ==> lo <= fs[k].ack <= hi
    decreases |fs|
  {
    if fs != [] {
      AcksBounded(fs[1..], if fs[0].Snap? then fs[0].ack else lo, hi);
      assert forall k :: 0 < k < |fs| ==> fs[k] == fs[1..][k - 1];
    }
  }

  lemma {:induction false} AcksAppend(fs: seq<Message>, gs: seq<Message>, lo: int, hi: int, hi': int)
    requires AcksOrdered(fs, lo, hi) && AcksOrdered(gs, hi, hi')
    ensures AcksOrdered(fs + gs, lo, hi')
    decreases |fs|
  {
    if fs == [] {
      assert fs + gs == gs;
      AcksLower(gs, lo, hi, hi');
    } else {
      assert (fs + gs)[1..] == fs[1..] + gs;
      AcksAppend(fs[1..], gs, if fs[0].Snap? then fs[0].ack else lo, hi, hi');
    }
  }

  lemma {:induction false} AcksLower(fs: seq<Message>, lo: int, lo': int, hi: int)
    requires lo <= lo' && AcksOrdered(fs, lo', hi)
    ensures AcksOrdered(fs, lo, hi)
    decreases |fs|
  { if fs != [] && !fs[0].Snap? { AcksLower(fs[1..], lo, lo', hi); } }

  lemma {:induction false} EffectsCarryNoAcks(fs: seq<Message>, at: int)
    requires forall k :: 0 <= k < |fs| ==> !fs[k].Snap?
    ensures AcksOrdered(fs, at, at)
    decreases |fs|
  { if fs != [] { EffectsCarryNoAcks(fs[1..], at); } }

  lemma OneSnap(f: Message, lo: int)
    requires f.Snap? && lo <= f.ack
    ensures AcksOrdered([f], lo, f.ack)
  { assert [f][1..] == []; }

  // ----- each step -----

  lemma SendKeeps(l: Link, i: Input)
    requires Stream(l) && Legal(i)
    ensures Stream(SendInput(l, i))
  {
    hide Apply, ShopAccepted, Legal;
    var l' := SendInput(l, i);
    if Forwards(l.cl, i) {
      assert l'.InFlight() == l.InFlight() + [Sent(l.cl.inputSeq + 1, i)];
      assert l'.cl.unacked == l.cl.unacked + [Sent(l.cl.inputSeq + 1, i)];
    }
  }

  lemma ArriveKeeps(l: Link)
    requires Stream(l)
    ensures Stream(Arrive(l, true))
  { assert Arrive(l, true).InFlight() == l.InFlight(); }

  // A message the full channel refuses is gone for good, and the numbering with it.
  lemma RefusedArrival(l: Link)
    requires Stream(l) && l.wire != []
    ensures !Stream(Arrive(l, false))
  { assert |Arrive(l, false).InFlight()| == |l.InFlight()| - 1; }

  /** An arrival keeps the stream if and only if the channel has room for it, or there is
      nothing to arrive. */
  lemma ArrivalKeeps(l: Link, others: nat)
    requires Stream(l)
    ensures Stream(Arrive(l, HasRoom(l, others))) <==> HasRoom(l, others) || l.wire == []
  {
    hide Stream, HasRoom;
    if l.wire == [] {
      assert Arrive(l, HasRoom(l, others)) == l;
    } else if HasRoom(l, others) {
      ArriveKeeps(l);
    } else {
      RefusedArrival(l);
    }
  }

  lemma TakeKeeps(l: Link)
    requires Stream(l)
    ensures Stream(Take(l))
    ensures l.queue != [] ==> Take(l).bout.Ack(l.seat) == l.bout.Ack(l.seat) + 1
  {
    hide Apply, BazaarInput;
    if l.queue != [] {
      var u := l.queue[0];
      assert l.InFlight()[0] == u;
      assert Fresh(l.bout, l.seat, u.input, u.no);
      var l' := Take(l);
      assert l'.InFlight() == l.InFlight()[1..];
      AcksAppend(l.down, [], LastSeen(l.cl), l.bout.Ack(l.seat), u.no);
      assert l.down + [] == l.down;
    }
  }

  // What one server iteration adds to the messages on their way.
  function Served(l: Link, dt: int): seq<Message>
  {
    var b := BTick(l.bout, dt);
    var b' := b.(v := Emptied(b.v));
    Effects(Outbox(b.v, l.seat))
    + (if b.v.result != 0 then [Snapshot(b', l.seat, true)]
       else if l.even then [Snapshot(b', l.seat, l.want || b.v.dirty)]
       else [])
  }

  lemma ServeIs(l: Link, dt: int)
    requires !l.Over()
    ensures var b, l' := BTick(l.bout, dt), Serve(l, dt);
      && l' == l.(bout := b.(v := Emptied(b.v)), even := !l.even, want := l'.want, down := l'.down)
      && l'.down == l.down + Served(l, dt)
  { hide BTick, Snapshot, Effects; }

  lemma TickKeepsAck(b: Bout, dt: int, s: Seat)
    ensures BTick(b, dt).Ack(s) == b.Ack(s)
    ensures b.(v := Emptied(b.v)).Ack(s) == b.Ack(s)
  { hide VTick; }

  lemma ServedAcks(l: Link, dt: int)
    ensures var ack := l.bout.Ack(l.seat); AcksOrdered(Served(l, dt), ack, ack)
  {
    hide BTick, PairOf, ResultFor, Emptied;
    var b := BTick(l.bout, dt);
    var b' := b.(v := Emptied(b.v));
    var ack := l.bout.Ack(l.seat);
    TickKeepsAck(l.bout, dt, l.seat);
    var fs := Effects(Outbox(b.v, l.seat));
    EffectsCarryNoAcks(fs, ack);
    assert b'.Ack(l.seat) == ack;
    if b.v.result != 0 || l.even {
      var f := Snapshot(b', l.seat, b.v.result != 0 || l.want || b.v.dirty);
      OneSnap(f, ack);
      AcksAppend(fs, [f], ack, ack, ack);
    } else {
      assert fs + [] == fs;
    }
  }

  lemma ServeKeeps(l: Link, dt: int)
    requires Stream(l)
    ensures Stream(Serve(l, dt))
  {
    hide BTick, Served, Emptied, Legal;
    if !l.Over() {
      ServeIs(l, dt);
      TickKeepsAck(l.bout, dt, l.seat);
      TickKeepsAck(BTick(l.bout, dt), dt, l.seat);
      ServedAcks(l, dt);
      AcksAppend(l.down, Served(l, dt), LastSeen(l.cl), l.bout.Ack(l.seat), l.bout.Ack(l.seat));
      hide Serve;
    }
  }

  // Reconciling and judging touch the numbering only by dropping what is acknowledged.
  lemma ReconciledSeq(c: Predictor, ack: nat, you: bool, opp: bool, kf: Option<Keyframe>)
    ensures OnSnapshot(c, ack, you, opp, kf).inputSeq == c.inputSeq
    ensures OnSnapshot(c, ack, you, opp, kf).unacked == Unacked(c.unacked, ack)
  { hide ReplayTail, Unacked; }

  lemma JudgedSeq(c: Predictor, no: int, hash: int)
    ensures OnLockHash(c, no, hash).0.inputSeq == c.inputSeq && OnLockHash(c, no, hash).0.unacked == c.unacked
    ensures OnLockHash(c, no, hash).0.p == c.p
    ensures OnLockHash(c, no, hash).0.youBaz == c.youBaz && OnLockHash(c, no, hash).0.oppBaz == c.oppBaz
  { hide Lookup; }

  lemma HeardSeq(l: Link)
    requires l.down != []
    ensures var c', f := Hear(l).cl, l.down[0];
      && Hear(l) == l.(down := l.down[1..], cl := c')
      && c'.inputSeq == l.cl.inputSeq
      && c'.unacked == (if f.Snap? then Unacked(l.cl.unacked, f.ack) else l.cl.unacked)
  {
    var f := l.down[0];
    if f.Snap? {
      ReconciledSeq(l.cl, f.ack, f.you, f.opp, f.kf);
      JudgedSeq(OnSnapshot(l.cl, f.ack, f.you, f.opp, f.kf), f.lock.no, f.lock.hash);
    } else {
      EventSeq(l.cl, ToInput(f.event));
    }
    hide OnSnapshot, OnEvent, OnLockHash, Unacked, ToInput;
  }

  lemma EventSeq(c: Predictor, i: Input)
    ensures OnEvent(c, i).inputSeq == c.inputSeq && OnEvent(c, i).unacked == c.unacked
  { hide Apply; }

  lemma HeardStream(flying: seq<Sent>, ack: nat, last: nat, owed: seq<Sent>, down: seq<Message>)
    requires InStream(flying, ack, last, owed, down) && down != []
    ensures InStream(flying, ack, last, if down[0].Snap? then Unacked(owed, down[0].ack) else owed, down[1..])
    ensures down[0].Snap? ==> last - |Unacked(owed, down[0].ack)| == down[0].ack
  {
    hide Unacked, Legal, Numbered;
    var seen := last - |owed|;
    AcksBounded(down, seen, ack);
    AcksBounded(down[1..], if down[0].Snap? then down[0].ack else seen, ack);
    if down[0].Snap? { RestOwed(owed, seen, down[0].ack, ack); }
  }

  // What is owed past a later acknowledgement.
  lemma RestOwed(owed: seq<Sent>, seen: nat, later: nat, ack: nat)
    requires Numbered(owed, seen) && seen <= later <= ack <= seen + |owed|
    ensures Unacked(owed, later) == owed[later - seen..] && Numbered(owed[later - seen..], later)
    ensures owed[later - seen..][ack - later..] == owed[ack - seen..]
  {
    hide Unacked, Legal;
    UnackedIsTail(owed, seen, later);
  }

  lemma HearKeeps(l: Link)
    requires Stream(l)
    ensures Stream(Hear(l))
    ensures l.down != [] && l.down[0].Snap? ==> LastSeen(Hear(l).cl) == l.down[0].ack
  {
    if l.down != [] {
      HeardSeq(l);
      HeardStream(l.InFlight(), l.bout.Ack(l.seat), l.cl.inputSeq, l.cl.unacked, l.down);
      hide Hear, Unacked, InStream;
    }
  }

  lemma ElsewhereKeeps(l: Link, a: Act)
    requires Stream(l) && Foreign(l, a)
    ensures Stream(Elsewhere(l, a))
  { hide Apply, Legal; }

  lemma ResumeKeeps(l: Link)
    requires Stream(l)
    ensures Stream(Resume(l))
  {
    hide PairOf, ResultFor;
    var f := Snapshot(l.bout, l.seat, true);
    OneSnap(f, l.bout.Ack(l.seat));
    AcksAppend(l.down, [f], LastSeen(l.cl), l.bout.Ack(l.seat), l.bout.Ack(l.seat));
  }

  lemma LocalTickKeeps(l: Link, dt: int)
    requires Stream(l)
    ensures Stream(l.(cl := ClientTick(l.cl, dt)))
  { hide Engine.Tick; }

  /** A reconnect restores the numbering if and only if none of the seat's old inputs is
      still waiting in the server's channel, which the reconnect does not empty. */
  lemma ReattachKeeps(l: Link)
    ensures Stream(Reattach(l)) <==> l.queue == []
  {
    hide PairOf, ResultFor, NewPlayer;
    var l' := Reattach(l);
    var f := Snapshot(l'.bout, l.seat, true);
    OneSnap(f, 0);
    assert l'.InFlight() == l.queue;
  }

  /** When a stale input numbered n does wait there, taking it refuses the new client's first
      n inputs: none of them changes the match. */
  lemma {:induction false} StaleInputsLockOut(b: Bout, s: Seat, stale: Sent, us: seq<Sent>)
    requires Fresh(ResetAck(b, s), s, stale.input, stale.no)
    requires Numbered(us, 0) && |us| <= stale.no
    ensures var b' := ApplyInput(ResetAck(b, s), s, stale.input, stale.no); Taken(b', s, us) == b'
  {
    hide Apply, BazaarInput;
    var b' := ApplyInput(ResetAck(b, s), s, stale.input, stale.no);
    assert b'.Ack(s) == stale.no;
    hide ApplyInput, Legal;
    AllRefused(b', s, us, 0);
  }

  lemma {:induction false} AllRefused(b: Bout, s: Seat, us: seq<Sent>, a: nat)
    requires Numbered(us, a) && a + |us| <= b.Ack(s)
    ensures Taken(b, s, us) == b
    decreases |us|
  {
    hide Apply, Legal, BazaarInput;
    if us != [] {
      assert ApplyInput(b, s, us[0].input, us[0].no) == b;
      AllRefused(b, s, us[1..], a + 1);
    }
  }

  // ----- whole runs -----

  // The channel had room, and was empty of the seat's inputs at every reconnect.
  predicate Undisturbed(l: Link, m: Move)
  {
    && (m.MArrive? && !m.fits ==> l.wire == [])
    && (m.MReattach? ==> l.queue == [])
  }

  ghost predicate AttachedStream(l: Link) { if l.up then Stream(l) else l.wire == [] }

  lemma StepKeeps(l: Link, m: Move)
    requires AttachedStream(l) && Can(l, m) && Undisturbed(l, m)
    ensures AttachedStream(Stepped(l, m))
  {
    hide Stream, SendInput, Take, Serve, ClientTick, Foreign, Do, Snapshot, NewPredictor;
    match m
    case MSend(i) => SendKeeps(l, i); assert SendInput(l, i).up by { SendFrame(l, i); }
    case MArrive(fits) =>
      if l.wire != [] { ArriveKeeps(l); } else { assert Arrive(l, fits) == l; }
    case MTake => TakeKeeps(l); assert Take(l).up by { TakeFrame(l); }
    case MServe(dt) => ServeKeeps(l, dt); assert Serve(l, dt).up by { ServeFrame(l, dt); }
    case MHear => HearKeeps(l); if l.down != [] { HeardSeq(l); }
    case MElsewhere(a) => if l.up { ElsewhereKeeps(l, a); }
    case MResync => assert Stream(GrantResync(l)) by { WantFrame(l); }
    case MResume => ResumeKeeps(l);
    case MLocalTick(dt) => LocalTickKeeps(l, dt);
    case MDrop =>
    case MReattach => ReattachKeeps(l);
  }

  lemma SendFrame(l: Link, i: Input) ensures SendInput(l, i).up == l.up { hide Predict, Forwards; }
  lemma TakeFrame(l: Link) ensures Take(l).up == l.up { hide ApplyInput; }
  lemma ServeFrame(l: Link, dt: int) ensures Serve(l, dt).up == l.up { hide BTick, Snapshot; }
  lemma WantFrame(l: Link) requires Stream(l) ensures Stream(GrantResync(l)) {}

  // A run, each of whose moves the code allows where it happens.
  predicate Allowed(l: Link, ms: seq<Move>)
    decreases |ms|
  { ms == [] || (Can(l, ms[0]) && Undisturbed(l, ms[0]) && Allowed(Stepped(l, ms[0]), ms[1..])) }

  function Steps(l: Link, ms: seq<Move>): Link
    requires Allowed(l, ms)
    decreases |ms|
  { if ms == [] then l else Steps(Stepped(l, ms[0]), ms[1..]) }

  lemma {:induction false} RunKeepsStream(l: Link, ms: seq<Move>)
    requires AttachedStream(l) && Allowed(l, ms)
    ensures AttachedStream(Steps(l, ms))
    decreases |ms|
  {
    hide AttachedStream, Stepped, Can, Undisturbed;
    if ms != [] {
      StepKeeps(l, ms[0]);
      RunKeepsStream(Stepped(l, ms[0]), ms[1..]);
    }
  }

  lemma FreshStream(seedA: Word, seedB: Word, s: Seat)
    ensures AttachedStream(NewLink(NewBout(seedA, seedB), s))
  {
    hide NewPlayer, NewVersus, Legal;
    assert NewLink(NewBout(seedA, seedB), s).InFlight() == [];
  }

  /** From the start of any match, through any such run, the stream invariant holds whenever
      the client is attached. */
  lemma StreamHolds(seedA: Word, seedB: Word, s: Seat, ms: seq<Move>)
    requires Allowed(NewLink(NewBout(seedA, seedB), s), ms)
    ensures AttachedStream(Steps(NewLink(NewBout(seedA, seedB), s), ms))
  {
    var l := NewLink(NewBout(seedA, seedB), s);
    FreshStream(seedA, seedB, s);
    hide NewLink, NewBout, Steps, Allowed, AttachedStream;
    RunKeepsStream(l, ms);
  }

  /** An acknowledgement gap with nothing in flight is unreachable. */
  lemma NoSilentGap(l: Link)
    requires Stream(l) && l.InFlight() == []
    ensures l.bout.Ack(l.seat) == l.cl.inputSeq
  {}
}
