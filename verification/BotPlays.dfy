/** A bot plays (rust/bt-bot/src/sync.rs:79-91, rust/bt-bot/src/main.rs:716-836): whenever its
    inputs are acknowledged and nobody shops a drive advances its game, and on a fair run such
    drives keep coming. */
module BotPlays {
  import opened Weapons
  import opened Rng
  import opened Arsenals
  import opened Engine
  import opened Inputs
  import opened VersusMatch
  import opened BoutLog
  import opened Prediction
  import opened PredictionLaws
  import opened Sessions
  import opened SessionLaws
  import opened BotSync
  import opened BazaarTrail
  import opened BazaarLiveness
  import opened BazaarEscape

  // ----- one drive -----

  // The bot's view: everything acknowledged, and no bazaar anywhere.
  predicate Clear(n: BotNet)
  {
    && !n.view.done && n.view.acked >= n.l.cl.inputSeq
    && !n.view.inBaz && !n.view.oppBaz && !n.l.cl.p.g.tally.inBazaar
  }

  /** A drive in a clear view advances the bot's own game by one tick, sends the plan unless that
      game is over, and leaves the rest alone; in any other view it does not touch the game's
      clock, its board or its piece. */
  lemma DrivePlays(n: BotNet, plan: seq<Input>, shop: seq<WeaponToken>)
    ensures var n' := DriveTick(n, false, plan, shop);
      var ticked := ClientTick(n.l.cl, 16);
      Clear(n) ==>
        && n'.view == n.view
        && n'.l == (if ticked.p.g.motion.phase == Over then n.l.(cl := ticked) else SendAll(n.l.(cl := ticked), plan))
    ensures var n' := DriveTick(n, false, plan, shop);
      !Clear(n) ==>
        && n'.l.cl.p.g.motion == n.l.cl.p.g.motion && n'.l.cl.p.g.board == n.l.cl.p.g.board
        && n'.l.cl.p.g.rng == n.l.cl.p.g.rng && n'.l.cl.p.g.lockSeq == n.l.cl.p.g.lockSeq
  {
    hide ClientTick, SendAll, Predict;
    TradesStand(n.l, Purchases(shop));
    TradesStand(SendAll(n.l, Purchases(shop)), [LeaveKey]);
    TradesStand(n.l, [LeaveKey]);
    SentOne(n.l, LeaveKey);
    SentOne(SendAll(n.l, Purchases(shop)), LeaveKey);
  }

  lemma SentOne(l: Link, i: Input)
    ensures SendAll(l, [i]) == SendInput(l, i)
  { hide SendInput; assert [i][1..] == []; }

  // The purchases of a list that the game accepts, one after the other.
  function Accepted(g: Sim, ts: seq<WeaponToken>): seq<Input>
    decreases |ts|
  {
    if ts == [] then []
    else if BuyAccepted(g, ts[0]) then [BuyIndex(ts[0])] + Accepted(BuyWeapon(g, ts[0]), ts[1..])
    else Accepted(g, ts[1..])
  }

  // What was sent, without its numbers.
  function Written(us: seq<Sent>): (r: seq<Input>)
    ensures |r| == |us|
  { seq(|us|, k requires 0 <= k < |us| => us[k].input) }

  lemma WritesOne(l: Link, i: Input)
    ensures Written(SendInput(l, i).wire) == Written(l.wire) + (if Forwards(l.cl, i) then [i] else [])
  { hide Predict, Forwards; }

  lemma BuysOne(l: Link, t: WeaponToken)
    ensures Forwards(l.cl, BuyIndex(t)) <==> BuyAccepted(l.cl.p.g, t)
    ensures SendInput(l, BuyIndex(t)).cl.p.g == BuyWeapon(l.cl.p.g, t)
  { hide Buy, Price; }

  lemma {:induction false} BuysAll(l: Link, ts: seq<WeaponToken>)
    ensures Written(SendAll(l, Purchases(ts)).wire) == Written(l.wire) + Accepted(l.cl.p.g, ts)
    decreases |ts|
  {
    hide SendInput, BuyAccepted, BuyWeapon, Forwards, Written;
    if ts != [] {
      WritesOne(l, BuyIndex(ts[0]));
      BuysOne(l, ts[0]);
      RefusedStays(l.cl.p.g, ts[0]);
      assert Purchases(ts)[1..] == Purchases(ts[1..]);
      BuysAll(SendInput(l, BuyIndex(ts[0])), ts[1..]);
    }
  }

  lemma RefusedStays(g: Sim, t: WeaponToken)
    ensures !BuyAccepted(g, t) ==> BuyWeapon(g, t) == g
  { hide BuyAccepted; }

  /** In its bazaar a drive sends every purchase that the game accepts at that point, in order, and
      then the leave, once. */
  lemma DriveShops(n: BotNet, plan: seq<Input>, shop: seq<WeaponToken>)
    requires Decide(n.Sync(false)) == Shop
    ensures var n' := DriveTick(n, false, plan, shop);
      && Written(n'.l.wire) == Written(n.l.wire) + Accepted(n.l.cl.p.g, shop) + [LeaveKey]
      && n'.view.bought && Decide(n'.Sync(false)) != Shop
  {
    hide SendInput, Forwards, Written, Accepted;
    BuysAll(n.l, shop);
    var m := SendAll(n.l, Purchases(shop));
    WritesOne(m, LeaveKey);
    assert Forwards(m.cl, LeaveKey) by { LeavesForward(m.cl); }
  }

  lemma LeavesForward(c: Predictor)
    ensures Forwards(c, LeaveKey)
  {}

  predicate SameMotion(g: Sim, h: Sim)
  { h.motion == g.motion && h.board == g.board && h.rng == g.rng && h.lockSeq == g.lockSeq }

  lemma {:induction false} TradesStand(l: Link, ins: seq<Input>)
    requires forall k :: 0 <= k < |ins| ==> BazaarInput(ins[k])
    ensures SameMotion(l.cl.p.g, SendAll(l, ins).cl.p.g)
    decreases |ins|
  {
    if ins != [] {
      TradeStands(l, ins[0]);
      hide SendInput;
      TradesStand(SendInput(l, ins[0]), ins[1..]);
    }
  }

  lemma TradeStands(l: Link, i: Input)
    requires BazaarInput(i)
    ensures SameMotion(l.cl.p.g, SendInput(l, i).cl.p.g)
  { hide Buy, Sell, Price, ShopAccepted; }

  // ----- what is still to happen before the next play -----

  predicate Dirty(f: Message) { f.Snap? && (f.you || f.opp) }

  predicate Acks(f: Message, last: int) { f.Snap? && f.ack == last }

  // One past the last message that shows a bazaar.
  function LastDirty(fs: seq<Message>): (k: nat)
    ensures k <= |fs|
    ensures k == 0 <==> forall f :: f in fs ==> !Dirty(f)
    decreases |fs|
  {
    if fs == [] then 0
    else
      var k := LastDirty(fs[1..]);
      assert forall f :: f in fs <==> f == fs[0] || f in fs[1..];
      if k > 0 then k + 1 else if Dirty(fs[0]) then 1 else 0
  }

  function FirstSnap(fs: seq<Message>): (k: nat)
    ensures k <= |fs|
    ensures k < |fs| ==> fs[k].Snap?
    decreases |fs|
  { if fs == [] || fs[0].Snap? then 0 else 1 + FirstSnap(fs[1..]) }

  function FirstAck(fs: seq<Message>, last: int): (k: nat)
    ensures k <= |fs|
    ensures k < |fs| ==> Acks(fs[k], last)
    decreases |fs|
  { if fs == [] || Acks(fs[0], last) then 0 else 1 + FirstAck(fs[1..], last) }

  lemma {:induction false} PositionsGrow(fs: seq<Message>, gs: seq<Message>, last: int)
    requires forall g :: g in gs ==> !Dirty(g)
    ensures LastDirty(fs + gs) == LastDirty(fs)
    ensures FirstSnap(fs) < |fs| ==> FirstSnap(fs + gs) == FirstSnap(fs)
    ensures FirstAck(fs, last) < |fs| ==> FirstAck(fs + gs, last) == FirstAck(fs, last)
    decreases |fs|
  {
    if fs == [] {
      assert fs + gs == gs;
    } else {
      assert (fs + gs)[1..] == fs[1..] + gs;
      PositionsGrow(fs[1..], gs, last);
    }
  }

  lemma {:induction false} SnapComes(fs: seq<Message>, g: Message, last: int)
    requires g in fs
    ensures g.Snap? ==> FirstSnap(fs) < |fs|
    ensures Acks(g, last) ==> FirstAck(fs, last) < |fs|
    decreases |fs|
  { if fs[0] != g { SnapComes(fs[1..], g, last); } }

  function PlayRank(n: BotNet): Rank
  {
    var fs, last := n.l.down, n.l.cl.inputSeq;
    if LastDirty(fs) > 0 then Rank(3, 0, 0, LastDirty(fs))
    else if n.view.inBaz || n.view.oppBaz then
      if FirstSnap(fs) < |fs| then Rank(2, 0, 0, FirstSnap(fs)) else Rank(2, 0, if n.l.even then 1 else 2, 0)
    else if Load(n.l) > 0 then Rank(1, Load(n.l), if n.l.queue != [] then 0 else 1, 0)
    else if n.view.acked >= last then Rank(0, 0, 0, 0)
    else if FirstAck(fs, last) < |fs| then Rank(0, 0, 1, FirstAck(fs, last))
    else Rank(0, 0, if n.l.even then 2 else 3, 0)
  }

  function NextKind(r: Rank): (k: Kind)
    ensures k != Other
  {
    if r.phase >= 3 then Listening
    else if r.phase == 2 then (if r.turn == 0 then Listening else Iterating)
    else if r.phase == 1 then (if r.turn == 0 then Processing else Delivering)
    else if r.turn == 0 then Driving else if r.turn == 1 then Listening else Iterating
  }

  predicate Nears(n: BotNet, n': BotNet, helpful: bool)
  {
    var r, r' := PlayRank(n), PlayRank(n');
    (r' == r || Lower(r', r)) && (helpful ==> Lower(r', r))
  }

  // The match is on and nobody shops, neither at the server nor in the bot's own game.
  predicate Free(n: BotNet)
  { !n.l.Over() && !n.view.done && !n.l.bout.v.Frozen() && !n.l.cl.p.g.tally.inBazaar }

  // What the stream says of acknowledgements.
  predicate Timely(n: BotNet)
  {
    var ack, last := n.l.bout.Ack(n.l.seat), n.l.cl.inputSeq;
    && n.view.acked <= ack <= last
    && (ack == last <==> Load(n.l) == 0)
    && (forall f :: f in n.l.down && f.Snap? ==> n.view.acked <= f.ack <= ack)
  }

  lemma InvTimely(n: BotNet)
    requires BotInv(n)
    ensures Timely(n)
  {
    TrailEnd(n.l.down, n.view.acked, n.view.inBaz, n.l.bout.Ack(n.l.seat), ServerShops(n.l));
    hide Numbered, Trail, KeyframeAssured, FramesHonest, LeaveLast;
    assert |n.l.InFlight()| == |n.l.queue| + |n.l.wire|;
  }

  // Clean messages behind what is already on its way.
  lemma Grows(n: BotNet, l': Link, gs: seq<Message>)
    requires Timely(n)
    requires l' == n.l.(bout := l'.bout, even := l'.even, want := l'.want, down := n.l.down + gs)
    requires forall g :: g in gs ==> !Dirty(g)
    requires forall g :: g in gs && g.Snap? ==> g.ack == n.l.bout.Ack(n.l.seat)
    requires l'.even == n.l.even || !n.l.even || exists g :: g in gs && g.Snap?
    ensures Nears(n, n.(l := l'), l'.even != n.l.even && NextKind(PlayRank(n)) == Iterating)
  {
    hide Dirty, LastDirty, FirstSnap, FirstAck;
    var last := n.l.cl.inputSeq;
    PositionsGrow(n.l.down, gs, last);
    if g :| g in gs && g.Snap? {
      assert g in l'.down;
      SnapComes(l'.down, g, last);
    }
  }

  lemma ServeGrows(n: BotNet, dt: int)
    requires Timely(n) && Free(n) && Free(n.(l := Serve(n.l, dt)))
    ensures Nears(n, n.(l := Serve(n.l, dt)), NextKind(PlayRank(n)) == Iterating)
  {
    var l := n.l;
    ServeIs(l, dt);
    TickKeepsAck(l.bout, dt, l.seat);
    TickKeepsAck(BTick(l.bout, dt), dt, l.seat);
    if l.even { ServedSnap(l, dt); }
    ServedClean(l, dt);
    hide Serve, Served, BTick, PlayRank, Timely, Dirty, Versus.Frozen;
    assert Serve(l, dt).even != l.even;
    GrowsBy(n, Serve(l, dt), Served(l, dt));
  }

  lemma GrowsBy(n: BotNet, l': Link, gs: seq<Message>)
    requires Timely(n)
    requires l' == n.l.(bout := l'.bout, even := l'.even, want := l'.want, down := n.l.down + gs)
    requires forall g :: g in gs ==> !Dirty(g)
    requires forall g :: g in gs && g.Snap? ==> g.ack == n.l.bout.Ack(n.l.seat)
    requires l'.even != n.l.even && (n.l.even ==> exists g :: g in gs && g.Snap?)
    ensures Nears(n, n.(l := l'), NextKind(PlayRank(n)) == Iterating)
  {
    hide Timely, Dirty, Nears, PlayRank;
    Grows(n, l', gs);
  }

  lemma ServedClean(l: Link, dt: int)
    requires !l.Over() && !Serve(l, dt).bout.v.Frozen()
    ensures forall g :: g in Served(l, dt) ==> !Dirty(g)
    ensures forall g :: g in Served(l, dt) && g.Snap? ==> g.ack == l.bout.Ack(l.seat)
  {
    TickKeepsAck(l.bout, dt, l.seat);
    var b := BTick(l.bout, dt);
    TickKeepsAck(b, dt, l.seat);
    hide BTick, PairOf, ResultFor;
    assert forall e :: e in Effects(Outbox(b.v, l.seat)) ==> !e.Snap?;
  }

  lemma ResumeGrows(n: BotNet)
    requires Timely(n) && Free(n)
    ensures Nears(n, n.(l := Resume(n.l)), false)
  {
    var f := Snapshot(n.l.bout, n.l.seat, true);
    assert !Dirty(f) && f.ack == n.l.bout.Ack(n.l.seat) by { hide PairOf, ResultFor; }
    hide Timely, Snapshot, Dirty, Nears, PlayRank;
    Grows(n, Resume(n.l), [f]);
  }

  lemma Quiet(n: BotNet, l': Link)
    requires Timely(n) && l' == n.l.(bout := l'.bout, want := l'.want)
    ensures Nears(n, n.(l := l'), false)
  {
    assert n.l.down + [] == n.l.down;
    hide Timely, Nears, PlayRank;
    Grows(n, l', []);
  }

  lemma ArrivesOn(n: BotNet)
    requires Timely(n)
    ensures Nears(n, n.(l := Arrive(n.l, true)), NextKind(PlayRank(n)) == Delivering)
  { hide LastDirty, FirstSnap, FirstAck; }

  lemma TakesOn(n: BotNet)
    requires Timely(n) && Timely(n.(l := Take(n.l)))
    ensures Nears(n, n.(l := Take(n.l)), NextKind(PlayRank(n)) == Processing)
  { hide LastDirty, FirstSnap, FirstAck, ApplyInput; }

  lemma HeadGone(fs: seq<Message>, last: int)
    requires fs != []
    ensures LastDirty(fs) > 0 ==> LastDirty(fs[1..]) < LastDirty(fs)
    ensures LastDirty(fs) == 0 ==> LastDirty(fs[1..]) == 0 && !Dirty(fs[0])
    ensures !fs[0].Snap? ==> FirstSnap(fs) == 1 + FirstSnap(fs[1..])
    ensures !Acks(fs[0], last) ==> FirstAck(fs, last) == 1 + FirstAck(fs[1..], last)
  { assert fs[0] in fs; }

  lemma HearsOn(n: BotNet)
    requires Timely(n)
    ensures Nears(n, HearFrame(n), NextKind(PlayRank(n)) == Listening)
  {
    if n.l.down == [] {
      NothingNearer(n);
    } else {
      HeardSeq(n.l);
      HeardRest(n);
      hide Hear, HearFrame, Timely, Nears, PlayRank;
      if n.l.down[0].Snap? { HearsSnap(n, HearFrame(n)); } else { HearsEvent(n, HearFrame(n)); }
    }
  }

  lemma NothingNearer(n: BotNet)
    requires n.l.down == []
    ensures Nears(n, n, NextKind(PlayRank(n)) == Listening)
  { hide Load; }

  lemma HearsSnap(n: BotNet, n': BotNet)
    requires Timely(n) && n.l.down != [] && n.l.down[0].Snap?
    requires n'.l == n.l.(down := n.l.down[1..], cl := n'.l.cl) && n'.l.cl.inputSeq == n.l.cl.inputSeq
    requires n'.view == Seen(n.view, n.l.down[0])
    ensures Nears(n, n', NextKind(PlayRank(n)) == Listening)
  {
    HeadGone(n.l.down, n.l.cl.inputSeq);
    assert n.l.down[0] in n.l.down;
    hide LastDirty, FirstSnap, FirstAck;
  }

  lemma HearsEvent(n: BotNet, n': BotNet)
    requires Timely(n) && n.l.down != [] && !n.l.down[0].Snap?
    requires n'.l == n.l.(down := n.l.down[1..], cl := n'.l.cl) && n'.l.cl.inputSeq == n.l.cl.inputSeq
    requires n'.view == Seen(n.view, n.l.down[0])
    ensures Nears(n, n', NextKind(PlayRank(n)) == Listening)
  {
    HeadGone(n.l.down, n.l.cl.inputSeq);
    hide LastDirty, FirstSnap, FirstAck;
  }

  lemma HeardRest(n: BotNet)
    requires n.l.down != []
    ensures HearFrame(n).l == n.l.(down := n.l.down[1..], cl := HearFrame(n).l.cl)
    ensures HearFrame(n).view == Seen(n.view, n.l.down[0])
  {}

  // A drive that is not a play sends at most a leave on a view of a bazaar.
  lemma HoldsStill(n: BotNet, plan: seq<Input>, shop: seq<WeaponToken>)
    requires Free(n) && !Clear(n)
    ensures var n' := DriveTick(n, false, plan, shop); Nears(n, n', NextKind(PlayRank(n)) == Driving)
  { hide LastDirty, FirstSnap, FirstAck, SendInput; LeaveOnly(n.l); }

  lemma LeaveOnly(l: Link)
    ensures SendInput(l, LeaveKey) == l.(cl := SendInput(l, LeaveKey).cl, wire := SendInput(l, LeaveKey).wire)
  { hide Predict, Forwards; }

  lemma MovesOn(n: BotNet, m: BotMove)
    requires BotInv(n) && CanMove(n, m) && BotInv(Moved(n, m)) && Free(n) && Free(Moved(n, m))
    requires m.Drive? ==> !m.idle && !Clear(n)
    ensures Nears(n, Moved(n, m), NextKind(PlayRank(n)) == KindOf(m))
  {
    InvTimely(n);
    InvTimely(Moved(n, m));
    hide BotInv, Nears, PlayRank, Timely, NextKind, Gameplay, Clear;
    match m
    case Drive(_, plan, shop) => HoldsStill(n, plan, shop);
    case Arrival => ArrivesOn(n);
    case Taking => TakesOn(n);
    case Serving(dt) => ServeGrows(n, dt);
    case Hearing => HearsOn(n);
    case Outside(a) => Quiet(n, Elsewhere(n.l, a));
    case Resync => Quiet(n, GrantResync(n.l));
    case Resumed => ResumeGrows(n);
  }

  // ----- infinite runs -----

  // From i on the match is on and nobody shops.
  ghost predicate FreeFrom(at: nat -> BotNet, i: nat)
  { forall k: nat {:trigger at(k)} :: k >= i ==> Free(at(k)) }

  // The drive at k is a play: the bot's game advances by one tick and the plan is sent.
  predicate PlaysAt(at: nat -> BotNet, via: nat -> BotMove, k: nat) { via(k).Drive? && Clear(at(k)) }

  lemma {:induction false} PlayFrom(at: nat -> BotNet, via: nat -> BotMove, i: nat, j: nat) returns (k: nat)
    requires IsRun(at, via) && Fair(via) && BotInv(at(0)) && FreeFrom(at, i)
    requires i <= j && KindOf(via(j)) == NextKind(PlayRank(at(i)))
    ensures k >= i && PlaysAt(at, via, k)
    decreases PlayRank(at(i)).phase, PlayRank(at(i)).load, PlayRank(at(i)).turn, PlayRank(at(i)).pos, j - i
  {
    hide BotInv, PlayRank, Free, NextKind, Moved, CanMove, Clear;
    var m := via(i);
    if PlaysAt(at, via, i) {
      k := i;
    } else {
      RunInv(at, via, i);
      RunInv(at, via, i + 1);
      assert Free(at(i)) && Free(at(i + 1));
      MovesOn(at(i), m);
      var r := PlayRank(at(i + 1));
      if r == PlayRank(at(i)) {
        assert i != j;
        k := PlayFrom(at, via, i + 1, j);
      } else {
        assert Later(via, i + 1, NextKind(r));
        var j': nat :| j' >= i + 1 && KindOf(via(j')) == NextKind(r);
        k := PlayFrom(at, via, i + 1, j');
      }
    }
  }

  /** The bot keeps playing: on every fair run from the start of a match, once nobody shops any
      more while the match is on, every moment is followed by a drive that plays. */
  lemma BotKeepsPlaying(at: nat -> BotNet, via: nat -> BotMove, i: nat, seedA: Word, seedB: Word, s: Seat)
    returns (k: nat)
    requires IsRun(at, via) && Fair(via) && at(0) == NewBotNet(NewBout(seedA, seedB), s) && FreeFrom(at, i)
    ensures k >= i && PlaysAt(at, via, k)
  {
    NewInv(seedA, seedB, s);
    hide BotInv, PlayRank, NextKind, IsRun, Clear, Free;
    var h := NextKind(PlayRank(at(i)));
    assert Later(via, i, h);
    var j: nat :| j >= i && KindOf(via(j)) == h;
    k := PlayFrom(at, via, i, j);
  }
}
