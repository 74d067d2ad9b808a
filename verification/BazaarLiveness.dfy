/** A bot always gets its side out of the bazaar: the invariant of every reachable state of the
    protocol, a measure that every fair delivery, server iteration and bot tick drives down,
    and the theorem over infinite fair runs. */
module BazaarLiveness {
  import opened Wrappers
  import opened Weapons
  import opened Arsenals
  import opened Engine
  import opened Inputs
  import opened TallyLaws
  import opened VersusMatch
  import opened BoutLog
  import opened MirrorLaws
  import opened Prediction
  import opened PredictionLaws
  import opened Sessions
  import opened SessionLaws
  import opened BazaarTrail
  import opened BotSync

  // ----- what each step does to the bazaar flags -----

  predicate Shops(g: Sim) { g.tally.inBazaar }

  lemma LegalKeepsBazaar(g: Sim, i: Input)
    requires Legal(i)
    ensures Shops(ApplySim(g, i).g) == (Shops(g) && !i.LeaveKey?)
  { hide Fits, RotateNow, Buy, Sell, UseSlot, Price, On, DropStep; }

  lemma EventKeepsBazaar(c: Predictor, e: RelayEvent)
    requires Shops(c.p.g)
    ensures Shops(OnEvent(c, ToInput(e)).p.g)
  {
    hide ReceiveOpLines;
    if e.RelayOpScore? { ReceiveKept(c.p.g, e.lines); }
  }

  lemma {:induction false} ReplayKeepsBazaar(p: Player, us: seq<Sent>)
    requires Shops(p.g) && forall u :: u in us ==> Legal(u.input)
    ensures Shops(ReplayTail(p, us).g)
    decreases |us|
  {
    hide ApplySim, Shops;
    if us != [] {
      var q := ReplayInput(p, us[0].input);
      assert Shops(q.g) by { ReplayOne(p, us[0].input); }
      ReplayKeepsBazaar(q, us[1..]);
    }
  }

  lemma ReplayOne(p: Player, i: Input)
    requires Shops(p.g) && Legal(i)
    ensures Shops(ReplayInput(p, i).g)
  {
    hide ApplySim;
    LegalKeepsBazaar(p.g, i);
  }

  lemma TickKeepsBazaar(c: Predictor, dt: int)
    ensures Shops(c.p.g) ==> Shops(ClientTick(c, dt).p.g)
  { hide Spawn, Slide, Fall, TickWeapons; }

  // A drained bazaar opening asks for keyframes.
  lemma {:induction false} OpeningMarksDirty(att: Player, vic: Player, evs: seq<GameEvent>)
    requires EnterBazaar in evs
    ensures RelayAll(att, vic, evs).dirty
    decreases |evs|
  {
    hide Deliver, Apply, AddFunds, On;
    if evs[0] != EnterBazaar {
      assert EnterBazaar in evs[1..];
      var r := RelayOne(att, vic, evs[0]);
      OpeningMarksDirty(r.att, r.vic, evs[1..]);
    }
  }

  // Before a pass: whoever entered has the opening queued, or entered earlier.
  // After it: an opening was drained, or is queued for the next pass.
  ghost predicate Announced(p: Player, q: Player, dirty: bool)
  {
    && (Shops(p.g) ==> Shops(q.g))
    && (EnterBazaar in p.ev ==> dirty)
    && (Shops(q.g) && !Shops(p.g) ==> dirty || EnterBazaar in q.ev)
  }

  lemma TailHas(a: seq<GameEvent>, b: seq<GameEvent>)
    requires a <= b
    ensures EnterBazaar in b <==> EnterBazaar in a || EnterBazaar in b[|a|..]
  { assert b == a + b[|a|..]; }

  lemma RelayAnnounces(v: Versus, s: Seat)
    ensures Announced(v.Of(s), Relay(v).Of(s), Relay(v).dirty)
  {
    var a0 := v.a.(ev := []);
    var r := FirstHalf(v);
    var b0 := r.vic.(ev := []);
    var t := SecondHalf(v);
    RelayAllLaw(a0, v.b, v.a.ev);
    RelayAllLaw(b0, r.att, r.vic.ev);
    if EnterBazaar in v.a.ev { OpeningMarksDirty(a0, v.b, v.a.ev); }
    if EnterBazaar in r.vic.ev { OpeningMarksDirty(b0, r.att, r.vic.ev); }
    TailHas(v.b.ev, r.vic.ev);
    TailHas(r.att.ev, t.vic.ev);
    hide RelayAll;
  }

  lemma TickAnnounces(p: Player, dt: int)
    ensures var q := Advance(p, Tick(p.g, dt));
      && (Shops(p.g) ==> Shops(q.g))
      && (EnterBazaar in p.ev ==> EnterBazaar in q.ev)
      && (Shops(q.g) && !Shops(p.g) ==> EnterBazaar in q.ev)
  {
    TickKept(p.g, dt);
    hide Tick;
  }

  lemma VTickAnnounces(v: Versus, dt: int, s: Seat)
    requires v.result == 0
    ensures Announced(v.Of(s), VTick(v, dt).Of(s), VTick(v, dt).dirty)
  {
    var t := TickBoth(v, dt);
    TickAnnounces(v.a, dt);
    TickAnnounces(v.b, dt);
    RelayAnnounces(t, s);
    hide Tick, Relay;
  }

  // ----- the invariant -----

  predicate ServerShops(l: Link) { Shops(l.Game()) }
  predicate LocalShops(l: Link) { Shops(l.cl.p.g) }

  // A keyframe will go out with one of the next snapshots.
  predicate Pending(l: Link) { l.want || EnterBazaar in l.bout.v.Of(l.seat).ev }

  predicate FramesHonest(fs: seq<Message>)
  { forall f :: f in fs && f.Snap? && f.kf.Some? ==> f.kf.value.g.tally.inBazaar == f.you }

  // Only the last input in flight can be a leave, and then the server is in the bazaar.
  predicate LeaveLast(fl: seq<Sent>, sb: bool)
  { forall k :: 0 <= k < |fl| && fl[k].input.LeaveKey? ==> k == |fl| - 1 && sb }

  ghost predicate KeyframeAssured(l: Link)
  { Pending(l) || KeyframeComing(l.down) || (LocalShops(l) && AllShopping(l.down)) }

  ghost predicate BotInv(n: BotNet)
  {
    var l, v := n.l, n.view;
    && l.up && Stream(l)
    && v.acked == LastSeen(l.cl) && l.cl.youBaz == v.inBaz && l.cl.oppBaz == v.oppBaz
    && Trail(l.down, v.acked, v.inBaz, l.bout.Ack(l.seat), ServerShops(l))
    && FramesHonest(l.down)
    && LeaveLast(l.InFlight(), ServerShops(l))
    && (ServerShops(l) ==> KeyframeAssured(l))
  }

  // ----- the server's side of the steps -----

  lemma TakenOne(b: Bout, s: Seat, u: Sent)
    requires Fresh(b, s, u.input, u.no)
    ensures var b' := ApplyInput(b, s, u.input, u.no);
      && Shops(b'.v.Of(s).g) == (Shops(b.v.Of(s).g) && !u.input.LeaveKey?)
      && (EnterBazaar in b.v.Of(s).ev ==> EnterBazaar in b'.v.Of(s).ev)
      && b'.Ack(s) == u.no && b'.v.result == b.v.result
  {
    LegalKeepsBazaar(b.v.Of(s).g, u.input);
    hide ApplySim;
  }

  lemma TakeInv(n: BotNet)
    requires BotInv(n)
    ensures BotInv(n.(l := Take(n.l)))
    // A leave that arrives finds the server still in the bazaar, and takes it out.
    ensures n.l.queue != [] && n.l.queue[0].input.LeaveKey? ==>
      ServerShops(n.l) && !ServerShops(Take(n.l)) && Take(n.l).InFlight() == []
    ensures n.l.queue != [] && !n.l.queue[0].input.LeaveKey? ==> ServerShops(Take(n.l)) == ServerShops(n.l)
  {
    var l := n.l;
    TakeKeeps(l);
    if l.queue != [] {
      var u := l.queue[0];
      assert l.InFlight()[0] == u;
      assert Fresh(l.bout, l.seat, u.input, u.no) by { HeadFresh(l); }
      TakenOne(l.bout, l.seat, u);
      var l' := Take(l);
      assert l'.InFlight() == l.InFlight()[1..];
      TrailMoves(l.down, n.view.acked, n.view.inBaz, l.bout.Ack(l.seat), ServerShops(l),
                 l'.bout.Ack(l.seat), ServerShops(l'));
      assert LeaveLast(l'.InFlight(), ServerShops(l'));
      hide ApplyInput, Stream, Trail, KeyframeComing;
    }
  }

  lemma HeadFresh(l: Link)
    requires Stream(l) && l.queue != []
    ensures Fresh(l.bout, l.seat, l.queue[0].input, l.queue[0].no)
  { assert l.InFlight()[0] == l.queue[0]; }

  lemma ServedFrames(l: Link, dt: int)
    requires !l.Over()
    ensures var g := Serve(l, dt).Game();
      && (forall f :: f in Served(l, dt) && f.Snap? ==> f.ack == l.bout.Ack(l.seat) && f.you == Shops(g))
      && FramesHonest(Served(l, dt))
      && ((l.want || BTick(l.bout, dt).v.dirty) && (l.even || Serve(l, dt).Over()) && Shops(g) ==>
            KeyframeComing(Served(l, dt)))
      && Serve(l, dt).bout.Ack(l.seat) == l.bout.Ack(l.seat)
  {
    hide VTick, PairOf, ResultFor;
    var b := BTick(l.bout, dt);
    var fs := Effects(Outbox(b.v, l.seat));
    assert forall f :: f in fs ==> !f.Snap?;
    if b.v.result != 0 || l.even {
      var f := Snapshot(b.(v := Emptied(b.v)), l.seat, b.v.result != 0 || l.want || b.v.dirty);
      assert Served(l, dt) == fs + [f];
      if f.kf.Some? && f.you {
        assert (fs + [f])[|fs|..] == [f];
        assert Synced((fs + [f])[|fs|]);
      }
    } else {
      assert Served(l, dt) == fs;
    }
  }

  lemma ServeBazaar(l: Link, dt: int)
    requires !l.Over()
    ensures var l', d := Serve(l, dt), BTick(l.bout, dt).v.dirty;
      && (ServerShops(l) ==> ServerShops(l'))
      && (EnterBazaar in l.bout.v.Of(l.seat).ev ==> d)
      && (ServerShops(l') && !ServerShops(l) ==> d || EnterBazaar in l'.bout.v.Of(l.seat).ev)
      && (!l'.Over() && !l.even ==> l'.want == (l.want || d))
      && (l'.Over() ==> l'.want == (l.want || d))
  {
    VTickAnnounces(l.bout.v, dt, l.seat);
    hide VTick, Snapshot, Effects;
  }

  lemma ServeInv(n: BotNet, dt: int)
    requires BotInv(n)
    ensures BotInv(n.(l := Serve(n.l, dt)))
  {
    var l := n.l;
    ServeKeeps(l, dt);
    if !l.Over() {
      var l' := Serve(l, dt);
      ServeIs(l, dt);
      ServeBazaar(l, dt);
      ServedFrames(l, dt);
      hide Serve, Served, BTick, Stream;
      var ack := l.bout.Ack(l.seat);
      TrailMoves(l.down, n.view.acked, n.view.inBaz, ack, ServerShops(l), ack, ServerShops(l'));
      TrailGrows(l.down, Served(l, dt), n.view.acked, n.view.inBaz, ack, ServerShops(l'));
      if ServerShops(l') {
        ComingGrows(l.down, Served(l, dt));
      }
      hide Trail, KeyframeComing;
      assert l'.InFlight() == l.InFlight();
    }
  }

  lemma OutsideInv(n: BotNet, a: Act)
    requires BotInv(n) && Foreign(n.l, a)
    ensures BotInv(n.(l := Elsewhere(n.l, a)))
    ensures ServerShops(Elsewhere(n.l, a)) == ServerShops(n.l)
    ensures Elsewhere(n.l, a).Over() == n.l.Over()
    ensures Elsewhere(n.l, a) == n.l.(bout := Elsewhere(n.l, a).bout, want := Elsewhere(n.l, a).want)
    ensures Pending(n.l) ==> Pending(Elsewhere(n.l, a))
    ensures Elsewhere(n.l, a).bout.Ack(n.l.seat) == n.l.bout.Ack(n.l.seat)
  {
    ElsewhereKeeps(n.l, a);
    ForeignFacts(n.l.bout, n.l.seat, a);
    var l' := Elsewhere(n.l, a);
    assert l'.InFlight() == n.l.InFlight();
    hide Do, Stream, Trail, KeyframeComing;
  }

  lemma ForeignFacts(b: Bout, s: Seat, a: Act)
    requires a.DoInput? ==> a.seat != s
    requires a.DoReset? ==> a.who != s
    requires !a.DoTick?
    ensures Shops(Do(b, a).v.Of(s).g) == Shops(b.v.Of(s).g)
    ensures b.v.Of(s).ev <= Do(b, a).v.Of(s).ev
    ensures Do(b, a).Ack(s) == b.Ack(s) && Do(b, a).v.result == b.v.result
  { hide ApplySim, Buy; if a.DoGrant? { GrantFacts(b, s, a.to, a.weapon, a.funds); } }

  lemma GrantFacts(b: Bout, s: Seat, to: Seat, w: Option<WeaponToken>, f: int)
    ensures var b' := DebugGrant(b, to, w, f);
      && Shops(b'.v.Of(s).g) == Shops(b.v.Of(s).g) && b.v.Of(s).ev <= b'.v.Of(s).ev
      && b'.Ack(s) == b.Ack(s) && b'.v.result == b.v.result
  { hide Buy; }

  // ----- the bot's side of the steps -----

  lemma PredictFacts(c: Predictor, i: Input)
    requires Legal(i)
    ensures var c' := Predict(c, i);
      && Shops(c'.p.g) == Shops(c.p.g) && c'.youBaz == c.youBaz && c'.oppBaz == c.oppBaz
      && (if Forwards(c, i) then c'.inputSeq == c.inputSeq + 1 && c'.unacked == c.unacked + [Sent(c.inputSeq + 1, i)]
          else c' == c)
  {
    LegalKeepsBazaar(c.p.g, i);
    hide ApplySim, Forwards, Legal, Shops;
  }

  lemma LeaveForwarded(c: Predictor)
    ensures Forwards(c, LeaveKey)
  {}

  lemma SendFacts(l: Link, i: Input)
    requires Legal(i)
    ensures var l' := SendInput(l, i);
      && l' == l.(cl := l'.cl, wire := l'.wire)
      && LocalShops(l') == LocalShops(l)
      && l'.cl.youBaz == l.cl.youBaz && l'.cl.oppBaz == l.cl.oppBaz
      && ((l'.wire == l.wire && l'.cl.inputSeq == l.cl.inputSeq && l'.cl.unacked == l.cl.unacked)
          || (l'.wire == l.wire + [Sent(l.cl.inputSeq + 1, i)] && l'.cl.inputSeq == l.cl.inputSeq + 1
              && |l'.cl.unacked| == |l.cl.unacked| + 1))
      && (i.LeaveKey? ==> l'.wire == l.wire + [Sent(l.cl.inputSeq + 1, i)])
  {
    hide Predict, Legal, Shops, Forwards;
    PredictFacts(l.cl, i);
    LeaveForwarded(l.cl);
  }

  lemma PurchasesLegal(shop: seq<WeaponToken>)
    ensures forall i :: i in Purchases(shop) ==> Legal(i) && !i.LeaveKey?
  {}

  // A batch without a leave.
  lemma {:induction false} SendAllFacts(l: Link, ins: seq<Input>)
    requires Stream(l) && forall i :: i in ins ==> Legal(i) && !i.LeaveKey?
    ensures var l' := SendAll(l, ins);
      && Stream(l') && l' == l.(cl := l'.cl, wire := l'.wire)
      && LocalShops(l') == LocalShops(l)
      && l'.cl.youBaz == l.cl.youBaz && l'.cl.oppBaz == l.cl.oppBaz
      && LastSeen(l'.cl) == LastSeen(l.cl)
      && l.wire <= l'.wire && l'.cl.inputSeq == l.cl.inputSeq + |l'.wire| - |l.wire|
      && (forall k :: |l.wire| <= k < |l'.wire| ==> !l'.wire[k].input.LeaveKey?)
    decreases |ins|
  {
    hide Stream, SendInput, Legal;
    if ins != [] {
      assert ins[0] in ins;
      SendFacts(l, ins[0]);
      SendKeeps(l, ins[0]);
      var m := SendInput(l, ins[0]);
      assert forall i :: i in ins[1..] ==> i in ins;
      SendAllFacts(m, ins[1..]);
    }
  }

  // With everything acknowledged nothing is in flight, so the client's view of its own
  // side's bazaar still holds at the server.
  lemma CaughtUp(n: BotNet)
    requires BotInv(n) && n.view.acked >= n.l.cl.inputSeq
    ensures n.l.InFlight() == [] && n.l.bout.Ack(n.l.seat) == n.l.cl.inputSeq == n.view.acked
    ensures n.view.inBaz ==> ServerShops(n.l) && AllShopping(n.l.down)
  {
    hide Numbered;
    TrailEnd(n.l.down, n.view.acked, n.view.inBaz, n.l.bout.Ack(n.l.seat), ServerShops(n.l));
  }

  // What the bot sends keeps the invariant: gameplay anywhere, a leave only as the last
  // input and only when the server is in the bazaar.
  lemma BatchInv(n: BotNet, l': Link, v': View)
    requires BotInv(n) && n.l.InFlight() == [] && Stream(l')
    requires l' == n.l.(cl := l'.cl, wire := l'.wire)
    requires LastSeen(l'.cl) == LastSeen(n.l.cl)
    requires l'.cl.youBaz == n.l.cl.youBaz && l'.cl.oppBaz == n.l.cl.oppBaz
    requires LocalShops(n.l) ==> LocalShops(l')
    requires LeaveLast(l'.wire, ServerShops(n.l))
    requires v' == n.view.(bought := v'.bought)
    ensures BotInv(BotNet(l', v'))
  {
    hide Stream, Trail, KeyframeComing;
    assert l'.InFlight() == l'.wire;
  }

  lemma PlayFacts(l: Link, plan: seq<Input>)
    requires Stream(l) && forall i :: i in plan ==> Gameplay(i)
    ensures var l' := PlayTick(l, plan);
      && Stream(l') && l' == l.(cl := l'.cl, wire := l'.wire)
      && (LocalShops(l) ==> LocalShops(l'))
      && l'.cl.youBaz == l.cl.youBaz && l'.cl.oppBaz == l.cl.oppBaz
      && LastSeen(l'.cl) == LastSeen(l.cl)
      && l.wire <= l'.wire && l'.cl.inputSeq == l.cl.inputSeq + |l'.wire| - |l.wire|
      && (forall k :: |l.wire| <= k < |l'.wire| ==> !l'.wire[k].input.LeaveKey?)
  {
    LocalTickKeeps(l, TICK_MS);
    TickKeepsBazaar(l.cl, TICK_MS);
    var m := l.(cl := ClientTick(l.cl, TICK_MS));
    assert m.cl == l.cl.(p := m.cl.p, ring := m.cl.ring, lastSeen := m.cl.lastSeen) by { hide Tick; }
    assert forall i :: i in plan ==> Legal(i) && !i.LeaveKey?;
    hide Stream, ClientTick, Legal, SendInput;
    SendAllFacts(m, plan);
    hide SendAll;
  }

  lemma PlayInv(n: BotNet, plan: seq<Input>)
    requires BotInv(n) && n.view.acked >= n.l.cl.inputSeq
    requires forall i :: i in plan ==> Gameplay(i)
    ensures var l' := PlayTick(n.l, plan);
      && BotInv(n.(l := l'))
      && l' == n.l.(cl := l'.cl, wire := l'.wire)
      && l'.cl.inputSeq == n.l.cl.inputSeq + |l'.wire|
      && (forall k :: 0 <= k < |l'.wire| ==> !l'.wire[k].input.LeaveKey?)
      && (LocalShops(n.l) ==> LocalShops(l'))
  {
    CaughtUp(n);
    PlayFacts(n.l, plan);
    hide Stream, PlayTick, Trail, KeyframeAssured, LocalShops, ServerShops, FramesHonest, Gameplay;
    assert n.l.wire == [];
    BatchInv(n, PlayTick(n.l, plan), n.view);
  }

  lemma LeaveIsLegal()
    ensures Legal(LeaveKey)
  {}

  lemma LeaveInv(n: BotNet, m: Link, v': View)
    requires BotInv(n) && n.view.acked >= n.l.cl.inputSeq && n.view.inBaz
    requires Stream(m) && m == n.l.(cl := m.cl, wire := m.wire)
    requires LastSeen(m.cl) == LastSeen(n.l.cl)
    requires m.cl.youBaz == n.l.cl.youBaz && m.cl.oppBaz == n.l.cl.oppBaz
    requires LocalShops(m) == LocalShops(n.l)
    requires forall k :: 0 <= k < |m.wire| ==> !m.wire[k].input.LeaveKey?
    requires v' == n.view.(bought := v'.bought)
    ensures var l' := SendInput(m, LeaveKey);
      && BotInv(BotNet(l', v')) && l' == n.l.(cl := l'.cl, wire := l'.wire)
      && l'.wire != [] && l'.wire[|l'.wire| - 1].input.LeaveKey?
  {
    hide Stream, SendInput, Trail, KeyframeAssured, LocalShops, ServerShops, FramesHonest, Predict, Legal;
    CaughtUp(n);
    assert Legal(LeaveKey) by { LeaveIsLegal(); }
    SendFacts(m, LeaveKey);
    SendKeeps(m, LeaveKey);
    BatchInv(n, SendInput(m, LeaveKey), v');
  }

  lemma ShopInv(n: BotNet, shop: seq<WeaponToken>)
    requires BotInv(n) && n.view.acked >= n.l.cl.inputSeq && n.view.inBaz
    ensures var l' := ShopBazaar(n.l, shop);
      && BotInv(BotNet(l', n.view.(bought := true))) && l' == n.l.(cl := l'.cl, wire := l'.wire)
      && l'.wire != [] && l'.wire[|l'.wire| - 1].input.LeaveKey?
  {
    hide Stream, SendInput, Legal, Trail, KeyframeAssured, LocalShops, ServerShops, FramesHonest, LeaveLast, SendAll,
      Purchases;
    CaughtUp(n);
    PurchasesLegal(shop);
    SendAllFacts(n.l, Purchases(shop));
    LeaveInv(n, SendAll(n.l, Purchases(shop)), n.view.(bought := true));
  }

  // ----- hearing -----

  lemma HeardLocal(l: Link)
    requires l.down != [] && FramesHonest(l.down) && forall u :: u in l.cl.unacked ==> Legal(u.input)
    ensures var f, l' := l.down[0], Hear(l);
      && (f.Snap? && f.kf.Some? && f.you ==> LocalShops(l'))
      && (LocalShops(l) && (f.Snap? ==> f.you) ==> LocalShops(l'))
      && (f.Snap? ==> l'.cl.youBaz == f.you && l'.cl.oppBaz == f.opp)
      && (!f.Snap? ==> l'.cl.youBaz == l.cl.youBaz && l'.cl.oppBaz == l.cl.oppBaz)
  {
    var f := l.down[0];
    if f.Snap? {
      var c := OnSnapshot(l.cl, f.ack, f.you, f.opp, f.kf);
      JudgedSeq(c, f.lock.no, f.lock.hash);
      SnapshotLocal(l.cl, f);
      hide OnSnapshot, OnLockHash;
    } else {
      if LocalShops(l) { EventKeepsBazaar(l.cl, f.event); }
      hide Apply, ToInput;
    }
  }

  lemma SnapshotLocal(c: Predictor, f: Message)
    requires f.Snap? && forall u :: u in c.unacked ==> Legal(u.input)
    requires f.kf.Some? ==> f.kf.value.g.tally.inBazaar == f.you
    ensures var c' := OnSnapshot(c, f.ack, f.you, f.opp, f.kf);
      && c'.youBaz == f.you && c'.oppBaz == f.opp
      && (f.you && (f.kf.Some? || Shops(c.p.g)) ==> Shops(c'.p.g))
  {
    if f.kf.Some? && f.you {
      ReplayKeepsBazaar(Player(f.kf.value.g, f.kf.value.opScore, 0, []), Unacked(c.unacked, f.ack));
    }
    hide ReplayTail, Unacked, Legal;
  }

  lemma OwesLegal(l: Link)
    requires Stream(l)
    ensures forall u :: u in l.cl.unacked ==> Legal(u.input)
  { hide Legal; }

  lemma HearInv(n: BotNet)
    requires BotInv(n)
    ensures BotInv(HearFrame(n))
  {
    var l := n.l;
    if l.down != [] {
      var f, l', n' := l.down[0], Hear(l), HearFrame(n);
      HearKeeps(l);
      HeardSeq(l);
      OwesLegal(l);
      HeardLocal(l);
      hide Hear, Stream, Unacked;
      assert l'.InFlight() == l.InFlight();
      assert forall g :: g in l'.down ==> g in l.down;
      assert ServerShops(l') == ServerShops(l) && Pending(l') == Pending(l);
      if ServerShops(l) { HeardAssured(l, l'); }
      hide KeyframeAssured;
    }
  }

  lemma HeardAssured(l: Link, l': Link)
    requires l.down != [] && l'.down == l.down[1..] && KeyframeAssured(l) && Pending(l') == Pending(l)
    requires l.down[0].Snap? && l.down[0].kf.Some? && l.down[0].you ==> LocalShops(l')
    requires LocalShops(l) && (l.down[0].Snap? ==> l.down[0].you) ==> LocalShops(l')
    ensures KeyframeAssured(l')
  {
    hide Pending, LocalShops;
    if KeyframeComing(l.down) { ComingShifts(l.down); }
    assert l.down[0] in l.down;
    assert forall g :: g in l.down[1..] ==> g in l.down;
    hide KeyframeComing;
  }
}
