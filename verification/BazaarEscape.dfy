/** The liveness theorem: in every fair run of a bot against the server, whenever the server
    has the bot's side in the bazaar it later leaves it, or the match ends. */
module BazaarEscape {
  import opened Weapons
  import opened Rng
  import opened Inputs
  import opened VersusMatch
  import opened BoutLog
  import opened Prediction
  import opened PredictionLaws
  import opened Sessions
  import opened SessionLaws
  import opened BazaarTrail
  import opened BotSync
  import opened BazaarLiveness

  // ----- the invariant holds in every reachable state -----

  lemma MarkWanted(n: BotNet)
    requires BotInv(n)
    ensures BotInv(n.(l := GrantResync(n.l)))
  {
    hide Trail, KeyframeComing, FramesHonest, LeaveLast;
    WantFrame(n.l);
    hide Stream;
    assert GrantResync(n.l).InFlight() == n.l.InFlight();
  }

  lemma ResumedFrame(l: Link)
    ensures var f := Snapshot(l.bout, l.seat, true);
      && f.ack == l.bout.Ack(l.seat) && f.you == ServerShops(l) && FramesHonest([f])
      && (ServerShops(l) ==> Synced(f))
  { hide PredictionLaws.PairOf, ResultFor; }

  lemma ResumeInv(n: BotNet)
    requires BotInv(n)
    ensures BotInv(n.(l := Resume(n.l)))
  {
    hide Stream, KeyframeComing, LeaveLast, Snapshot;
    var l := n.l;
    ResumeKeeps(l);
    ResumedFrame(l);
    var f := Snapshot(l.bout, l.seat, true);
    TrailGrows(l.down, [f], n.view.acked, n.view.inBaz, l.bout.Ack(l.seat), ServerShops(l));
    hide Trail;
    assert Resume(l).InFlight() == l.InFlight();
  }

  lemma ArriveInv(n: BotNet)
    requires BotInv(n)
    ensures BotInv(n.(l := Arrive(n.l, true)))
    ensures Arrive(n.l, true).InFlight() == n.l.InFlight()
  {
    hide Stream, Trail, KeyframeComing, FramesHonest, LeaveLast;
    ArriveKeeps(n.l);
    assert Arrive(n.l, true).InFlight() == n.l.InFlight();
  }

  lemma DriveInv(n: BotNet, idle: bool, plan: seq<Input>, shop: seq<WeaponToken>)
    requires BotInv(n) && CanMove(n, Drive(idle, plan, shop))
    ensures BotInv(DriveTick(n, idle, plan, shop))
  {
    hide Stream, Trail, KeyframeAssured, FramesHonest, LeaveLast, ShopBazaar, PlayTick, SendInput, Gameplay;
    match Decide(n.Sync(idle)) {
      case Shop => ShopInv(n, shop);
      case Play => PlayInv(n, plan);
      case WaitBazaar =>
        if n.view.inBaz && n.view.bought {
          CaughtUp(n);
          LeaveInv(n, n.l, n.view);
        }
      case _ =>
    }
  }

  lemma MoveInv(n: BotNet, m: BotMove)
    requires BotInv(n) && CanMove(n, m)
    ensures BotInv(Moved(n, m))
  {
    hide BotInv, Take, Serve, Arrive, Elsewhere, Resume, GrantResync, DriveTick, HearFrame;
    match m
    case Drive(idle, plan, shop) => DriveInv(n, idle, plan, shop);
    case Arrival => ArriveInv(n);
    case Taking => TakeInv(n);
    case Serving(dt) => ServeInv(n, dt);
    case Hearing => HearInv(n);
    case Outside(a) => OutsideInv(n, a);
    case Resync => MarkWanted(n);
    case Resumed => ResumeInv(n);
  }

  lemma NewInv(seedA: Word, seedB: Word, s: Seat)
    ensures BotInv(NewBotNet(NewBout(seedA, seedB), s))
  {
    hide Stream, NewPlayer, NewVersus;
    FreshStream(seedA, seedB, s);
    NewServer(seedA, seedB, s);
  }

  lemma NewServer(seedA: Word, seedB: Word, s: Seat)
    ensures !ServerShops(NewLink(NewBout(seedA, seedB), s))
  {
    hide NewPlayer;
    FreshShop(seedA);
    FreshShop(seedB);
  }

  lemma FreshShop(seed: Word)
    ensures !Shops(NewPlayer(seed).g)
  {}

  // ----- the measure -----

  // What is still to happen: a leave to arrive; a keyframe into the bazaar to be heard; an
  // acknowledgement from inside the bazaar; a stale view to be used up.
  datatype Rank = Rank(phase: nat, load: nat, turn: nat, pos: nat)

  predicate Lower(r: Rank, s: Rank)
  {
    || r.phase < s.phase
    || (r.phase == s.phase && r.load < s.load)
    || (r.phase == s.phase && r.load == s.load && r.turn < s.turn)
    || (r.phase == s.phase && r.load == s.load && r.turn == s.turn && r.pos < s.pos)
  }

  predicate LeaveFlying(l: Link) { exists u :: u in l.InFlight() && u.input.LeaveKey? }

  // The bot knows: everything acknowledged, and its side in the bazaar.
  predicate ViewGood(n: BotNet) { n.view.acked == n.l.cl.inputSeq && n.view.inBaz }

  // The bot may yet play once more on a view from before the bazaar.
  predicate StaleView(n: BotNet)
  {
    || (n.view.acked == n.l.cl.inputSeq && !n.view.inBaz)
    || (exists f :: f in n.l.down && Stale(f, n.l.cl.inputSeq))
  }

  function Load(l: Link): nat { |l.queue| + 2 * |l.wire| }

  function RankOf(n: BotNet): Rank
  {
    var l := n.l;
    var k, g := FirstSynced(l.down), FirstGood(l.down, l.cl.inputSeq);
    var phase := if StaleView(n) then 3 else 2;
    if LeaveFlying(l) then Rank(0, Load(l), if l.queue != [] then 0 else 1, 0)
    else if ViewGood(n) then
      if LocalShops(l) || n.view.bought then Rank(1, 0, 0, 0)
      else if k < |l.down| then Rank(1, 0, 1, k)
      else Rank(1, 0, if l.even then 2 else 3, 0)
    else if Load(l) > 0 then Rank(phase, Load(l), if l.queue != [] then 0 else 1, 0)
    else if g < |l.down| then Rank(phase, 0, 0, g)
    else Rank(phase, 0, if l.even then 1 else 2, 0)
  }

  datatype Kind = Driving | Delivering | Processing | Iterating | Listening | Other

  function KindOf(m: BotMove): Kind
  {
    match m
    case Drive(_, _, _) => Driving
    case Arrival => Delivering
    case Taking => Processing
    case Serving(_) => Iterating
    case Hearing => Listening
    case _ => Other
  }

  // The kind of move that brings a state with this rank forward.
  function Helpful(r: Rank): (k: Kind)
    ensures k != Other
  {
    if r.phase == 1 then (if r.turn == 0 then Driving else if r.turn == 1 then Listening else Iterating)
    else if r.phase == 0 || r.load > 0 then (if r.turn == 0 then Processing else Delivering)
    else (if r.turn == 0 then Listening else Iterating)
  }

  // The server has this side in the bazaar, and the match goes on.
  predicate Waiting(n: BotNet) { ServerShops(n.l) && !n.l.Over() && !n.view.done }

  predicate Progress(n: BotNet, n': BotNet, helpful: bool)
  {
    var r, r' := RankOf(n), RankOf(n');
    (r' == r || Lower(r', r)) && (helpful ==> Lower(r', r))
  }

  // ----- every move -----

  lemma QueueProgress(n: BotNet, l': Link)
    requires BotInv(n) && (n.l.queue != [] || n.l.wire != [])
    requires l' == n.l.(bout := l'.bout, queue := l'.queue, wire := l'.wire)
    requires LeaveFlying(l') == LeaveFlying(n.l) && Load(l') < Load(n.l)
    ensures Progress(n, n.(l := l'), true)
  {
    hide Stream, Trail, KeyframeAssured, FramesHonest, LeaveLast, LocalShops;
    if ViewGood(n) { CaughtUp(n); }
    hide StaleView, LeaveFlying;
  }

  lemma ArriveProgress(n: BotNet)
    requires BotInv(n)
    ensures Progress(n, n.(l := Arrive(n.l, true)), Helpful(RankOf(n)) == Delivering)
  {
    ArriveInv(n);
    hide BotInv, StaleView, LocalShops;
    if n.l.wire != [] {
      QueueProgress(n, Arrive(n.l, true));
    } else {
      assert Arrive(n.l, true) == n.l;
      NotWaitingHere(n);
    }
  }

  // With nothing to deliver or to process, these moves are not the helpful ones.
  lemma NotWaitingHere(n: BotNet)
    ensures n.l.wire == [] ==> Helpful(RankOf(n)) != Delivering
    ensures n.l.queue == [] ==> Helpful(RankOf(n)) != Processing
  {
    hide StaleView, LocalShops;
    if n.l.queue == [] && n.l.wire == [] { NothingFlying(n.l); }
  }

  lemma NothingFlying(l: Link)
    requires l.queue == [] && l.wire == []
    ensures !LeaveFlying(l)
  { assert l.InFlight() == []; }

  lemma TakeProgress(n: BotNet)
    requires BotInv(n) && Waiting(n) && Waiting(n.(l := Take(n.l)))
    ensures Progress(n, n.(l := Take(n.l)), Helpful(RankOf(n)) == Processing)
  {
    TakeInv(n);
    hide BotInv, StaleView, LocalShops;
    if n.l.queue != [] {
      var l' := Take(n.l);
      assert n.l.InFlight() == [n.l.queue[0]] + l'.InFlight();
      QueueProgress(n, l');
    } else {
      NotWaitingHere(n);
    }
  }

  // Messages from inside the bazaar come behind what is already on its way.
  lemma GrowthProgress(n: BotNet, l': Link, gs: seq<Message>)
    requires BotInv(n) && ServerShops(n.l)
    requires l' == n.l.(bout := l'.bout, even := l'.even, want := l'.want, down := n.l.down + gs)
    requires forall g :: g in gs && g.Snap? ==> g.ack == n.l.bout.Ack(n.l.seat) && g.you
    // Either a snapshot goes out now, with the keyframe if one is due, or the next tick's is closer.
    requires l'.even == n.l.even || (n.l.even && exists g :: g in gs && g.Snap?) || (!n.l.even && l'.even)
    requires n.l.even && !l'.even && Pending(n.l) ==> exists g :: g in gs && Synced(g)
    ensures Progress(n, n.(l := l'), l'.even != n.l.even && Helpful(RankOf(n)) == Iterating)
  {
    hide BotInv, StaleView, LocalShops, FirstGood, FirstSynced, Pending, ServerShops, LeaveFlying;
    var l, last := n.l, n.l.cl.inputSeq;
    FirstGrows(l.down, gs, last);
    SameFlying(l, l');
    StaleGrows(n, l', gs);
    if ViewGood(n) {
      GrowthWhenGood(n, gs);
    } else if !LeaveFlying(l) && Load(l) == 0 {
      GrowthWhenCaughtUp(n, gs);
    }
  }

  lemma SameFlying(l: Link, l': Link)
    requires l'.queue == l.queue && l'.wire == l.wire && l'.cl == l.cl
    ensures LeaveFlying(l') == LeaveFlying(l) && LocalShops(l') == LocalShops(l)
  { assert l'.InFlight() == l.InFlight(); }

  lemma StaleGrows(n: BotNet, l': Link, gs: seq<Message>)
    requires l' == n.l.(bout := l'.bout, even := l'.even, want := l'.want, down := n.l.down + gs)
    requires forall g :: g in gs && g.Snap? ==> g.you
    ensures StaleView(n.(l := l')) == StaleView(n)
  {
    assert forall f :: f in n.l.down ==> f in l'.down;
    assert forall f :: f in l'.down ==> f in n.l.down || f in gs;
  }

  lemma GrowthWhenGood(n: BotNet, gs: seq<Message>)
    requires BotInv(n) && ViewGood(n) && ServerShops(n.l)
    ensures FirstSynced(n.l.down) == |n.l.down| && !LocalShops(n.l) ==> Pending(n.l)
    ensures (exists g :: g in gs && Synced(g)) ==> FirstSynced(n.l.down + gs) < |n.l.down + gs|
  {
    hide Stream, Trail, FramesHonest, LeaveLast;
    if exists g :: g in gs && Synced(g) {
      var g :| g in gs && Synced(g);
      assert g in n.l.down + gs;
    }
  }

  lemma GrowthWhenCaughtUp(n: BotNet, gs: seq<Message>)
    requires BotInv(n) && Load(n.l) == 0
    requires forall g :: g in gs && g.Snap? ==> g.ack == n.l.bout.Ack(n.l.seat) && g.you
    ensures (exists g :: g in gs && g.Snap?) ==>
      FirstGood(n.l.down + gs, n.l.cl.inputSeq) < |n.l.down + gs|
  {
    hide Numbered, Trail, FramesHonest, LeaveLast, KeyframeAssured;
    assert n.l.InFlight() == [];
    if exists g :: g in gs && g.Snap? {
      var g :| g in gs && g.Snap?;
      assert g in n.l.down + gs && Good(g, n.l.cl.inputSeq);
    }
  }

  lemma ServeProgress(n: BotNet, dt: int)
    requires BotInv(n) && Waiting(n) && Waiting(n.(l := Serve(n.l, dt)))
    ensures Progress(n, n.(l := Serve(n.l, dt)), Helpful(RankOf(n)) == Iterating)
  {
    var l := n.l;
    ServeIs(l, dt);
    ServeBazaar(l, dt);
    ServedFrames(l, dt);
    if l.even { ServedSnap(l, dt); }
    hide BotInv, Serve, Served, BTick, RankOf;
    GrowthProgress(n, Serve(l, dt), Served(l, dt));
  }

  lemma ServedSnap(l: Link, dt: int)
    requires !l.Over() && l.even
    ensures exists g :: g in Served(l, dt) && g.Snap?
    ensures KeyframeComing(Served(l, dt)) ==> exists g :: g in Served(l, dt) && Synced(g)
  {
    hide BTick, Snapshot, Emptied;
    var b := BTick(l.bout, dt);
    var f := Snapshot(b.(v := Emptied(b.v)), l.seat, b.v.result != 0 || l.want || b.v.dirty);
    assert Served(l, dt)[|Served(l, dt)| - 1] == f;
    assert f.Snap? by { SnapIs(b.(v := Emptied(b.v)), l.seat, b.v.result != 0 || l.want || b.v.dirty); }
  }

  lemma SnapIs(b: Bout, s: Seat, full: bool) ensures Snapshot(b, s, full).Snap? {}

  lemma OutsideProgress(n: BotNet, a: Act)
    requires BotInv(n) && Waiting(n) && Foreign(n.l, a)
    ensures Progress(n, n.(l := Elsewhere(n.l, a)), false)
  {
    OutsideInv(n, a);
    hide BotInv, Elsewhere, RankOf, StaleView, ServerShops;
    assert n.l.down + [] == n.l.down;
    GrowthProgress(n, Elsewhere(n.l, a), []);
  }

  lemma ResyncProgress(n: BotNet)
    requires BotInv(n) && Waiting(n)
    ensures Progress(n, n.(l := GrantResync(n.l)), false)
  {
    hide BotInv, RankOf, StaleView, ServerShops;
    assert n.l.down + [] == n.l.down;
    GrowthProgress(n, GrantResync(n.l), []);
  }

  lemma ResumeProgress(n: BotNet)
    requires BotInv(n) && Waiting(n)
    ensures Progress(n, n.(l := Resume(n.l)), false)
  {
    ResumedFrame(n.l);
    hide BotInv, RankOf, StaleView, ServerShops, Snapshot, FramesHonest;
    GrowthProgress(n, Resume(n.l), [Snapshot(n.l.bout, n.l.seat, true)]);
  }

  // ----- hearing -----

  lemma HeardGood(n: BotNet)
    requires BotInv(n) && ViewGood(n) && n.l.down != []
    ensures ViewGood(HearFrame(n))
    ensures n.view.bought ==> HearFrame(n).view.bought
    ensures LocalShops(n.l) || Synced(n.l.down[0]) ==> LocalShops(HearFrame(n).l)
  {
    CaughtUp(n);
    TrailEnd(n.l.down, n.view.acked, n.view.inBaz, n.l.bout.Ack(n.l.seat), ServerShops(n.l));
    OwesLegal(n.l);
    HeardLocal(n.l);
    HeardSeq(n.l);
    assert n.l.down[0] in n.l.down;
    hide Hear, Stream, Trail, KeyframeAssured, FramesHonest, LeaveLast, LocalShops;
  }

  lemma HeardStale(n: BotNet)
    requires n.l.down != []
    ensures StaleView(HearFrame(n)) ==> StaleView(n)
    ensures Good(n.l.down[0], n.l.cl.inputSeq) ==> ViewGood(HearFrame(n))
    ensures ViewGood(HearFrame(n)) ==> ViewGood(n) || Good(n.l.down[0], n.l.cl.inputSeq)
  {
    HeardSeq(n.l);
    hide Hear;
    assert n.l.down[0] in n.l.down;
    assert forall f :: f in n.l.down[1..] ==> f in n.l.down;
  }

  lemma NoGoodWhileLoaded(n: BotNet)
    requires BotInv(n) && Load(n.l) > 0
    ensures forall f :: f in n.l.down ==> !Good(f, n.l.cl.inputSeq)
  {
    TrailEnd(n.l.down, n.view.acked, n.view.inBaz, n.l.bout.Ack(n.l.seat), ServerShops(n.l));
    hide Trail, KeyframeAssured, FramesHonest, LeaveLast;
  }

  // The head is heard: what it leaves in front of the frames still looked for.
  lemma HeardPositions(fs: seq<Message>, last: int)
    requires fs != []
    ensures FirstGood(fs, last) == (if Good(fs[0], last) then 0 else 1 + FirstGood(fs[1..], last))
    ensures FirstSynced(fs) == (if Synced(fs[0]) then 0 else 1 + FirstSynced(fs[1..]))
    ensures FirstGood(fs, last) < |fs| && !Good(fs[0], last) ==> FirstGood(fs[1..], last) < |fs[1..]|
    ensures FirstSynced(fs) < |fs| && !Synced(fs[0]) ==> FirstSynced(fs[1..]) < |fs[1..]|
  {}

  lemma HeardFlying(n: BotNet)
    requires n.l.down != []
    ensures LeaveFlying(HearFrame(n).l) == LeaveFlying(n.l) && Load(HearFrame(n).l) == Load(n.l)
    ensures HearFrame(n).l == n.l.(down := n.l.down[1..], cl := HearFrame(n).l.cl)
    ensures HearFrame(n).l.cl.inputSeq == n.l.cl.inputSeq
  {
    HeardSeq(n.l);
    hide Hear;
    assert HearFrame(n).l.InFlight() == n.l.InFlight();
  }

  lemma HearWhenGood(n: BotNet)
    requires BotInv(n) && ViewGood(n) && n.l.down != []
    ensures Progress(n, HearFrame(n), Helpful(RankOf(n)) == Listening)
  {
    hide BotInv, StaleView, LocalShops, LeaveFlying, FirstGood, FirstSynced, Synced, Good, HearFrame;
    HeardFlying(n);
    HeardGood(n);
    HeardPositions(n.l.down, n.l.cl.inputSeq);
    CaughtUp(n);
    NothingFlying(n.l);
  }

  lemma HearOtherwise(n: BotNet)
    requires BotInv(n) && !ViewGood(n) && n.l.down != []
    ensures Progress(n, HearFrame(n), Helpful(RankOf(n)) == Listening)
  {
    hide BotInv, StaleView, LocalShops, LeaveFlying, FirstGood, FirstSynced, Synced, Good, HearFrame, ViewGood;
    HeardFlying(n);
    HeardStale(n);
    HeardPositions(n.l.down, n.l.cl.inputSeq);
    if Load(n.l) > 0 { assert !Good(n.l.down[0], n.l.cl.inputSeq)
      by { NoGoodWhileLoaded(n); assert n.l.down[0] in n.l.down; } }
  }

  lemma HearProgress(n: BotNet)
    requires BotInv(n)
    ensures Progress(n, HearFrame(n), Helpful(RankOf(n)) == Listening)
  {
    if n.l.down == [] {
      hide BotInv, StaleView, LeaveFlying;
    } else if ViewGood(n) {
      HearWhenGood(n);
    } else {
      HearOtherwise(n);
    }
  }

  // ----- the bot's turn -----

  // With the side's bazaar known and shoppable, or shopped, the bot's tick sends a leave.
  lemma DriveLeaves(n: BotNet, plan: seq<Input>, shop: seq<WeaponToken>)
    requires BotInv(n) && ViewGood(n) && !n.view.done && (LocalShops(n.l) || n.view.bought)
    requires CanMove(n, Drive(false, plan, shop))
    ensures LeaveFlying(DriveTick(n, false, plan, shop).l)
  {
    hide Stream, Trail, KeyframeAssured, FramesHonest, LeaveLast, ShopBazaar, PlayTick, SendInput, Gameplay;
    var n' := DriveTick(n, false, plan, shop);
    if LocalShops(n.l) && !n.view.bought {
      ShopInv(n, shop);
    } else {
      LeaveInv(n, n.l, n.view) by { CaughtUp(n); }
    }
    var w := n'.l.wire;
    assert w[|w| - 1] in n'.l.InFlight();
  }

  // Once it has played on a stale view, every snapshot it can act on comes from inside.
  lemma UsedUp(n: BotNet, l': Link)
    requires BotInv(n) && n.view.acked >= n.l.cl.inputSeq && !n.view.inBaz
    requires l' == n.l.(cl := l'.cl, wire := l'.wire) && l'.cl.inputSeq >= n.l.cl.inputSeq
    requires l'.wire != [] ==> l'.cl.inputSeq > n.l.cl.inputSeq
    ensures StaleView(n) && !ViewGood(n) && !ViewGood(n.(l := l'))
    ensures l'.wire != [] ==> !StaleView(n.(l := l'))
    ensures n.l.queue == [] && n.l.wire == []
  {
    CaughtUp(n);
    TrailEnd(n.l.down, n.view.acked, n.view.inBaz, n.l.bout.Ack(n.l.seat), ServerShops(n.l));
    hide Stream, Trail, KeyframeAssured, FramesHonest, LeaveLast;
  }

  lemma OnlyGameplay(l: Link)
    requires l.queue == [] && forall k :: 0 <= k < |l.wire| ==> !l.wire[k].input.LeaveKey?
    ensures !LeaveFlying(l)
  { assert l.InFlight() == l.wire; }

  lemma PlayedUp(n: BotNet, plan: seq<Input>)
    requires BotInv(n) && n.view.acked >= n.l.cl.inputSeq && !n.view.inBaz
    requires forall i :: i in plan ==> Gameplay(i)
    ensures Progress(n, n.(l := PlayTick(n.l, plan)), false)
  {
    hide PlayTick, BotInv, LocalShops, Gameplay, LeaveFlying, StaleView, ViewGood, FirstGood, FirstSynced;
    PlayInv(n, plan);
    var l' := PlayTick(n.l, plan);
    UsedUp(n, l');
    OnlyGameplay(l');
    NothingFlying(n.l);
    if l'.wire == [] { StaleSame(n, l'); }
  }

  lemma StaleSame(n: BotNet, l': Link)
    requires l'.down == n.l.down && l'.cl.inputSeq == n.l.cl.inputSeq
    ensures StaleView(n.(l := l')) == StaleView(n)
  {}

  lemma LocalIs(l: Link)
    ensures LocalShops(l) == l.cl.p.g.tally.inBazaar
  {}

  lemma DriveProgress(n: BotNet, plan: seq<Input>, shop: seq<WeaponToken>)
    requires BotInv(n) && !n.view.done && CanMove(n, Drive(false, plan, shop))
    ensures Progress(n, DriveTick(n, false, plan, shop), Helpful(RankOf(n)) == Driving)
  {
    hide BotInv, StaleView, LeaveFlying, PlayTick, LocalShops, FirstGood, FirstSynced, Gameplay, ShopBazaar, SendInput;
    LocalIs(n.l);
    var act := Decide(n.Sync(false));
    if act == Play {
      PlayedUp(n, plan);
      assert !(ViewGood(n) && LocalShops(n.l));
    } else if act == WaitAck {
    } else {
      CaughtUp(n);
      NothingFlying(n.l);
      if ViewGood(n) && (LocalShops(n.l) || n.view.bought) { DriveLeaves(n, plan, shop); }
    }
  }

  // ----- infinite runs -----

  lemma MoveProgress(n: BotNet, m: BotMove)
    requires BotInv(n) && CanMove(n, m) && Waiting(n) && Waiting(Moved(n, m))
    requires m.Drive? ==> !m.idle
    ensures Progress(n, Moved(n, m), Helpful(RankOf(n)) == KindOf(m))
  {
    hide BotInv, Progress, RankOf, Waiting, Helpful, Gameplay;
    match m
    case Drive(_, plan, shop) => assert !n.view.done by { StillOn(n); } DriveProgress(n, plan, shop);
    case Arrival => ArriveProgress(n);
    case Taking => TakeProgress(n);
    case Serving(dt) => ServeProgress(n, dt);
    case Hearing => HearProgress(n);
    case Outside(a) => OutsideProgress(n, a);
    case Resync => ResyncProgress(n);
    case Resumed => ResumeProgress(n);
  }

  lemma StillOn(n: BotNet)
    requires Waiting(n)
    ensures !n.view.done
  {}

  // A run: states and the moves between them, the bot hearing from the server often enough
  // not to give the match up as dead.
  ghost predicate IsRun(at: nat -> BotNet, via: nat -> BotMove)
  {
    forall i: nat {:trigger via(i)} ::
      CanMove(at(i), via(i)) && at(i + 1) == Moved(at(i), via(i)) && (via(i).Drive? ==> !via(i).idle)
  }

  // Deliveries, server iterations and bot ticks all keep happening.
  ghost predicate Fair(via: nat -> BotMove)
  { forall i: nat, k: Kind {:trigger Later(via, i, k)} :: k != Other ==> Later(via, i, k) }

  ghost predicate Later(via: nat -> BotMove, i: nat, k: Kind)
  { exists j: nat :: j >= i && KindOf(via(j)) == k }

  lemma {:induction false} RunInv(at: nat -> BotNet, via: nat -> BotMove, i: nat)
    requires IsRun(at, via) && BotInv(at(0))
    ensures BotInv(at(i))
    decreases i
  {
    if i > 0 {
      RunInv(at, via, i - 1);
      var m := via(i - 1);
      hide BotInv, Moved, CanMove;
      MoveInv(at(i - 1), m);
      assert at(i - 1 + 1) == Moved(at(i - 1), m);
    }
  }

  // j: a coming occurrence of the helpful kind.
  lemma {:induction false} EscapeFrom(at: nat -> BotNet, via: nat -> BotMove, i: nat, j: nat) returns (k: nat)
    requires IsRun(at, via) && Fair(via) && BotInv(at(0))
    requires i <= j && KindOf(via(j)) == Helpful(RankOf(at(i)))
    ensures k >= i && !Waiting(at(k))
    decreases RankOf(at(i)).phase, RankOf(at(i)).load, RankOf(at(i)).turn, RankOf(at(i)).pos, j - i
  {
    hide BotInv, RankOf, Waiting, Helpful, Moved, CanMove;
    var m := via(i);
    if !Waiting(at(i)) {
      k := i;
    } else if !Waiting(at(i + 1)) {
      k := i + 1;
    } else {
      RunInv(at, via, i);
      MoveProgress(at(i), m);
      var r := RankOf(at(i + 1));
      if r == RankOf(at(i)) {
        assert i != j;
        k := EscapeFrom(at, via, i + 1, j);
      } else {
        assert Later(via, i + 1, Helpful(r));
        var j': nat :| j' >= i + 1 && KindOf(via(j')) == Helpful(r);
        k := EscapeFrom(at, via, i + 1, j');
      }
    }
  }

  // ----- the bot stops only when the match is over -----

  ghost predicate EndHonest(n: BotNet)
  {
    && (n.view.done ==> n.l.Over())
    && (forall f :: f in n.l.down && f.Snap? && f.result != 0 ==> n.l.Over())
  }

  lemma {:induction false} SendAllTouches(l: Link, ins: seq<Input>)
    ensures SendAll(l, ins) == l.(cl := SendAll(l, ins).cl, wire := SendAll(l, ins).wire)
    decreases |ins|
  {
    hide Predict, Forwards;
    if ins != [] { SendAllTouches(SendInput(l, ins[0]), ins[1..]); }
  }

  lemma DriveEnds(n: BotNet, plan: seq<Input>, shop: seq<WeaponToken>)
    requires EndHonest(n)
    ensures EndHonest(DriveTick(n, false, plan, shop))
  {
    hide Predict, Forwards, ClientTick, Purchases, SendAll;
    SendAllTouches(n.l, Purchases(shop));
    SendAllTouches(n.l.(cl := ClientTick(n.l.cl, TICK_MS)), plan);
  }

  lemma ServeEnds(n: BotNet, dt: int)
    requires EndHonest(n)
    ensures EndHonest(n.(l := Serve(n.l, dt)))
  {
    hide VTick, PairOf;
    var l, l' := n.l, Serve(n.l, dt);
    if !l.Over() {
      ServeIs(l, dt);
      var b := BTick(l.bout, dt);
      assert forall f :: f in Effects(Outbox(b.v, l.seat)) ==> !f.Snap?;
      assert forall f :: f in Served(l, dt) && f.Snap? && f.result != 0 ==> l'.Over();
      hide Serve, Served, BTick;
    }
  }

  lemma OtherEnds(n: BotNet, m: BotMove)
    requires EndHonest(n) && CanMove(n, m) && !m.Drive? && !m.Serving?
    ensures EndHonest(Moved(n, m))
  {
    match m
    case Taking => hide Apply, Fresh, Barred;
    case Arrival =>
    case Hearing => if n.l.down != [] { HeardSeq(n.l); assert n.l.down[0] in n.l.down; hide Hear; }
    case Outside(a) => ForeignFacts(n.l.bout, n.l.seat, a); hide Do;
    case Resync =>
    case Resumed => hide PairOf;
  }

  lemma {:induction false} RunEnds(at: nat -> BotNet, via: nat -> BotMove, i: nat)
    requires IsRun(at, via) && EndHonest(at(0))
    ensures EndHonest(at(i))
    decreases i
  {
    if i > 0 {
      hide EndHonest, Moved, CanMove;
      RunEnds(at, via, i - 1);
      var n, m := at(i - 1), via(i - 1);
      assert at(i - 1 + 1) == Moved(n, m);
      MoveEnds(n, m);
    }
  }

  lemma MoveEnds(n: BotNet, m: BotMove)
    requires EndHonest(n) && CanMove(n, m) && (m.Drive? ==> !m.idle)
    ensures EndHonest(Moved(n, m))
  {
    hide EndHonest, DriveTick, Serve, Take, Arrive, HearFrame, Elsewhere, Resume, GrantResync;
    if m.Drive? { DriveEnds(n, m.plan, m.shop); }
    else if m.Serving? { ServeEnds(n, m.dt); }
    else { OtherEnds(n, m); }
  }

  lemma NewEnds(b: Bout, s: Seat)
    ensures EndHonest(NewBotNet(b, s))
  { hide NewPlayer; }

  /** Bazaar liveness: in every fair run from the start of a match, from every point on, the
      server comes to have the bot's side out of its bazaar, or the match is over. */
  lemma BotEscapesBazaar(at: nat -> BotNet, via: nat -> BotMove, i: nat, seedA: Word, seedB: Word,
    s: Seat) returns (k: nat)
    requires IsRun(at, via) && Fair(via) && at(0) == NewBotNet(NewBout(seedA, seedB), s)
    ensures k >= i && (!ServerShops(at(k).l) || at(k).l.Over())
  {
    NewInv(seedA, seedB, s);
    NewEnds(NewBout(seedA, seedB), s);
    hide BotInv, RankOf, Helpful, IsRun;
    var h := Helpful(RankOf(at(i)));
    assert h != Other;
    assert Later(via, i, h);
    var j: nat :| j >= i && KindOf(via(j)) == h;
    k := EscapeFrom(at, via, i, j);
    RunEnds(at, via, k);
  }

  /** Every leave the bot sends reaches a server that still has its side in the bazaar, and
      takes it out; nothing is left in flight behind it. */
  lemma EveryLeaveLands(at: nat -> BotNet, via: nat -> BotMove, i: nat, seedA: Word, seedB: Word, s: Seat)
    requires IsRun(at, via) && at(0) == NewBotNet(NewBout(seedA, seedB), s)
    requires via(i) == Taking && at(i).l.queue != [] && at(i).l.queue[0].input.LeaveKey?
    ensures ServerShops(at(i).l) && !ServerShops(at(i + 1).l) && at(i + 1).l.InFlight() == []
  {
    hide BotInv, Take, NewBotNet, NewBout, ServerShops;
    NewInv(seedA, seedB, s);
    RunInv(at, via, i);
    TakeInv(at(i));
    assert at(i + 1) == Moved(at(i), via(i));
  }
}
