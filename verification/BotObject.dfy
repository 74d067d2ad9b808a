/** The bot's match as the object its driver loop steps (rust/bt-bot/src/main.rs:605-688,
    716-789, 855-872, 932-936). */
module BotObject {
  import opened Wrappers
  import opened Weapons
  import opened Rng
  import opened Inputs
  import opened Prediction
  import opened Sessions
  import opened BotSync
  import opened PredictorObject
  import Engine

  // Ticks without an authoritative frame after which the opponent counts as gone.
  const STALE_TICKS: nat := 875

  class MatchState {
    const predictor: Client
    var acked: nat
    var inBaz: bool
    var oppBaz: bool
    var bought: bool
    var done: bool
    var idleTicks: nat
    var wire: seq<Sent>     // what has been handed to the socket

    ghost function Repr(): set<object> { {this} + predictor.Repr() }

    ghost predicate Valid()
      reads Repr()
    { predictor.Valid() && this !in predictor.Repr() }

    // The bot on a link of which it holds the client's end.
    function Within(l: Link): (n: BotNet)
      requires Valid()
      reads Repr()
    { BotNet(l.(cl := predictor.Value(), wire := wire), View(acked, inBaz, oppBaz, bought, done)) }

    constructor (seed: Word)
      ensures Valid() && fresh(Repr()) && predictor.Value() == NewPredictor(seed) && wire == []
      ensures forall l :: Within(l).view == View(0, false, false, false, false)
    {
      hide NewPredictor, Client.Value, Client.Valid;
      var c := new Client(seed);
      predictor, acked, inBaz, oppBaz, bought, done := c, 0, false, false, false, false;
      idleTicks, wire := 0, [];
    }

    // Predict an input and forward what the predictor hands back.
    method Forward(i: Input, ghost l: Link)
      requires Valid()
      modifies Repr()
      ensures Valid() && Within(l) == old(Within(l)).(l := SendInput(old(Within(l)).l, i))
      ensures idleTicks == old(idleTicks)
    {
      hide Predict, Forwards, Client.Value, Client.Valid;
      var sent := predictor.PredictInput(i);
      if sent.Some? { wire := wire + [sent.value]; }
    }

    method ForwardAll(ins: seq<Input>, ghost l: Link)
      requires Valid()
      modifies Repr()
      ensures Valid() && Within(l) == old(Within(l)).(l := SendAll(old(Within(l)).l, ins))
      ensures idleTicks == old(idleTicks)
    {
      hide SendInput, Within, Valid;
      ghost var was := Within(l);
      var k := 0;
      while k < |ins|
        invariant 0 <= k <= |ins| && Valid() && idleTicks == old(idleTicks)
        invariant Within(l) == was.(l := Within(l).l)
        invariant SendAll(Within(l).l, ins[k..]) == SendAll(was.l, ins)
      {
        assert ins[k..][1..] == ins[k + 1..];
        Forward(ins[k], l);
        k := k + 1;
      }
    }

    // Buy the loadout, as far as the engine accepts it, and leave.
    method ShopNow(shop: seq<WeaponToken>, ghost l: Link)
      requires Valid()
      modifies Repr()
      ensures Valid() && Within(l) == old(Within(l)).(l := ShopBazaar(old(Within(l)).l, shop))
      ensures idleTicks == old(idleTicks)
    {
      hide SendInput, SendAll, Within, Valid;
      ForwardAll(Purchases(shop), l);
      Forward(LeaveKey, l);
    }

    method StepLocal(ghost l: Link) returns (over: bool)
      requires Valid()
      modifies Repr()
      ensures Valid()
      ensures Within(l) == old(Within(l)).(l := old(Within(l)).l.(cl := ClientTick(old(Within(l)).l.cl, TICK_MS)))
      ensures over == (Within(l).l.cl.p.g.motion.phase == Engine.Over) && idleTicks == old(idleTicks)
    {
      hide ClientTick;
      predictor.TickBy(TICK_MS);
      over := predictor.game.motion.phase == Engine.Over;
    }

    // The local clock, then the moves the placement strategy settled on.
    method PlayOn(plan: seq<Input>, ghost l: Link)
      requires Valid()
      modifies Repr()
      ensures Valid() && Within(l) == old(Within(l)).(l := PlayTick(old(Within(l)).l, plan))
      ensures idleTicks == old(idleTicks)
    {
      hide SendAll, ClientTick, Within, Valid;
      var over := StepLocal(l);
      if !over { ForwardAll(plan, l); }
    }

    method Observe(idle: bool, ghost l: Link) returns (s: SyncState)
      requires Valid()
      ensures s == Within(l).Sync(idle)
    {
      s := SyncState(done, idle, acked, predictor.inputSeq, inBaz, oppBaz, predictor.game.tally.inBazaar, bought);
    }

    // One step of an in-progress match: decide, then interpret.
    method Drive(plan: seq<Input>, shop: seq<WeaponToken>, ghost l: Link)
      requires Valid()
      modifies Repr()
      ensures Valid()
      ensures Within(l) == DriveTick(old(Within(l)), old(idleTicks) + 1 > STALE_TICKS, plan, shop)
      ensures idleTicks == if old(Within(l)).view.done then old(idleTicks) else old(idleTicks) + 1
    {
      hide SendInput, ShopBazaar, PlayTick;
      if done { return; }
      idleTicks := idleTicks + 1;
      var idle := idleTicks > STALE_TICKS;
      var s := Observe(idle, l);
      Interpret(Decide(s), idle, plan, shop, l);
    }

    method Interpret(action: BotAction, idle: bool, plan: seq<Input>, shop: seq<WeaponToken>, ghost l: Link)
      requires Valid() && action == Decide(Within(l).Sync(idle))
      modifies Repr()
      ensures Valid() && idleTicks == old(idleTicks)
      ensures Within(l) == DriveTick(old(Within(l)), idle, plan, shop)
    {
      hide SendInput, ShopBazaar, PlayTick, Decide;
      match action
      case End => if idle { done := true; }
      case WaitAck =>
      case WaitBazaar => if inBaz && bought { Forward(LeaveKey, l); }
      case Shop =>
        ShopNow(shop, l);
        bought := true;
      case Play => PlayOn(plan, l);
    }

    method NoteFrame(ack: nat, result: int, you: bool, opp: bool, ghost l: Link)
      requires Valid()
      modifies this
      ensures Valid() && idleTicks == 0
      ensures Within(l) == BotNet(old(Within(l)).l, Seen(old(Within(l)).view, Snap(ack, result, you, opp, None,
        LockPair(0, 0))))
    {
      idleTicks, acked := 0, ack;
      if result != 0 { done := true; }
      inBaz := you;
      if !you { bought := false; }
      oppBaz := opp;
    }

    method Reconcile(ack: nat, you: bool, opp: bool, keyframe: Option<seq<int>>, lock: LockPair, ghost l: Link)
      returns (resync: bool, over: bool)
      requires Valid()
      requires keyframe.Some? ==> Authoritative(keyframe.value)
      modifies Repr()
      ensures Valid() && idleTicks == old(idleTicks)
      ensures var judged := Judged(old(Within(l)).l.cl, ack, you, opp, Decoded(keyframe), lock);
        && Within(l) == old(Within(l)).(l := old(Within(l)).l.(cl := judged.0))
        && resync == judged.1 && over == (judged.0.p.g.motion.phase == Engine.Over)
    {
      hide OnSnapshot, OnLockHash, KeyframeIn, Authoritative, Client.Valid;
      predictor.TakeSnapshot(ack, you, opp, keyframe);
      resync := predictor.Judge(lock.no, lock.hash);
      over := predictor.game.motion.phase == Engine.Over;
    }

    // An authoritative frame: the acknowledgement, the result, both bazaar flags, the
    // keyframe, the hash of the last lock. Whether a fresh keyframe is wanted: the hashes
    // diverge, or only the local game is over.
    method HearSnapshot(ack: nat, result: int, you: bool, opp: bool, keyframe: Option<seq<int>>, lock: LockPair,
                        ghost l: Link)
      returns (resync: bool)
      requires Valid()
      requires keyframe.Some? ==> Authoritative(keyframe.value)
      modifies Repr()
      ensures Valid() && idleTicks == 0
      ensures var was, f := old(Within(l)), Snap(ack, result, you, opp, Decoded(keyframe), lock);
        var judged := Judged(was.l.cl, ack, you, opp, Decoded(keyframe), lock);
        && Within(l) == BotNet(was.l.(cl := judged.0), Seen(was.view, f))
        && resync == (judged.1 || (result == 0 && judged.0.p.g.motion.phase == Engine.Over))
    {
      hide Judged, Decoded, Within, Valid, Authoritative;
      var over;
      NoteFrame(ack, result, you, opp, l);
      resync, over := Reconcile(ack, you, opp, keyframe, lock, l);
      resync := resync || (result == 0 && over);
    }
  }

  ghost function Decoded(keyframe: Option<seq<int>>): Option<Keyframe>
    requires keyframe.Some? ==> Authoritative(keyframe.value)
  { if keyframe.Some? then Some(KeyframeIn(keyframe.value)) else None }

  // The client's reconciliation of a snapshot, then its judgement of the lock's hash.
  function Judged(c: Predictor, ack: nat, you: bool, opp: bool, kf: Option<Keyframe>, lock: LockPair): (Predictor, bool)
  { OnLockHash(OnSnapshot(c, ack, you, opp, kf), lock.no, lock.hash) }
}
