/** A client's predicted game as the object the browser and the bot drive
    (rust/bt-netcode/src/lib.rs). */
module PredictorObject {
  import opened Wrappers
  import opened Weapons
  import opened Rng
  import opened PieceStream
  import opened Engine
  import opened Inputs
  import opened Prediction
  import opened GameObject
  import Keyframes
  import KeyframeLaws
  import HealthLaws
  import RunLaws
  import BoutLog
  import VersusMatch

  class Client {
    const game: Game
    var inputSeq: nat
    var unacked: seq<Sent>
    var youBaz: bool
    var oppBaz: bool
    var ring: seq<LockPair>
    var mismatches: nat
    var lastJudged: Option<int>
    var lastSeen: int

    ghost function Repr(): set<object> { {this} + game.Repr() }

    ghost predicate Valid()
      reads Repr()
    { game.Valid() && this !in game.Repr() }

    function Value(): (c: Predictor)
      requires Valid()
      reads Repr()
    { Predictor(game.Full(), inputSeq, unacked, youBaz, oppBaz, ring, mismatches, lastJudged, lastSeen) }

    constructor (seed: Word)
      ensures Valid() && fresh(Repr()) && Value() == NewPredictor(seed)
    {
      hide NewPlayer, Game.Full;
      var g := Game.Start(seed);
      game, inputSeq, unacked, youBaz, oppBaz := g, 0, [], false, false;
      ring, mismatches, lastJudged, lastSeen := [], 0, None, 0;
    }

    // A lock not noted yet enters the ring; the oldest of eight leaves it.
    method NoteNewLock()
      requires Valid()
      modifies this
      ensures Valid() && Value() == NoteLock(old(Value()))
    {
      if game.lockSeq != lastSeen {
        if |ring| == LOCK_HISTORY { ring := ring[1..]; }
        ring := ring + [LockPair(game.lockSeq, game.lockHash)];
        lastSeen := game.lockSeq;
      }
    }

    method ActLocally(i: Input)
      requires Valid()
      modifies game.Repr()
      ensures Valid() && Value() == old(Value()).(p := Apply(old(Value()).p, i))
    {
      hide Apply;
      game.ApplyInput(i);
    }

    // The caller holds the clock while a bazaar barrier is up.
    method TickBy(dt: int)
      requires Valid()
      modifies Repr()
      ensures Valid() && Value() == ClientTick(old(Value()), dt)
    {
      hide Tick, NoteLock;
      game.TickBy(dt);
      NoteNewLock();
    }

    // A purchase or a sale, and whether the engine accepted it.
    method Shop(i: Input) returns (accepted: bool)
      requires Valid() && Shopping(i)
      modifies Repr()
      ensures Valid() && accepted == ShopAccepted(old(Value()).p.g, i)
      ensures Value() == if accepted then old(Value()).(p := Apply(old(Value()).p, i)) else old(Value())
    {
      hide BuyWeapon, SellWeapon, BuyAccepted, SellAccepted;
      NoEvents(game.Full());
      accepted := false;
      match i
      case BuyIndex(k) => if FromIndex(k).Some? { accepted := game.BuyNow(k); }
      case SellIndex(k) => if FromIndex(k).Some? { accepted := game.SellNow(k); }
      case _ =>
    }

    // Predict an input; what is to be sent to the server, if it is.
    method PredictInput(i: Input) returns (sent: Option<Sent>)
      requires Valid()
      modifies Repr()
      ensures Valid() && Value() == Predict(old(Value()), i)
      ensures sent == if Forwards(old(Value()), i) then Some(Sent(old(Value()).inputSeq + 1, i)) else None
    {
      hide Apply, ShopAccepted, NoteLock, BazaarInput, Value, Valid;
      var walled := BarrierUp();
      if walled && !BazaarInput(i) { return None; }
      if Shopping(i) {
        var accepted := Shop(i);
        if !accepted { return None; }
      } else if !i.LeaveKey? {
        ActLocally(i);
      }
      var no := Enqueue(i);
      sent := Some(Sent(no, i));
      NoteNewLock();
    }

    method BarrierUp() returns (up: bool)
      requires Valid()
      ensures up == Value().Walled()
    { up := youBaz || oppBaz; }

    method Enqueue(i: Input) returns (no: nat)
      requires Valid()
      modifies this`inputSeq, this`unacked
      ensures Valid() && no == old(Value()).inputSeq + 1
      ensures Value() == old(Value()).(inputSeq := no, unacked := old(Value()).unacked + [Sent(no, i)])
    {
      inputSeq := inputSeq + 1;
      unacked := unacked + [Sent(inputSeq, i)];
      no := inputSeq;
    }

    // The inputs the server has not applied yet.
    method Retain(ack: nat)
      requires Valid()
      modifies this`unacked
      ensures Valid() && Value() == old(Value()).(unacked := Unacked(old(Value()).unacked, ack))
    {
      hide Game.Full;
      var kept: seq<Sent> := [];
      var k := 0;
      while k < |unacked|
        invariant 0 <= k <= |unacked| && kept == Unacked(unacked[..k], ack)
      {
        assert unacked[..k + 1][..k] == unacked[..k];
        if unacked[k].no > ack { kept := kept + [unacked[k]]; }
        k := k + 1;
      }
      assert unacked[..k] == unacked;
      unacked := kept;
    }

    // One unacknowledged input on top of a restored game.
    method ReplayOne(i: Input)
      requires Valid()
      modifies game.Repr()
      ensures Valid() && Value() == old(Value()).(p := ReplayInput(old(Value()).p, i))
    {
      hide Apply;
      if game.tally.inBazaar && !Shopping(i) { return; }
      if !i.LeaveKey? { ActLocally(i); }
    }

    method ReplayUnacked()
      requires Valid()
      modifies game.Repr()
      ensures Valid() && Value() == old(Value()).(p := ReplayTail(old(Value()).p, old(Value()).unacked))
    {
      hide ReplayInput, Game.Full, Valid;
      var k := 0;
      while k < |unacked|
        invariant 0 <= k <= |unacked| && Valid()
        invariant ReplayTail(Value().p, unacked[k..]) == ReplayTail(old(Value()).p, unacked)
        invariant Value() == old(Value()).(p := Value().p)
      {
        assert unacked[k..][1..] == unacked[k + 1..];
        ReplayOne(unacked[k].input);
        k := k + 1;
      }
    }

    // The keyframe's game in place of the predicted one.
    method Overwrite(data: seq<int>)
      requires Valid() && Authoritative(data)
      modifies game.Repr()
      ensures Valid() && Value() == old(Value()).(p := Player(KeyframeIn(data).g, KeyframeIn(data).opScore, 0, []))
    {
      hide Keyframes.Restorable, Keyframes.Restored, Live;
      var taken := game.Restore(data);
    }

    // Start over from the server's state and the unacknowledged tail; divergence detection
    // starts clean.
    method Rebuild(data: seq<int>)
      requires Valid() && Authoritative(data)
      modifies Repr()
      ensures Valid() && Value() == Rebuilt(old(Value()), KeyframeIn(data))
    {
      hide ReplayTail, KeyframeIn, Authoritative;
      Overwrite(data);
      ReplayUnacked();
      ring, mismatches, lastJudged, lastSeen := [], 0, None, game.lockSeq;
    }

    method SetFlags(you: bool, opp: bool) returns (leaving: bool)
      requires Valid()
      modifies this`youBaz, this`oppBaz
      ensures Valid() && Value() == old(Value()).(youBaz := you, oppBaz := opp)
      ensures leaving == (old(Value()).youBaz && !you)
    {
      leaving := youBaz && !you;
      youBaz, oppBaz := you, opp;
    }

    // No keyframe to restore it out: let the game go on where the server's does.
    method Release()
      requires Valid()
      modifies game
      ensures Valid() && Value() == Released(old(Value()))
    { if game.tally.inBazaar { game.Leave(); } }

    // Drop what is acknowledged; then start over from a keyframe, or leave the shop when the
    // server says so.
    method TakeSnapshot(ack: nat, you: bool, opp: bool, keyframe: Option<seq<int>>)
      requires Valid()
      requires keyframe.Some? ==> Authoritative(keyframe.value)
      modifies Repr()
      ensures Valid()
      ensures Value() == OnSnapshot(old(Value()), ack, you, opp,
        if keyframe.Some? then Some(KeyframeIn(keyframe.value)) else None)
    {
      hide OnSnapshot, NoteLock, Unacked, KeyframeIn, Authoritative, Value, Valid;
      SnapshotIs(Value(), ack, you, opp, if keyframe.Some? then Some(KeyframeIn(keyframe.value)) else None);
      var leaving := SetFlags(you, opp);
      Retain(ack);
      if keyframe.Some? {
        Rebuild(keyframe.value);
      } else if leaving {
        Release();
      }
      NoteNewLock();
    }

    // An effect the server has already applied to its copy.
    method TakeEvent(i: Input)
      requires Valid()
      modifies Repr()
      ensures Valid() && Value() == OnEvent(old(Value()), i)
    {
      hide Apply, NoteLock;
      ActLocally(i);
      NoteNewLock();
    }

    method FindLock(no: int) returns (k: nat)
      ensures k == Lookup(ring, no, 0)
    {
      k := 0;
      while k < |ring| && ring[k].no != no
        invariant 0 <= k <= |ring| && Lookup(ring, no, k) == Lookup(ring, no, 0)
      { k := k + 1; }
    }

    // Judge the server's hash of a lock; whether to ask for a fresh keyframe.
    method Judge(no: int, hash: int) returns (resync: bool)
      requires Valid()
      modifies this
      ensures Valid() && (Value(), resync) == OnLockHash(old(Value()), no, hash)
    {
      if Some(no) == lastJudged { return false; }
      var k := FindLock(no);
      if k == |ring| { return false; }
      lastJudged := Some(no);
      if ring[k].hash == hash {
        mismatches := 0;
        return false;
      }
      mismatches := mismatches + 1;
      resync := mismatches >= 2;
      if resync { mismatches := 0; }
    }
  }

  // What the server sends as a keyframe: well formed, its keep table one a game can have,
  // the opponent's funds withheld.
  ghost predicate Authoritative(data: seq<int>)
  { Keyframes.Restorable(data) && Live(Keyframes.Restored(data).g.pieces.keep) && Keyframes.Restored(data).opFunds == 0 }

  function KeyframeIn(data: seq<int>): Keyframe
    requires Authoritative(data)
  { Keyframe(Keyframes.Restored(data).g, Keyframes.Restored(data).opScore) }

  /** What the server sends a client as a keyframe is one: it is accepted, and read back it is
      the server's game with the opponent's funds withheld. */
  lemma ServerKeyframesServe(seedA: Word, seedB: Word, acts: seq<BoutLog.Act>, s: VersusMatch.Seat)
    requires var p := BoutLog.Run(BoutLog.NewBout(seedA, seedB), acts).v.Of(s);
      RunLaws.WithinFields(Keyframes.Saved(p.g, p.opScore, 0)) && |p.g.curses.pending| <= 1024
    ensures var p := BoutLog.Run(BoutLog.NewBout(seedA, seedB), acts).v.Of(s);
      var data := Keyframes.Snapshot(Keyframes.Saved(p.g, p.opScore, 0));
      Authoritative(data) && KeyframeIn(data) == Keyframe(p.g, p.opScore)
  {
    hide BoutLog.Run, BoutLog.NewBout, Live, Keyframes.Snapshot, Keyframes.Restorable, Keyframes.Restored,
      HealthLaws.Healthy, KeyframeLaws.CountersFit, KeyframeLaws.Shapely;
    RunLaws.Reachable(seedA, seedB, acts);
    var p := BoutLog.Run(BoutLog.NewBout(seedA, seedB), acts).v.Of(s);
    HealthLaws.HealthyShapely(p.g);
    KeyframeLaws.RestoredIs(Keyframes.Saved(p.g, p.opScore, 0));
  }

  function Rebuilt(c: Predictor, kf: Keyframe): Predictor
  {
    var p := ReplayTail(Player(kf.g, kf.opScore, 0, []), c.unacked);
    c.(p := p, ring := [], mismatches := 0, lastJudged := None, lastSeen := p.g.lockSeq)
  }

  function Released(c: Predictor): Predictor
  { if c.p.g.tally.inBazaar then c.(p := c.p.(g := LeaveBazaar(c.p.g))) else c }

  lemma SnapshotIs(c: Predictor, ack: nat, you: bool, opp: bool, kf: Option<Keyframe>)
    ensures var d := c.(youBaz := you, oppBaz := opp).(unacked := Unacked(c.unacked, ack));
      OnSnapshot(c, ack, you, opp, kf) == NoteLock(
        if kf.Some? then Rebuilt(d, kf.value) else if c.youBaz && !you then Released(d) else d)
  { hide ReplayTail, Unacked; }
}
