/** A keyframe that reaches a client while somebody shops (rust/bt-netcode/src/lib.rs:207-250,
    351-359, rust/bt-server/src/bout.rs:259-291). */
module ShopKeyframes {
  import opened Wrappers
  import opened Rng
  import opened Engine
  import opened Inputs
  import opened VersusMatch
  import opened BoutLog
  import opened ChannelLaws
  import opened Prediction
  import opened PredictionLaws
  import opened BazaarLiveness
  import opened TailLaws
  import HealthLaws
  import RunLaws
  import LimitRuns

  predicate NoLeave(us: seq<Sent>) { forall k :: 0 <= k < |us| ==> !us[k].input.LeaveKey? }

  predicate NoGameplay(us: seq<Sent>) { forall k :: 0 <= k < |us| ==> BazaarInput(us[k].input) }

  // The server has its side in the bazaar until it takes a leave.
  lemma {:induction false} TakenShops(b: Bout, s: Seat, us: seq<Sent>)
    requires Numbered(us, b.Ack(s))
    ensures Shops(Taken(b, s, us).v.Of(s).g) == (Shops(b.v.Of(s).g) && NoLeave(us))
    ensures Taken(b, s, us).Ack(s) == b.Ack(s) + |us|
    decreases |us|
  {
    if us != [] {
      TakesOne(b, s, us[0].input, us[0].no);
      hide ApplyInput, Shops;
      TakenShops(ApplyInput(b, s, us[0].input, us[0].no), s, us[1..]);
      assert NoLeave(us) <==> !us[0].input.LeaveKey? && NoLeave(us[1..]);
    }
  }

  lemma TakesOne(b: Bout, s: Seat, i: Input, n: nat)
    requires Fresh(b, s, i, n)
    ensures var b' := ApplyInput(b, s, i, n);
      b'.Ack(s) == n && Shops(b'.v.Of(s).g) == (Shops(b.v.Of(s).g) && !i.LeaveKey?)
  {
    hide ApplySim, Legal, Shops;
    LegalKeepsBazaar(b.v.Of(s).g, i);
    hide BazaarInput;
  }

  // While its side shops the server applies the trades alone, and so does the client.
  lemma {:induction false} TailWhileShopping(b: Bout, p: Player, s: Seat, us: seq<Sent>)
    requires Shops(p.g) && p.g == b.v.Of(s).g && Numbered(us, b.Ack(s)) && NoLeave(us)
    ensures ReplayTail(p, us).g == Taken(b, s, us).v.Of(s).g
    decreases |us|
  {
    if us != [] {
      var i := us[0].input;
      TradesAlike(b, p, s, i, us[0].no);
      hide ApplyInput, ReplayInput, Shops;
      TailWhileShopping(ApplyInput(b, s, i, us[0].no), ReplayInput(p, i), s, us[1..]);
    }
  }

  lemma TradesAlike(b: Bout, p: Player, s: Seat, i: Input, n: nat)
    requires Shops(p.g) && p.g == b.v.Of(s).g && Fresh(b, s, i, n) && !i.LeaveKey?
    ensures var b' := ApplyInput(b, s, i, n);
      ReplayInput(p, i).g == b'.v.Of(s).g && Shops(ReplayInput(p, i).g) && b'.Ack(s) == n
  {
    hide ApplySim, Legal;
    LegalKeepsBazaar(p.g, i);
  }

  // A side that has left while the other still shops stands still on the server.
  lemma {:induction false} TakenStands(b: Bout, s: Seat, us: seq<Sent>)
    requires !Shops(b.v.Of(s).g) && b.v.Frozen() && Numbered(us, b.Ack(s))
    ensures Taken(b, s, us).v.Of(s).g == b.v.Of(s).g
    decreases |us|
  {
    if us != [] {
      StandsForOne(b, s, us[0].input, us[0].no);
      hide ApplyInput, Shops, Versus.Frozen;
      TakenStands(ApplyInput(b, s, us[0].input, us[0].no), s, us[1..]);
    }
  }

  lemma StandsForOne(b: Bout, s: Seat, i: Input, n: nat)
    requires !Shops(b.v.Of(s).g) && b.v.Frozen() && Fresh(b, s, i, n)
    ensures var b' := ApplyInput(b, s, i, n);
      b'.v.Of(s).g == b.v.Of(s).g && b'.v.Frozen() && b'.Ack(s) == n
  {
    hide Legal;
    if BazaarInput(i) { TradeRefused(b.v.Of(s).g, i); }
    hide ApplySim;
  }

  // Trades and leaves move nothing, whatever the state of the game.
  lemma {:induction false} ReplayStands(p: Player, us: seq<Sent>)
    requires !Shops(p.g) && NoGameplay(us)
    ensures ReplayTail(p, us).g == p.g
    decreases |us|
  {
    if us != [] {
      TradeRefused(p.g, us[0].input);
      hide ApplySim, Shops;
      ReplayStands(ReplayInput(p, us[0].input), us[1..]);
    }
  }

  lemma TailMovesAlone(p: Player, us: seq<Sent>, a: nat)
    requires HealthLaws.Healthy(p.g) && !Shops(p.g) && Numbered(us, a)
    ensures NoneActs(p.g, us) ==> ReplayTail(p, us).g == p.g
    ensures OneShift(us) ==> (ReplayTail(p, us).g == p.g <==> NoneActs(p.g, us))
  {
    hide HealthLaws.Healthy, Legal, NoneActs, OneShift;
    TailMoves(p, us);
  }

  /** Reconciliation while the match is frozen. With its own side shopping, the client ends
      where the server will be once it has taken the rest of the tail if and only if that
      holds no leave, which a client never applies itself. With the other side alone still
      shopping the server stands still. The client agrees when no input of the tail has its
      guard met in the keyframe's game, as trades and leaves never have; and with at most one
      sideways move or turn in the tail, only then. */
  lemma KeyframeInBazaar(c: Predictor, a: nat, b: Bout, s: Seat)
    requires b.v.Frozen() && Numbered(c.unacked, a) && a <= b.Ack(s) <= a + |c.unacked|
    ensures var g := b.v.Of(s).g;
      var you, opp := Shops(g), Shops(b.v.Of(s.Other()).g);
      var c' := OnSnapshot(c, b.Ack(s), you, opp, Some(Keyframe(g, b.v.Of(s).opScore)));
      var tail := c.unacked[b.Ack(s) - a..];
      && c'.unacked == tail && c'.Walled()
      && (you ==> (Agree(c'.p, Taken(b, s, tail).v.Of(s)) <==> NoLeave(tail)))
      && (!you ==> Taken(b, s, tail).v.Of(s).g == g)
      && (!you && NoGameplay(tail) ==> Agree(c'.p, Taken(b, s, tail).v.Of(s)))
      && (!you && HealthLaws.Healthy(g) ==>
            && (NoneActs(g, tail) ==> Agree(c'.p, Taken(b, s, tail).v.Of(s)))
            && (OneShift(tail) ==> (Agree(c'.p, Taken(b, s, tail).v.Of(s)) <==> NoneActs(g, tail))))
  {
    hide Legal, ReplayInput, ApplyInput, HealthLaws.Healthy, NoneActs, OneShift;
    UnackedIsTail(c.unacked, a, b.Ack(s));
    var tail := c.unacked[b.Ack(s) - a..];
    var p := Player(b.v.Of(s).g, b.v.Of(s).opScore, 0, []);
    assert Numbered(tail, b.Ack(s));
    ScoreMirrorKept(p, tail);
    TakenKeepsMirror(b, s, tail);
    TakenShops(b, s, tail);
    if Shops(p.g) {
      ReplayKeepsBazaar(p, tail);
      if NoLeave(tail) { TailWhileShopping(b, p, s, tail); }
    } else {
      TakenStands(b, s, tail);
      if NoGameplay(tail) { ReplayStands(p, tail); }
      if HealthLaws.Healthy(p.g) { TailMovesAlone(p, tail, b.Ack(s)); }
    }
  }

  /** Every game of a hosted match is fit for that. */
  lemma ReachableReady(seedA: Word, seedB: Word, acts: seq<Act>, s: Seat)
    ensures HealthLaws.Healthy(BoutLog.Run(NewBout(seedA, seedB), acts).v.Of(s).g)
  {
    hide HealthLaws.Healthy, BoutLog.Run, NewBout;
    RunLaws.Reachable(seedA, seedB, acts);
  }

  /** They do part: a hard drop still unacknowledged when the other side alone shops. */
  lemma DropsPart(seedA: Word, seedB: Word)
    ensures var start := NewBout(seedA, seedB);
      var b := start.(v := start.v.(b := start.v.b.(g := start.v.b.g.(tally := start.v.b.g.tally.(inBazaar := true)))));
      var c := NewPredictor(seedA).(inputSeq := 1, unacked := [Sent(1, BeginDropKey)]);
      var c' := OnSnapshot(c, 0, false, true, Some(Keyframe(b.v.a.g, b.v.a.opScore)));
      !Agree(c'.p, Taken(b, A, c.unacked).v.a)
  {
    hide NewPlayer, HealthLaws.Healthy, OnSnapshot, Taken;
    LimitRuns.StartsSo(seedA);
    var start := NewBout(seedA, seedB);
    assert HealthLaws.Healthy(start.v.a.g) by { StartHealthy(seedA); }
    var b := start.(v := start.v.(b := start.v.b.(g := start.v.b.g.(tally := start.v.b.g.tally.(inBazaar := true)))));
    var c := NewPredictor(seedA).(inputSeq := 1, unacked := [Sent(1, BeginDropKey)]);
    assert b.v.Frozen() && Numbered(c.unacked, 0);
    KeyframeInBazaar(c, 0, b, A);
    assert c.unacked[0..] == c.unacked;
    assert Acts(b.v.a.g, c.unacked[0].input);
  }

  lemma StartHealthy(seed: Word)
    ensures HealthLaws.Healthy(NewPlayer(seed).g)
  {
    hide HealthLaws.Healthy, NewGame;
    HealthLaws.NewHealthy(seed);
  }
}
