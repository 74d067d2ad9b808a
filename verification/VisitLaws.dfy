/** The weapons bazaar as the hosted match goes through it: once it is open no reachable match
    moves anything but arsenals and funds, and trades leave both sides' worth as it was. */
module VisitLaws {
  import opened Weapons
  import opened Arsenals
  import opened Rng
  import opened Engine
  import opened Inputs
  import opened VersusMatch
  import opened BoutLog
  import opened MirrorLaws
  import opened ChannelLaws
  import opened LedgerLaws
  import RunLaws
  import HealthLaws

  // ----- every frozen state is behind the barrier -----

  // While the match is frozen nothing is queued that a relay pass could still act on.
  ghost predicate FrozenQuietly(v: Versus) { v.Frozen() ==> OnlyLeftovers(v) }

  // An input opens no bazaar, and with one open queues nothing; a grant announces the
  // current totals.
  lemma ActQueues(g: Sim, i: Input)
    requires Legal(i) || i.GrantIn? || i.FundsIn?
    ensures ApplySim(g, i).g.tally.inBazaar ==> g.tally.inBazaar
    ensures ApplySim(g, i).g.tally.lines == g.tally.lines
    ensures BazaarInput(i) || i.GrantIn? || i.FundsIn? ==> AllLeftover(ApplySim(g, i).ev, g.tally.lines)
  { hide Fits, RotateNow, Buy, Sell, UseSlot, Price, On, DropStep; }

  lemma RecordedQuietly(b: Bout, s: Seat, i: Input)
    requires FrozenQuietly(b.v)
    requires (Legal(i) && !Barred(b, i)) || i.GrantIn? || i.FundsIn?
    ensures FrozenQuietly(Recorded(b, s, i).v)
  {
    hide ApplySim;
    ActQueues(b.v.Of(s).g, i);
  }

  lemma DoQuietly(b: Bout, a: Act)
    requires Settled(b.v) && FrozenQuietly(b.v)
    ensures FrozenQuietly(Do(b, a).v)
  {
    hide FrozenQuietly, Settled, Recorded, VTick, Legal;
    match a
    case DoInput(s, i, n) =>
      if Fresh(b, s, i, n) && !Barred(b, i) { AckedQuietly(b, s, i, n); }
    case DoGrant(s, w, f) =>
      var lands := w.Some? && GrantLands(b, s, w.value);
      var b' := if lands then Recorded(b, s, GrantIn(w.value)) else b;
      if lands { RecordedQuietly(b, s, GrantIn(w.value)); }
      if f != 0 { RecordedQuietly(b', s, FundsIn(f)); }
    case DoReset(s) =>
    case DoTick(dt) => TickQuietly(b.v, dt);
  }

  lemma AckedQuietly(b: Bout, s: Seat, i: Input, n: nat)
    requires FrozenQuietly(b.v) && Legal(i) && !Barred(b, i)
    ensures FrozenQuietly(Recorded(b.WithAck(s, n), s, i).v)
  {
    hide FrozenQuietly, Recorded, Legal;
    RecordedQuietly(b.WithAck(s, n), s, i);
  }

  lemma TickQuietly(v: Versus, dt: int)
    requires Settled(v) && FrozenQuietly(v)
    ensures FrozenQuietly(VTick(v, dt))
  {
    MirrorAfterTick(v, dt);
    hide Settled, OnlyLeftovers, Relay, TickBoth;
  }

  lemma {:induction false} RunQuietly(b: Bout, acts: seq<Act>)
    requires Settled(b.v) && FrozenQuietly(b.v)
    ensures FrozenQuietly(BoutLog.Run(b, acts).v)
    decreases |acts|
  {
    hide Settled, FrozenQuietly, Do;
    if acts != [] {
      DoQuietly(b, acts[0]);
      DoKeepsSettled(b, acts[0]);
      RunQuietly(Do(b, acts[0]), acts[1..]);
    }
  }

  lemma NewQuietly(seedA: Word, seedB: Word)
    ensures Settled(NewBout(seedA, seedB).v) && FrozenQuietly(NewBout(seedA, seedB).v)
  {
    hide NewGame, Settled;
    NewGameAnnounces(seedA);
    NewGameAnnounces(seedB);
    NewSettled(seedA, seedB);
  }

  lemma FrozenBarrier(seedA: Word, seedB: Word, pre: seq<Act>)
    ensures var v := BoutLog.Run(NewBout(seedA, seedB), pre).v; v.Frozen() ==> Barrier(v)
  {
    hide Settled, OnlyLeftovers, BoutLog.Run, NewBout, Versus.Frozen;
    NewQuietly(seedA, seedB);
    RunQuietly(NewBout(seedA, seedB), pre);
    RunSettled(seedA, seedB, pre);
  }

  /** In every reachable match a bazaar is a standstill: until both sides have left, ticks,
      inputs and reconnects change nothing but arsenals, funds and the bazaar flags. */
  lemma BazaarIsStandstill(seedA: Word, seedB: Word, pre: seq<Act>, acts: seq<Act>)
    requires NoGrants(acts) && StaysFrozen(BoutLog.Run(NewBout(seedA, seedB), pre), acts)
    ensures var b := BoutLog.Run(NewBout(seedA, seedB), pre); BothOnlyShopped(b.v, BoutLog.Run(b, acts).v)
  {
    hide Barrier, BothOnlyShopped, Do, NewBout, Versus.Frozen;
    if acts != [] {
      FrozenBarrier(seedA, seedB, pre);
      BarrierHolds(BoutLog.Run(NewBout(seedA, seedB), pre), acts);
    } else {
      Unmoved(BoutLog.Run(NewBout(seedA, seedB), pre).v);
    }
  }

  lemma Unmoved(v: Versus)
    ensures BothOnlyShopped(v, v)
  {}

  // ----- the worth of a visit -----

  ghost predicate BothTidy(v: Versus) { Tidy(v.a.g.arsenal) && Tidy(v.b.g.arsenal) }

  ghost predicate SameWorth(v: Versus, w: Versus)
  { Worth(w.a.g) == Worth(v.a.g) && Worth(w.b.g) == Worth(v.b.g) }

  // Also for a side that has left: its trades are refused.
  lemma AnyTradeKeepsWorth(g: Sim, i: Input)
    requires Tidy(g.arsenal) && BazaarInput(i)
    ensures var h := ApplySim(g, i).g; Worth(h) == Worth(g) && Tidy(h.arsenal)
  {
    hide Price, ListValue, Tidy, Buy, Sell;
    if g.tally.inBazaar { TradeKeepsWorth(g, i) by { TradeIsLegal(i); } }
  }

  lemma TradeIsLegal(i: Input)
    requires BazaarInput(i)
    ensures Legal(i)
  {}

  lemma SubmitKeepsWorth(b: Bout, s: Seat, i: Input, n: nat)
    requires BothTidy(b.v) && b.v.Frozen()
    ensures BothTidy(ApplyInput(b, s, i, n).v) && SameWorth(b.v, ApplyInput(b, s, i, n).v)
  {
    hide Tidy, Worth, ApplySim, BazaarInput, Legal;
    if Fresh(b, s, i, n) && !Barred(b, i) { AnyTradeKeepsWorth(b.v.Of(s).g, i); }
  }

  lemma StandingTick(b: Bout, dt: int)
    requires Barrier(b.v) && BothTidy(b.v) && b.v.Frozen()
    ensures BothTidy(BTick(b, dt).v) && SameWorth(b.v, BTick(b, dt).v)
  {
    hide VTick, Tidy, Worth, Barrier;
    FrozenTick(b.v, dt);
  }

  lemma {:induction false} StandstillKeepsWorth(b: Bout, acts: seq<Act>)
    requires Barrier(b.v) && BothTidy(b.v) && NoGrants(acts) && StaysFrozen(b, acts)
    ensures SameWorth(b.v, BoutLog.Run(b, acts).v)
    decreases |acts|
  {
    hide Barrier, BothTidy, Worth, ApplyInput, BTick, Versus.Frozen;
    if acts != [] {
      match acts[0] {
        case DoInput(s, i, n) => BarrierInput(b, s, i, n); SubmitKeepsWorth(b, s, i, n);
        case DoTick(dt) => BarrierTick(b, dt); StandingTick(b, dt);
        case DoReset(s) => ResetStands(b, s);
        case DoGrant(_, _, _) => assert false;
      }
      StandstillKeepsWorth(Do(b, acts[0]), acts[1..]);
    }
  }

  lemma ResetStands(b: Bout, s: Seat)
    ensures ResetAck(b, s).v == b.v
  {}

  /** Within a visit of the hosted match, frozen ticks and both sides' inputs interleaved,
      Carter or not, neither side's funds and bank together change, whoever has left. */
  lemma VisitIsFair(seedA: Word, seedB: Word, pre: seq<Act>, acts: seq<Act>)
    requires NoGrants(acts) && StaysFrozen(BoutLog.Run(NewBout(seedA, seedB), pre), acts)
    ensures var b := BoutLog.Run(NewBout(seedA, seedB), pre); SameWorth(b.v, BoutLog.Run(b, acts).v)
  {
    hide Barrier, Worth, Do, NewBout, Versus.Frozen, HealthLaws.Healthy, BothTidy;
    var b := BoutLog.Run(NewBout(seedA, seedB), pre);
    if acts != [] {
      FrozenBarrier(seedA, seedB, pre);
      ReachableTidy(seedA, seedB, pre);
      StandstillKeepsWorth(b, acts);
    }
  }

  lemma ReachableTidy(seedA: Word, seedB: Word, pre: seq<Act>)
    ensures BothTidy(BoutLog.Run(NewBout(seedA, seedB), pre).v)
  {
    hide HealthLaws.Healthy, BoutLog.Run, NewBout, Tidy;
    RunLaws.Reachable(seedA, seedB, pre);
    var v := BoutLog.Run(NewBout(seedA, seedB), pre).v;
    RunLaws.TidyOf(v.a.g);
    RunLaws.TidyOf(v.b.g);
  }
}
