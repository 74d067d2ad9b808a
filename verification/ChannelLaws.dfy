/** The event channel between the server and a client, and the bazaar barrier. */
module ChannelLaws {
  import opened Weapons
  import opened Arsenals
  import opened Boards
  import opened Engine
  import opened Inputs
  import opened VersusMatch
  import opened BoutLog
  import opened MirrorLaws
  import ReplayLaws

  // ----- the outbox is complete -----

  // What a client does with the events of one pass, in order.
  function ApplyEvents(p: Player, es: seq<RelayEvent>): Player
    decreases |es|
  { if es == [] then p else ApplyEvents(Apply(p, ToInput(es[0])), es[1..]) }

  // An exchange of boards or arsenals, which no event can carry.
  predicate Exchange(att: Player, e: GameEvent)
  { e.WeaponLaunched? && (e.token == SWAP || e.token == SUSAN) && !On(att.g, MIRROR) }

  // Everything but the opponent's funds and the event queue.
  predicate Agree(p: Player, q: Player) { p.g == q.g && p.opScore == q.opScore }

  lemma {:induction false} ApplyEventsConcat(p: Player, x: seq<RelayEvent>, y: seq<RelayEvent>)
    ensures ApplyEvents(p, x + y) == ApplyEvents(ApplyEvents(p, x), y)
    decreases |x|
  {
    hide Apply;
    if x == [] {
      assert x + y == y;
    } else {
      assert (x + y)[1..] == x[1..] + y;
      ApplyEventsConcat(Apply(p, ToInput(x[0])), x[1..], y);
    }
  }

  lemma {:induction false} ApplyEventsAgree(p: Player, q: Player, es: seq<RelayEvent>)
    requires Agree(p, q)
    ensures Agree(ApplyEvents(p, es), ApplyEvents(q, es))
    decreases |es|
  {
    if es != [] {
      assert Agree(Apply(p, ToInput(es[0])), Apply(q, ToInput(es[0]))) by { hide ApplySim; }
      hide Apply;
      ApplyEventsAgree(Apply(p, ToInput(es[0])), Apply(q, ToInput(es[0])), es[1..]);
    }
  }

  // The recorded events rebuild both sides of one relayed event.
  ghost predicate Rebuilt(att: Player, vic: Player, r: Relayed)
  { Agree(ApplyEvents(att, r.attOut), r.att) && Agree(ApplyEvents(vic, r.vicOut), r.vic) }

  lemma OneEvent(p: Player, e: RelayEvent)
    ensures ApplyEvents(p, []) == p
    ensures ApplyEvents(p, [e]) == Apply(p, ToInput(e))
  { hide Apply; }

  lemma DeliverRebuilt(att: Player, vic: Player, t: WeaponToken)
    requires !Exchange(att, WeaponLaunched(t)) && !IsSpy(t)
    ensures Rebuilt(att, vic, Deliver(att, vic, t))
  {
    hide ReceiveOpLines, AddFunds, ReceiveWeapon, On, MirrorNullifies, ApplyEvents, ExportBoard;
    var r := Deliver(att, vic, t);
    OneEvent(att, RelayFunds(0));
    OneEvent(vic, RelayFunds(0));
    if r.attOut != [] { OneEvent(att, r.attOut[0]); }
    if r.vicOut != [] { OneEvent(vic, r.vicOut[0]); }
  }

  lemma RelayOneRebuilt(att: Player, vic: Player, e: GameEvent)
    requires !Exchange(att, e)
    ensures Rebuilt(att, vic, RelayOne(att, vic, e))
  {
    hide ReceiveOpLines, AddFunds, On, ApplyEvents, IsSpy, Deliver;
    var r := RelayOne(att, vic, e);
    OneEvent(att, RelayFunds(0));
    OneEvent(vic, RelayFunds(0));
    if e.WeaponLaunched? && !IsSpy(e.token) {
      DeliverRebuilt(att, vic, e.token);
    } else if r.vicOut != [] {
      OneEvent(vic, r.vicOut[0]);
    }
  }

  // A relay changes no active flag, so the mirror curse is fixed during a pass.
  lemma RelayKeepsFlags(att: Player, vic: Player, e: GameEvent)
    ensures var r := RelayOne(att, vic, e);
      r.att.g.curses.active == att.g.curses.active && r.vic.g.curses.active == vic.g.curses.active
  { hide ExportBoard, On, MirrorNullifies, InsertLines; }

  lemma {:induction false} RelayAllRebuilt(att: Player, vic: Player, evs: seq<GameEvent>)
    requires forall e :: e in evs ==> !Exchange(att, e)
    ensures Rebuilt(att, vic, RelayAll(att, vic, evs))
    ensures var r := RelayAll(att, vic, evs);
      r.att.g.curses.active == att.g.curses.active && r.vic.g.curses.active == vic.g.curses.active
    decreases |evs|
  {
    hide RelayOne, ApplyEvents;
    OneEvent(att, RelayFunds(0));
    OneEvent(vic, RelayFunds(0));
    if evs != [] {
      var r := RelayOne(att, vic, evs[0]);
      RelayOneRebuilt(att, vic, evs[0]);
      RelayKeepsFlags(att, vic, evs[0]);
      assert On(r.att.g, MIRROR) == On(att.g, MIRROR);
      assert forall e :: e in evs[1..] ==> e in evs;
      RelayAllRebuilt(r.att, r.vic, evs[1..]);
      var s := RelayAll(r.att, r.vic, evs[1..]);
      ApplyEventsConcat(att, r.attOut, s.attOut);
      ApplyEventsConcat(vic, r.vicOut, s.vicOut);
      ApplyEventsAgree(ApplyEvents(att, r.attOut), r.att, s.attOut);
      ApplyEventsAgree(ApplyEvents(vic, r.vicOut), r.vic, s.vicOut);
    }
  }

  predicate Exchanges(v: Versus)
  {
    || (exists e :: e in v.a.ev && Exchange(v.a, e))
    || (exists e :: e in v.b.ev && Exchange(v.b, e))
  }

  // The events one pass sends to a side.
  function SentTo(v: Versus, s: Seat): seq<RelayEvent>
  {
    if s.A? then FirstHalf(v).attOut + SecondHalf(v).vicOut
    else FirstHalf(v).vicOut + SecondHalf(v).attOut
  }

  /** In every pass without an exchange, folding a side's outbox in order over its game
      before the pass gives its game after the pass. */
  lemma OutboxComplete(v: Versus, s: Seat)
    requires !Exchanges(v)
    ensures Agree(ApplyEvents(v.Of(s), SentTo(v, s)), Relay(v).Of(s))
  {
    hide RelayAll, ApplyEvents;
    var a0 := v.a.(ev := []);
    var r := FirstHalf(v);
    RelayAllRebuilt(a0, v.b, v.a.ev);
    RelayAllLaw(a0, v.b, v.a.ev);
    var b0 := r.vic.(ev := []);
    assert forall e :: e in r.vic.ev ==> !Exchange(b0, e) by {
      assert r.vic.ev == v.b.ev + r.vic.ev[|v.b.ev|..];
    }
    RelayAllRebuilt(b0, r.att, r.vic.ev);
    var t := SecondHalf(v);
    if s.A? {
      ApplyEventsConcat(v.a, r.attOut, t.vicOut);
      ApplyEventsAgree(v.a, a0, r.attOut);
      ApplyEventsAgree(ApplyEvents(v.a, r.attOut), r.att, t.vicOut);
    } else {
      ApplyEventsConcat(v.b, r.vicOut, t.attOut);
      ApplyEventsAgree(ApplyEvents(v.b, r.vicOut), b0, t.attOut);
    }
  }

  // ----- the barrier -----

  // h differs from g by shopping at most.
  predicate OnlyShopped(g: Sim, h: Sim)
  {
    h == g.(arsenal := h.arsenal, tally := g.tally.(funds := h.tally.funds, inBazaar := h.tally.inBazaar))
  }

  ghost predicate BothOnlyShopped(v: Versus, w: Versus)
  { OnlyShopped(v.a.g, w.a.g) && OnlyShopped(v.b.g, w.b.g) }

  // Frozen, with nothing queued that a relay pass could still act on.
  ghost predicate Barrier(v: Versus) { Settled(v) && OnlyLeftovers(v) }

  lemma FrozenTick(v: Versus, dt: int)
    requires Barrier(v) && v.Frozen()
    ensures Barrier(VTick(v, dt))
    ensures VTick(v, dt).a.g == v.a.g && VTick(v, dt).b.g == v.b.g
  {
    hide RelayAll;
    MirrorAfterTick(v, dt);
    if v.result == 0 {
      var a0 := v.a.(ev := []);
      ReplayLaws.LeftoversAreSilent(a0, v.b, v.a.ev);
      var r := FirstHalf(v);
      ReplayLaws.LeftoversAreSilent(r.vic.(ev := []), r.att, r.vic.ev);
    }
  }

  lemma ShopInput(g: Sim, i: Input)
    requires BazaarInput(i)
    ensures var s := ApplySim(g, i); OnlyShopped(g, s.g) && s.ev == []
  { hide Buy, Sell, Price, On; }

  lemma BarrierInput(b: Bout, s: Seat, i: Input, n: nat)
    requires Barrier(b.v) && b.v.Frozen()
    ensures Barrier(ApplyInput(b, s, i, n).v) && BothOnlyShopped(b.v, ApplyInput(b, s, i, n).v)
  {
    if Fresh(b, s, i, n) && !Barred(b, i) {
      ShopInput(b.v.Of(s).g, i);
      var st := ApplySim(b.v.Of(s).g, i);
      hide ApplySim;
      assert b.v.Of(s).ev + st.ev == b.v.Of(s).ev;
    }
  }

  predicate NoGrants(acts: seq<Act>) { forall k :: 0 <= k < |acts| ==> !acts[k].DoGrant? }

  // The match is still frozen before each of these acts.
  predicate StaysFrozen(b: Bout, acts: seq<Act>)
    decreases |acts|
  { acts == [] || (b.v.Frozen() && StaysFrozen(Do(b, acts[0]), acts[1..])) }

  lemma ShoppedTrans(u: Versus, v: Versus, w: Versus)
    requires BothOnlyShopped(u, v) && BothOnlyShopped(v, w)
    ensures BothOnlyShopped(u, w)
  {}

  /** From the tick that opens a bazaar until both sides have left, no sequence of ticks,
      client inputs and reconnects changes anything but arsenals, funds and the bazaar
      flags on either side, not even with Lawyers active. */
  lemma {:induction false} BarrierHolds(b: Bout, acts: seq<Act>)
    requires Barrier(b.v) && NoGrants(acts) && StaysFrozen(b, acts)
    ensures BothOnlyShopped(b.v, BoutLog.Run(b, acts).v)
    decreases |acts|
  {
    hide Settled, OnlyLeftovers, ApplyInput, BTick;
    if acts != [] {
      var c := Do(b, acts[0]);
      match acts[0] {
        case DoInput(s, i, n) => BarrierInput(b, s, i, n);
        case DoTick(dt) => BarrierTick(b, dt);
        case DoReset(_) =>
        case DoGrant(_, _, _) => assert false;
      }
      BarrierHolds(c, acts[1..]);
      ShoppedTrans(b.v, c.v, BoutLog.Run(c, acts[1..]).v);
    }
  }

  lemma BarrierTick(b: Bout, dt: int)
    requires Barrier(b.v) && b.v.Frozen()
    ensures Barrier(BTick(b, dt).v) && BothOnlyShopped(b.v, BTick(b, dt).v)
  {
    hide VTick;
    FrozenTick(b.v, dt);
  }

  /** Every tick of a running match ends with the barrier ready to hold. */
  lemma BarrierReady(v: Versus, dt: int)
    requires Settled(v) && v.result == 0
    ensures Barrier(VTick(v, dt))
  { MirrorAfterTick(v, dt); }
}
