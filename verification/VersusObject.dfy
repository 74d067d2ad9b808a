/** The head-to-head match as the object the host drives (rust/bt-core/src/versus.rs): two
    games, and the relay that drains one game's events into the other. */
module VersusObject {
  import opened Wrappers
  import opened Weapons
  import opened Rng
  import opened Engine
  import opened Inputs
  import opened VersusMatch
  import opened GameObject
  import opened Arsenals

  // What a delivered weapon did, relative to the attacker and the victim.
  datatype Delivery = Delivery(
    queuedOnVictim: Option<WeaponToken>, queuedOnAttacker: Option<WeaponToken>,
    attackerCredit: Option<int>, needsKeyframe: bool)

  const NO_DELIVERY: Delivery := Delivery(None, None, None, false)

  // The events each side's client is owed for it.
  function AttackerOwed(d: Delivery): seq<RelayEvent>
  {
    (if d.queuedOnAttacker.Some? then [RelayWeapon(d.queuedOnAttacker.value)] else [])
    + (if d.attackerCredit.Some? then [RelayFunds(d.attackerCredit.value)] else [])
  }

  function VictimOwed(d: Delivery): seq<RelayEvent>
  { if d.queuedOnVictim.Some? then [RelayWeapon(d.queuedOnVictim.value)] else [] }

  ghost predicate Separate(p: Game, q: Game)
    reads p.Repr(), q.Repr()
  { p.Valid() && q.Valid() && p.Repr() !! q.Repr() }

  // Each side's board, as it stands now, waits for the other's next lock.
  method TradeBoards(att: Game, vic: Game)
    requires Separate(att, vic)
    modifies att, vic
    ensures Separate(att, vic)
    ensures att.Full() == old(att.Full()).(g := QueueSwap(old(att.State()), ExportBoard(old(vic.State()).board)))
    ensures vic.Full() == old(vic.Full()).(g := QueueSwap(old(vic.State()), ExportBoard(old(att.State()).board)))
  {
    hide ExportBoard;
    var attCells := att.ExportCellsNow();
    var vicCells := vic.ExportCellsNow();
    vic.QueueBoard(attCells);
    att.QueueBoard(vicCells);
  }

  method TradeArsenals(att: Game, vic: Game)
    requires Separate(att, vic)
    modifies att.arsenal.rep, att.arsenal.quantity, vic.arsenal.rep, vic.arsenal.quantity
    ensures Separate(att, vic)
    ensures att.Full() == old(att.Full()).(g := old(att.State()).(arsenal := old(vic.State()).arsenal))
    ensures vic.Full() == old(vic.Full()).(g := old(vic.State()).(arsenal := old(att.State()).arsenal))
  { att.arsenal.Swap(vic.arsenal); }

  // The attacker is paid now; the victim loses its balance at its next lock.
  method Skim(att: Game, vic: Game) returns (credit: int)
    requires Separate(att, vic)
    modifies att, vic
    ensures Separate(att, vic) && credit == old(vic.State()).tally.funds
    ensures att.Full() == Advance(old(att.Full()), AddFunds(old(att.State()), credit))
    ensures vic.Full() == QueueOn(old(vic.Full()), KEATING)
  {
    hide AddFunds;
    credit := vic.tally.funds;
    att.Bank(credit);
    vic.Receive(KEATING);
  }

  // Queue a weapon on its target once any mirror is resolved; the exchanges act at once.
  method ApplyWeapon(att: Game, vic: Game, t: WeaponToken, onAttacker: bool) returns (d: Delivery)
    requires Separate(att, vic)
    requires onAttacker ==> On(att.State(), MIRROR) && !MirrorNullifies(t)
    requires !onAttacker ==> !On(att.State(), MIRROR)
    modifies att.Repr(), vic.Repr()
    ensures Separate(att, vic)
    ensures Delivered(att.Full(), vic.Full(), d) == Deliver(old(att.Full()), old(vic.Full()), t)
  {
    hide ExportBoard, AddFunds, Active;
    d := NO_DELIVERY;
    if t == SWAP {
      TradeBoards(att, vic);
      d := NO_DELIVERY.(needsKeyframe := true);
    } else if t == SUSAN {
      TradeArsenals(att, vic);
      d := NO_DELIVERY.(needsKeyframe := true);
    } else if t == KEATING {
      var credit := Skim(att, vic);
      d := Delivery(Some(t), None, Some(credit), false);
    } else if onAttacker {
      att.Receive(t);
      d := NO_DELIVERY.(queuedOnAttacker := Some(t));
    } else {
      vic.Receive(t);
      d := NO_DELIVERY.(queuedOnVictim := Some(t));
    }
  }

  // A mirror-cursed launcher is hit by its own weapon, or nobody is.
  method DeliverWeapon(att: Game, vic: Game, t: WeaponToken) returns (d: Delivery)
    requires Separate(att, vic)
    modifies att.Repr(), vic.Repr()
    ensures Separate(att, vic)
    ensures Delivered(att.Full(), vic.Full(), d) == Deliver(old(att.Full()), old(vic.Full()), t)
  {
    var cursed := Active(att.curses.active, MIRROR);
    if cursed && MirrorNullifies(t) { return NO_DELIVERY; }
    d := ApplyWeapon(att, vic, t, cursed);
  }

  class Match {
    const a: Game
    const b: Game
    var result: int                 // 0 ongoing, 1 A won, 2 B won
    var dirty: bool
    var spyA: seq<WeaponToken>
    var spyB: seq<WeaponToken>
    var outA: seq<RelayEvent>
    var outB: seq<RelayEvent>

    ghost function Repr(): set<object> { {this} + a.Repr() + b.Repr() }

    ghost predicate Valid()
      reads Repr()
    { Separate(a, b) && this !in a.Repr() && this !in b.Repr() }

    function Value(): (v: Versus)
      requires Valid()
      reads Repr()
    { Versus(a.Full(), b.Full(), result, dirty, spyA, spyB, outA, outB) }

    function GameOf(s: Seat): Game { if s.A? then a else b }

    constructor (seedA: Word, seedB: Word)
      ensures Valid() && fresh(Repr()) && Value() == NewVersus(seedA, seedB)
    {
      hide NewPlayer, Game.Full;
      var first := Game.Start(seedA);
      var second := Game.Start(seedB);
      a, b := first, second;
      result, dirty, spyA, spyB, outA, outB := 0, false, [], [], [], [];
    }

    // What a delivery owes each side's client.
    method RecordDelivery(s: Seat, d: Delivery)
      requires Valid()
      modifies this`outA, this`outB, this`dirty
      ensures Valid() && a.Full() == old(a.Full()) && b.Full() == old(b.Full())
      ensures Value() == Merged(old(Value()), s, Delivered(old(Value()).Of(s), old(Value()).Of(s.Other()), d))
    {
      if s.A? {
        outA, outB := outA + AttackerOwed(d), outB + VictimOwed(d);
      } else {
        outB, outA := outB + AttackerOwed(d), outA + VictimOwed(d);
      }
      if d.needsKeyframe { dirty := true; }
    }

    method RelayWeapon(s: Seat, t: WeaponToken)
      requires Valid()
      modifies Repr()
      ensures Valid()
      ensures Value() == Merged(old(Value()), s, Deliver(old(Value()).Of(s), old(Value()).Of(s.Other()), t))
    {
      hide Deliver, Merged, AttackerOwed, VictimOwed;
      ghost var v := Value();
      var d := DeliverWeapon(GameOf(s), GameOf(s.Other()), t);
      ghost var w := v.With(s, GameOf(s).Full()).With(s.Other(), GameOf(s.Other()).Full());
      assert Value() == w;
      RecordDelivery(s, d);
      MergedOver(v, s, GameOf(s).Full(), GameOf(s.Other()).Full(), d);
    }

    // A spy is noted for the host; a mirror-cursed launcher's fizzles.
    method NoteSpy(s: Seat, t: WeaponToken)
      requires Valid()
      modifies this`spyA, this`spyB
      ensures Valid()
      ensures var v := old(Value());
        Value() == Merged(v, s, Quiet(v.Of(s), v.Of(s.Other())).(spies := if On(v.Of(s).g, MIRROR) then [] else [t]))
    {
      if !Active(GameOf(s).curses.active, MIRROR) {
        if s.A? { spyA := spyA + [t]; } else { spyB := spyB + [t]; }
      }
    }

    // One action on one side's game.
    method Act(s: Seat, i: Input)
      requires Valid()
      modifies GameOf(s).Repr()
      ensures Valid() && Value() == old(Value()).With(s, Apply(old(Value()).Of(s), i))
    {
      hide Apply;
      GameOf(s).ApplyInput(i);
    }

    method SomeoneShops() returns (shops: bool)
      requires Valid()
      ensures shops == Value().Frozen()
    { shops := a.tally.inBazaar || b.tally.inBazaar; }

    // A weapon given to one side; without room for it nothing changes.
    method GrantTo(s: Seat, t: WeaponToken) returns (granted: bool)
      requires Valid()
      modifies GameOf(s).Repr()
      ensures Valid() && granted == Buy(old(Value()).Of(s).g.arsenal, t).1
      ensures Value() == if granted then old(Value()).With(s, Apply(old(Value()).Of(s), GrantIn(t))) else old(Value())
    {
      hide Buy;
      FullBank(GameOf(s).arsenal.Value(), t);
      NoEvents(GameOf(s).Full());
      granted := GameOf(s).Grant(t);
    }

    method PushOut(s: Seat, es: seq<RelayEvent>)
      requires Valid()
      modifies this`outA, this`outB
      ensures Valid()
      ensures Value() == if s.A? then old(Value()).(outA := old(Value()).outA + es)
                         else old(Value()).(outB := old(Value()).outB + es)
    { if s.A? { outA := outA + es; } else { outB := outB + es; } }

    method RelayScore(s: Seat, score: int, lines: int, funds: int)
      requires Valid()
      modifies Repr()
      ensures Valid()
      ensures Value() == RelayedOn(old(Value()), s, Scored(score, lines, funds))
    {
      hide Value, Valid;
      Act(s.Other(), OpScoreIn(score, lines, funds));
      PushOut(s.Other(), [RelayOpScore(score, lines)]);
    }

    method RelayTax(s: Seat, n: int)
      requires Valid()
      modifies Repr()
      ensures Valid()
      ensures Value() == RelayedOn(old(Value()), s, FundsStolen(n))
    {
      hide Value, Valid, RelayedOn, Apply;
      TaxIs(Value(), s, n);
      Act(s.Other(), FundsIn(n));
      PushOut(s.Other(), [RelayFunds(n)]);
    }

    method MarkDirty(s: Seat)
      requires Valid()
      modifies this`dirty
      ensures Valid() && Value() == RelayedOn(old(Value()), s, EnterBazaar)
    { dirty := true; }

    // The first side to top out decides the match.
    method Decide(s: Seat)
      requires Valid()
      modifies this`result
      ensures Valid() && Value() == RelayedOn(old(Value()), s, GameOver)
    { if result == 0 { result := if s.A? then 2 else 1; } }

    // One event of s's game acts on the opponent, or back on s.
    method RelayEvent(s: Seat, e: GameEvent)
      requires Valid()
      modifies Repr()
      ensures Valid()
      ensures Value() == RelayedOn(old(Value()), s, e)
    {
      hide Deliver, ReceiveOpLines, AddFunds, Value, Valid;
      match e
      case WeaponLaunched(t) => if IsSpy(t) { NoteSpy(s, t); } else { RelayWeapon(s, t); }
      case Scored(score, lines, funds) => RelayScore(s, score, lines, funds);
      case FundsStolen(n) => RelayTax(s, n);
      case EnterBazaar => MarkDirty(s);
      case GameOver => Decide(s);
      case _ => MergedNothing(Value(), s);
    }

    method Drain(s: Seat) returns (evs: seq<GameEvent>)
      requires Valid()
      modifies GameOf(s)`events
      ensures Valid() && evs == old(Value()).Of(s).ev
      ensures Value() == old(Value()).With(s, old(Value()).Of(s).(ev := []))
    { evs := GameOf(s).TakeEvents(); }

    // Everything s's game has queued, in order.
    method RelaySide(s: Seat)
      requires Valid()
      modifies Repr()
      ensures Valid() && Value() == RelayedSide(old(Value()), s)
    {
      hide RelayOne, Value, Valid, Merged;
      var evs := Drain(s);
      ghost var was := Value();
      var k := 0;
      while k < |evs|
        invariant 0 <= k <= |evs| && Valid()
        invariant RelayedRest(Value(), s, evs[k..]) == RelayedRest(was, s, evs)
      {
        RelayedMore(Value(), s, evs[k..]);
        assert evs[k..][1..] == evs[k + 1..];
        RelayEvent(s, evs[k]);
        k := k + 1;
      }
      MergedNothing(Value(), s);
    }

    // A's events act first, then B's, among them what A's did to B.
    method RelayBoth()
      requires Valid()
      modifies Repr()
      ensures Valid() && Value() == Relay(old(Value()))
    {
      hide RelayAll;
      RelaySide(A);
      RelaySide(B);
    }

    // Both boards advance unless either player is shopping; the relay runs regardless.
    method TickBy(dt: int)
      requires Valid()
      modifies Repr()
      ensures Valid() && Value() == VTick(old(Value()), dt)
    {
      hide Relay, Tick;
      if result != 0 { return; }
      if a.tally.inBazaar || b.tally.inBazaar {
        RelayBoth();
        return;
      }
      a.TickBy(dt);
      b.TickBy(dt);
      RelayBoth();
    }
  }

  // A delivery among two games it has already changed.
  function Delivered(att: Player, vic: Player, d: Delivery): Relayed
  { Quiet(att, vic).(attOut := AttackerOwed(d), vicOut := VictimOwed(d), dirty := d.needsKeyframe) }

  // The match after one side's events have acted.
  function Merged(v: Versus, s: Seat, r: Relayed): Versus
  {
    if s.A? then
      Versus(r.att, r.vic, if v.result == 0 && r.over then 2 else v.result, v.dirty || r.dirty,
             v.spyA + r.spies, v.spyB, v.outA + r.attOut, v.outB + r.vicOut)
    else
      Versus(r.vic, r.att, if v.result == 0 && r.over then 1 else v.result, v.dirty || r.dirty,
             v.spyA, v.spyB + r.spies, v.outA + r.vicOut, v.outB + r.attOut)
  }

  function RelayedOn(v: Versus, s: Seat, e: GameEvent): Versus
  { Merged(v, s, RelayOne(v.Of(s), v.Of(s.Other()), e)) }

  function RelayedRest(v: Versus, s: Seat, evs: seq<GameEvent>): Versus
  { Merged(v, s, RelayAll(v.Of(s), v.Of(s.Other()), evs)) }

  function RelayedSide(v: Versus, s: Seat): Versus
  { RelayedRest(v.With(s, v.Of(s).(ev := [])), s, v.Of(s).ev) }

  // A tax reaches the other side as a recorded credit.
  lemma TaxIs(v: Versus, s: Seat, n: int)
    ensures var w := v.With(s.Other(), Apply(v.Of(s.Other()), FundsIn(n)));
      RelayedOn(v, s, FundsStolen(n)) == if s.A? then w.(outB := v.outB + [RelayFunds(n)])
        else w.(outA := v.outA + [RelayFunds(n)])
  { hide AddFunds; }

  lemma RelayedMore(v: Versus, s: Seat, evs: seq<GameEvent>)
    requires evs != []
    ensures RelayedRest(v, s, evs) == RelayedRest(RelayedOn(v, s, evs[0]), s, evs[1..])
  {
    hide RelayOne;
    var r := RelayOne(v.Of(s), v.Of(s.Other()), evs[0]);
    MergedThen(v, s, r, RelayAll(r.att, r.vic, evs[1..]));
  }

  lemma MergedOver(v: Versus, s: Seat, att: Player, vic: Player, d: Delivery)
    ensures Merged(v.With(s, att).With(s.Other(), vic), s, Delivered(att, vic, d)) == Merged(v, s, Delivered(att, vic, d))
  {}

  lemma MergedThen(v: Versus, s: Seat, r: Relayed, q: Relayed)
    ensures Merged(Merged(v, s, r), s, q) == Merged(v, s, Then(r, q))
  {
    assert forall x: seq<RelayEvent>, y: seq<RelayEvent>, z: seq<RelayEvent> :: (x + y) + z == x + (y + z);
    assert forall x: seq<WeaponToken>, y: seq<WeaponToken>, z: seq<WeaponToken> :: (x + y) + z == x + (y + z);
  }

  lemma MergedNothing(v: Versus, s: Seat)
    ensures Merged(v, s, Quiet(v.Of(s), v.Of(s.Other()))) == v
  {}
}
