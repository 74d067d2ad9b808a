/** Two games and the relay between them (rust/bt-core/src/versus.rs). */
module VersusMatch {
  import opened Weapons
  import opened Engine
  import opened Inputs

  datatype Seat = A | B
  {
    function Other(): Seat { if A? then B else A }
  }

  // An effect the relay applied to one side, recorded for that side's client.
  datatype RelayEvent =
    | RelayWeapon(token: WeaponToken)
    | RelayOpScore(score: int, lines: int)
    | RelayFunds(amount: int)

  // The form it takes on the wire: a client never learns the opponent's funds.
  function ToInput(e: RelayEvent): Input
  {
    match e
    case RelayWeapon(t) => WeaponIn(t)
    case RelayOpScore(s, l) => OpScoreIn(s, l, 0)
    case RelayFunds(n) => FundsIn(n)
  }

  datatype Relayed = Relayed(
    att: Player, vic: Player,
    attOut: seq<RelayEvent>, vicOut: seq<RelayEvent>,
    spies: seq<WeaponToken>, dirty: bool, over: bool)

  function Quiet(att: Player, vic: Player): Relayed { Relayed(att, vic, [], [], [], false, false) }

  function QueueOn(p: Player, t: WeaponToken): Player { p.(g := ReceiveWeapon(p.g, t)) }

  // A launched weapon finds its target. A mirror-cursed launcher is hit by its own weapon.
  function Deliver(att: Player, vic: Player, t: WeaponToken): Relayed
  {
    if On(att.g, MIRROR) then
      if MirrorNullifies(t) then Quiet(att, vic)
      else Quiet(QueueOn(att, t), vic).(attOut := [RelayWeapon(t)])
    else if t == SWAP then
      Quiet(att.(g := QueueSwap(att.g, ExportBoard(vic.g.board))),
            vic.(g := QueueSwap(vic.g, ExportBoard(att.g.board)))).(dirty := true)
    else if t == SUSAN then
      Quiet(att.(g := att.g.(arsenal := vic.g.arsenal)), vic.(g := vic.g.(arsenal := att.g.arsenal))).(dirty := true)
    else if t == KEATING then
      var credit := vic.g.tally.funds;
      Quiet(Advance(att, AddFunds(att.g, credit)), QueueOn(vic, t)).(attOut := [RelayFunds(credit)],
        vicOut := [RelayWeapon(t)])
    else Quiet(att, QueueOn(vic, t)).(vicOut := [RelayWeapon(t)])
  }

  // One drained event of the attacker's game.
  function RelayOne(att: Player, vic: Player, e: GameEvent): Relayed
  {
    match e
    case WeaponLaunched(t) =>
      if IsSpy(t) then Quiet(att, vic).(spies := if On(att.g, MIRROR) then [] else [t])
      else Deliver(att, vic, t)
    case Scored(s, l, f) =>
      Quiet(att, Apply(vic, OpScoreIn(s, l, f))).(vicOut := [RelayOpScore(s, l)])
    case FundsStolen(n) =>
      Quiet(att, Advance(vic, AddFunds(vic.g, n))).(vicOut := [RelayFunds(n)])
    case EnterBazaar => Quiet(att, vic).(dirty := true)
    case GameOver => Quiet(att, vic).(over := true)
    case _ => Quiet(att, vic)
  }

  function Then(r: Relayed, s: Relayed): Relayed
  {
    Relayed(s.att, s.vic, r.attOut + s.attOut, r.vicOut + s.vicOut, r.spies + s.spies,
            r.dirty || s.dirty, r.over || s.over)
  }

  function RelayAll(att: Player, vic: Player, evs: seq<GameEvent>): Relayed
    decreases |evs|
  {
    if evs == [] then Quiet(att, vic)
    else
      var r := RelayOne(att, vic, evs[0]);
      Then(r, RelayAll(r.att, r.vic, evs[1..]))
  }

  datatype Versus = Versus(
    a: Player, b: Player,
    result: int,     // 0 ongoing, 1 A won, 2 B won
    dirty: bool,
    spyA: seq<WeaponToken>, spyB: seq<WeaponToken>,
    outA: seq<RelayEvent>, outB: seq<RelayEvent>)
  {
    function Of(s: Seat): Player { if s.A? then a else b }
    function With(s: Seat, p: Player): Versus { if s.A? then this.(a := p) else this.(b := p) }
    predicate Frozen() { a.g.tally.inBazaar || b.g.tally.inBazaar }
  }

  function NewVersus(seedA: int, seedB: int): Versus
    requires 0 <= seedA < 0x1_0000_0000_0000_0000 && 0 <= seedB < 0x1_0000_0000_0000_0000
  { Versus(NewPlayer(seedA), NewPlayer(seedB), 0, false, [], [], [], []) }

  // A's events act first, then B's, including what the first half queued on B.
  function FirstHalf(v: Versus): Relayed { RelayAll(v.a.(ev := []), v.b, v.a.ev) }

  function SecondHalf(v: Versus): Relayed
  {
    var r := FirstHalf(v);
    RelayAll(r.vic.(ev := []), r.att, r.vic.ev)
  }

  function Relay(v: Versus): Versus
  {
    var r, s := FirstHalf(v), SecondHalf(v);
    Versus(s.vic, s.att,
           if v.result != 0 then v.result else if r.over then 2 else if s.over then 1 else 0,
           v.dirty || r.dirty || s.dirty,
           v.spyA + r.spies, v.spyB + s.spies,
           v.outA + r.attOut + s.vicOut, v.outB + r.vicOut + s.attOut)
  }

  // Both boards advance, unless either player is shopping.
  function TickBoth(v: Versus, dt: int): Versus
  {
    if v.Frozen() then v
    else v.(a := Advance(v.a, Tick(v.a.g, dt)), b := Advance(v.b, Tick(v.b.g, dt)))
  }

  function VTick(v: Versus, dt: int): Versus
  { if v.result != 0 then v else Relay(TickBoth(v, dt)) }
}
