/** The recorded actions and how each is applied to a game
    (rust/bt-replay/src/lib.rs:41-173). */
module Inputs {
  import opened Weapons
  import opened Engine

  datatype Input =
    | MoveLeft | MoveRight | RotateKey | BeginDropKey | AiDropKey | SoftDropKey
    | LaunchSlot(slot: nat)
    | BuyIndex(buy: int)
    | SellIndex(sell: int)
    | LeaveKey
    | PauseKey(paused: bool)
    | WeaponIn(weapon: int)
    | OpScoreIn(score: int, lines: int, funds: int)
    | FundsIn(amount: int)
    | GrantIn(grant: int)

  /** A game with the fields that stay outside the lockstep state: the display mirrors of the
      opponent's score and funds, and the queued events. */
  datatype Player = Player(g: Sim, opScore: int, opFunds: int, ev: seq<GameEvent>)

  function NewPlayer(seed: int): Player
    requires 0 <= seed < 0x1_0000_0000_0000_0000
  { var s := NewGame(seed); Player(s.g, 0, 0, s.ev) }

  function Advance(p: Player, s: Step): Player { p.(g := s.g, ev := p.ev + s.ev) }

  // The lockstep part of an action.
  function ApplySim(g: Sim, i: Input): Step
  {
    match i
    case MoveLeft => Step(MoveBy(g, g.frame.leftX), [])
    case MoveRight => Step(MoveBy(g, g.frame.rightX), [])
    case RotateKey => Step(RotateInput(g), [])
    case BeginDropKey => Step(BeginDrop(g), [])
    case AiDropKey => Step(AiBeginDrop(g), [])
    case SoftDropKey => Step(SoftDrop(g), [])
    case LaunchSlot(k) => LaunchWeapon(g, k)
    case BuyIndex(k) => Step(if FromIndex(k).Some? then BuyWeapon(g, k) else g, [])
    case SellIndex(k) => Step(if FromIndex(k).Some? then SellWeapon(g, k) else g, [])
    case LeaveKey => Step(LeaveBazaar(g), [])
    case PauseKey(on) => Step(g.(paused := on), [])
    case WeaponIn(k) => Step(if FromIndex(k).Some? then ReceiveWeapon(g, k) else g, [])
    case OpScoreIn(_, lines, _) => ReceiveOpLines(g, lines)
    case FundsIn(amount) => AddFunds(g, amount)
    case GrantIn(k) => Step(if FromIndex(k).Some? then GrantWeapon(g, k) else g, [])
  }

  function Apply(p: Player, i: Input): Player
  {
    var q := Advance(p, ApplySim(p.g, i));
    if i.OpScoreIn? then q.(opScore := i.score, opFunds := i.funds) else q
  }

  // What a client may submit; the incoming effects and the pause are the server's own.
  predicate Legal(i: Input)
  {
    match i
    case MoveLeft => true case MoveRight => true case RotateKey => true
    case SoftDropKey => true case BeginDropKey => true
    case LaunchSlot(_) => true case BuyIndex(_) => true case SellIndex(_) => true
    case LeaveKey => true
    case _ => false
  }

  predicate Shopping(i: Input) { i.BuyIndex? || i.SellIndex? }

  predicate BazaarInput(i: Input) { Shopping(i) || i.LeaveKey? }
}
