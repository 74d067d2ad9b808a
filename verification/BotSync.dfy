/** The bot's synchronisation policy and driver (rust/bt-bot/src/sync.rs:79-91,
    rust/bt-bot/src/main.rs:605-646, 716-789, 855-872) on top of its link. */
module BotSync {
  import opened Weapons
  import Engine
  import opened Inputs
  import opened VersusMatch
  import opened BoutLog
  import opened Prediction
  import opened Sessions

  datatype SyncState = SyncState(
    done: bool, idle: bool, acked: nat, lastSent: nat,
    authBaz: bool, oppBaz: bool, localBaz: bool, bought: bool)

  datatype BotAction = End | WaitAck | WaitBazaar | Shop | Play

  function Decide(s: SyncState): (a: BotAction)
    // It stops when the match is over or the server silent, and only then.
    ensures a == End <==> s.done || s.idle
    // It holds while an input is unacknowledged, and for no other reason.
    ensures a == WaitAck <==> !s.done && !s.idle && s.acked < s.lastSent
    // The bazaar is shopped once a visit, when both the server and its own game have it in there.
    ensures a == Shop <==> !s.done && !s.idle && s.acked >= s.lastSent && s.authBaz && s.localBaz && !s.bought
    // It plays whenever nothing stands against it, and never into a barrier.
    ensures a == Play <==>
      !s.done && !s.idle && s.acked >= s.lastSent && !s.authBaz && !s.oppBaz && !s.localBaz
  {
    if s.done || s.idle then End
    else if s.acked < s.lastSent then WaitAck
    else if s.authBaz && s.localBaz && !s.bought then Shop
    else if s.authBaz || s.oppBaz || s.localBaz then WaitBazaar
    else Play
  }

  // The bot's own bookkeeping beside its predictor.
  datatype View = View(acked: nat, inBaz: bool, oppBaz: bool, bought: bool, done: bool)

  datatype BotNet = BotNet(l: Link, view: View)
  {
    function Sync(idle: bool): SyncState
    {
      SyncState(view.done, idle, view.acked, l.cl.inputSeq, view.inBaz, view.oppBaz,
                l.cl.p.g.tally.inBazaar, view.bought)
    }
  }

  function NewBotNet(b: Bout, s: Seat): BotNet
  { BotNet(NewLink(b, s), View(0, false, false, false, false)) }

  const TICK_MS: int := 16

  function SendAll(l: Link, ins: seq<Input>): Link
    decreases |ins|
  { if ins == [] then l else SendAll(SendInput(l, ins[0]), ins[1..]) }

  function Purchases(ts: seq<WeaponToken>): (r: seq<Input>)
    ensures |r| == |ts| && forall k :: 0 <= k < |r| ==> r[k] == BuyIndex(ts[k])
  { seq(|ts|, k requires 0 <= k < |ts| => BuyIndex(ts[k])) }

  function ShopBazaar(l: Link, shop: seq<WeaponToken>): Link
  { SendInput(SendAll(l, Purchases(shop)), LeaveKey) }

  // The moves are the placement strategy's choice.
  function PlayTick(l: Link, plan: seq<Input>): Link
  {
    var l' := l.(cl := ClientTick(l.cl, TICK_MS));
    if l'.cl.p.g.motion.phase == Engine.Over then l' else SendAll(l', plan)
  }

  function DriveTick(n: BotNet, idle: bool, plan: seq<Input>, shop: seq<WeaponToken>): BotNet
  {
    match Decide(n.Sync(idle))
    case End => if idle then n.(view := n.view.(done := true)) else n
    case WaitAck => n
    case WaitBazaar =>
      if n.view.inBaz && n.view.bought then n.(l := SendInput(n.l, LeaveKey)) else n
    case Shop => n.(l := ShopBazaar(n.l, shop), view := n.view.(bought := true))
    case Play => n.(l := PlayTick(n.l, plan))
  }

  function Seen(v: View, f: Message): View
  {
    if f.Snap? then
      View(f.ack, f.you, f.opp, v.bought && f.you, v.done || f.result != 0)
    else v
  }

  function HearFrame(n: BotNet): BotNet
  { if n.l.down == [] then n else BotNet(Hear(n.l), Seen(n.view, n.l.down[0])) }

  datatype BotMove =
    | Drive(idle: bool, plan: seq<Input>, shop: seq<WeaponToken>)
    | Arrival | Taking | Serving(dt: int) | Hearing
    | Outside(act: Act) | Resync | Resumed

  // Placements and launches never touch the bazaar.
  predicate Gameplay(i: Input) { Legal(i) && !BazaarInput(i) }

  predicate CanMove(n: BotNet, m: BotMove)
  {
    match m
    case Drive(_, plan, _) => forall i :: i in plan ==> Gameplay(i)
    case Outside(a) => Foreign(n.l, a)
    case _ => true
  }

  function Moved(n: BotNet, m: BotMove): BotNet
    requires CanMove(n, m)
  {
    match m
    case Drive(idle, plan, shop) => DriveTick(n, idle, plan, shop)
    case Arrival => n.(l := Arrive(n.l, true))
    case Taking => n.(l := Take(n.l))
    case Serving(dt) => n.(l := Serve(n.l, dt))
    case Hearing => HearFrame(n)
    case Outside(a) => n.(l := Elsewhere(n.l, a))
    case Resync => n.(l := GrantResync(n.l))
    case Resumed => n.(l := Resume(n.l))
  }
}
