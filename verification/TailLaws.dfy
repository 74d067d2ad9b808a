/** Which unacknowledged inputs move a game they are replayed on
    (rust/bt-core/src/game.rs:530-666, rust/bt-netcode/src/lib.rs:351-359). */
module TailLaws {
  import opened Weapons
  import opened Pieces
  import opened Arsenals
  import opened Engine
  import opened Inputs
  import opened Prediction
  import opened PieceLaws
  import opened WeaponLaws
  import opened WallLaws
  import opened HealthLaws
  import opened BazaarLiveness

  // A sideways move or a turn: what a later input can undo.
  predicate Shift(i: Input) { i.MoveLeft? || i.MoveRight? || i.RotateKey? }

  predicate CanSlip(g: Sim, dx: int)
  { !g.paused && g.motion.phase != Over && Fits(g, g.motion.x + dx, g.motion.y) }

  // The guard under which an input moves a game that is not shopping.
  predicate Acts(g: Sim, i: Input)
  {
    match i
    case MoveLeft => CanSlip(g, g.frame.leftX)
    case MoveRight => CanSlip(g, g.frame.rightX)
    case RotateKey =>
      !g.paused && g.motion.phase != Over && g.motion.current.Some? && CanRotate(g.motion.current.value, g.board, false)
    case SoftDropKey => !g.paused && g.motion.phase == Falling
    case BeginDropKey => !Halted(g) && (EngagesDrop(g) || !g.motion.dropping)
    case LaunchSlot(k) => g.motion.phase != Over && TokenAt(g.arsenal, k).Some?
    case _ => false
  }

  // ----- what no legal input takes back -----

  function HeldUpTo(a: Arsenal, n: nat): nat
    requires n <= 10
  { if n == 0 then 0 else HeldUpTo(a, n - 1) + a.quantity[n - 1] }

  lemma {:induction false} OneFewer(a: Arsenal, k: nat, n: nat)
    requires n <= 10 && k < 10 && a.quantity[k] > 0
    ensures HeldUpTo(UseSlot(a, k), n) == HeldUpTo(a, n) - (if k < n then 1 else 0)
    decreases n
  { if n > 0 { OneFewer(a, k, n - 1); } }

  // Rows fallen, slides begun, drops engaged and weapons spent, all counted up.
  function Spent(g: Sim): int
  {
    (if g.frame.deltaY == 1 then g.motion.y else -g.motion.y) - HeldUpTo(g.arsenal, 10)
    + (if g.motion.phase == Sliding then 1 else 0) + (if g.motion.dropping then 1 else 0)
    + (if g.motion.dropTime == g.frame.fastDropTime then 1 else 0)
  }

  // Column, orientation and state: what sideways moves and turns change.
  datatype Pose = Pose(x: int, orientation: int, state: int)

  function PoseOf(g: Sim): Pose
  {
    if g.motion.current.None? then Pose(g.motion.x, 0, 0)
    else Pose(g.motion.x, g.motion.current.value.orientation, g.motion.current.value.state)
  }

  // ----- one input -----

  // What a healthy game brings to an input.
  ghost predicate Ready(g: Sim)
  {
    && (g.frame.deltaY == 1 || g.frame.deltaY == -1) && g.frame.leftX != 0 && g.frame.rightX != 0
    && Tidy(g.arsenal) && (g.motion.phase != Over <==> g.motion.current.Some?)
    && (g.motion.current.Some? ==> Proper(g.motion.current.value))
  }

  lemma HealthyReady(g: Sim)
    requires Healthy(g)
    ensures Ready(g)
  { hide BoardSound, SwapSound, Tidy, Lasts, StreamRight, Proper, PlainPiece, ClearOfWalls; }

  lemma SlipMoves(g: Sim, dx: int)
    requires dx != 0
    ensures var h := MoveBy(g, dx);
      && Spent(h) == Spent(g)
      && (if CanSlip(g, dx) then PoseOf(h) != PoseOf(g) else h == g)
  { hide CanMoveTo, HeldUpTo; }

  lemma TurnMoves(g: Sim)
    requires Ready(g)
    ensures var h := RotateInput(g);
      && Spent(h) == Spent(g)
      && (if Acts(g, RotateKey) then PoseOf(h) != PoseOf(g) else h == g)
  {
    hide CanRotate, Rotated, Tidy, HeldUpTo, Proper;
    if g.motion.current.Some? { AnotherPose(g.motion.current.value); }
  }

  lemma AnotherPose(p: Piece)
    requires Proper(p)
    ensures var q := Rotated(p, false); q.orientation != p.orientation || q.state != p.state
  {
    hide Turn, MoveArms, ArmsOf, TurnedGrid;
    if p.kind == Star {
      assert BespokeState(p);
    } else {
      TurnIs(p.orientation, p.orientations, false);
    }
  }

  lemma SoftDropMoves(g: Sim)
    requires Ready(g) && !Shops(g)
    ensures var h := SoftDrop(g);
      && PoseOf(h) == PoseOf(g)
      && (if Acts(g, SoftDropKey) then Spent(h) > Spent(g) else h == g)
  { hide CanMoveTo, Tidy, Proper, HeldUpTo; }

  lemma BeginDropMoves(g: Sim)
    requires !Shops(g)
    ensures var h := BeginDrop(g);
      && PoseOf(h) == PoseOf(g)
      && (if Acts(g, BeginDropKey) then Spent(h) > Spent(g) else h == g)
  { hide HeldUpTo; }

  lemma LaunchMoves(g: Sim, k: nat)
    requires Tidy(g.arsenal) && !Shops(g)
    ensures var h := LaunchWeapon(g, k).g;
      && PoseOf(h) == PoseOf(g)
      && (if Acts(g, LaunchSlot(k)) then Spent(h) > Spent(g) else h == g)
  {
    if TokenAt(g.arsenal, k).Some? { OneFewer(g.arsenal, k, 10); }
    hide HeldUpTo, UseSlot, Tidy;
  }

  /** An input that is not a trade moves a game exactly when its guard holds, to another pose
      or to a state from which no legal input leads back. */
  lemma OneMoves(g: Sim, i: Input)
    requires Healthy(g) && !Shops(g) && Legal(i)
    ensures var h := ApplySim(g, i).g;
      && (!Acts(g, i) ==> h == g)
      && (Acts(g, i) && Shift(i) ==> PoseOf(h) != PoseOf(g))
      && (Acts(g, i) && !Shift(i) ==> Spent(h) > Spent(g))
      && (!Shift(i) ==> PoseOf(h) == PoseOf(g))
      && Spent(h) >= Spent(g)
  {
    hide Healthy, Spent, PoseOf, MoveBy, RotateInput, SoftDrop, BeginDrop, LaunchWeapon, Shops, Tidy, BuyWeapon,
      SellWeapon, Proper;
    HealthyReady(g);
    match i
    case MoveLeft => SlipMoves(g, g.frame.leftX);
    case MoveRight => SlipMoves(g, g.frame.rightX);
    case RotateKey => TurnMoves(g);
    case SoftDropKey => SoftDropMoves(g);
    case BeginDropKey => BeginDropMoves(g);
    case LaunchSlot(k) => LaunchMoves(g, k);
    case BuyIndex(k) => TradeRefused(g, i);
    case SellIndex(k) => TradeRefused(g, i);
    case LeaveKey => TradeRefused(g, i);
  }

  // A side that has left trades no more.
  lemma TradeRefused(g: Sim, i: Input)
    requires !Shops(g) && BazaarInput(i)
    ensures ApplySim(g, i).g == g
  { hide Buy, Sell, Price; }

  // ----- a tail -----

  predicate AllLegal(us: seq<Sent>) { forall k :: 0 <= k < |us| ==> Legal(us[k].input) }

  predicate NoneActs(g: Sim, us: seq<Sent>) { forall k :: 0 <= k < |us| ==> !Acts(g, us[k].input) }

  predicate NoShift(us: seq<Sent>) { forall k :: 0 <= k < |us| ==> !Shift(us[k].input) }

  predicate OneShift(us: seq<Sent>)
  { forall j, k :: 0 <= j < |us| && 0 <= k < |us| && Shift(us[j].input) && Shift(us[k].input) ==> j == k }

  lemma ReplayedOne(p: Player, i: Input)
    requires Healthy(p.g) && !Shops(p.g) && Legal(i)
    ensures ReplayInput(p, i).g == (if i.LeaveKey? then p.g else ApplySim(p.g, i).g)
    ensures Healthy(ReplayInput(p, i).g) && !Shops(ReplayInput(p, i).g)
  {
    InputHealthy(p.g, i);
    LegalKeepsBazaar(p.g, i);
    hide Healthy, ApplySim;
  }

  lemma {:induction false} NothingComesBack(p: Player, us: seq<Sent>)
    requires Healthy(p.g) && !Shops(p.g) && AllLegal(us)
    ensures Spent(ReplayTail(p, us).g) >= Spent(p.g)
    ensures NoShift(us) ==> PoseOf(ReplayTail(p, us).g) == PoseOf(p.g)
    decreases |us|
  {
    hide Healthy, Shops, Spent, PoseOf, ReplayInput, ApplySim, Legal, Acts, Shift;
    if us != [] {
      ReplayedOne(p, us[0].input);
      OneMoves(p.g, us[0].input);
      NothingComesBack(ReplayInput(p, us[0].input), us[1..]);
    }
  }

  /** A tail with at most one sideways move or turn leaves a game as it was if and only if none
      of its inputs has its guard met there; and none with its guard met leaves it so always. */
  lemma {:induction false} TailMoves(p: Player, us: seq<Sent>)
    requires Healthy(p.g) && !Shops(p.g) && AllLegal(us)
    ensures NoneActs(p.g, us) ==> ReplayTail(p, us).g == p.g
    ensures OneShift(us) ==> (ReplayTail(p, us).g == p.g <==> NoneActs(p.g, us))
    decreases |us|
  {
    hide Healthy, Shops, Spent, PoseOf, ReplayInput, ApplySim, Legal, Acts, Shift;
    if us != [] {
      var i := us[0].input;
      var q := ReplayInput(p, i);
      ReplayedOne(p, i);
      OneMoves(p.g, i);
      LeaveIdle(p.g, i);
      if Acts(p.g, i) {
        NothingComesBack(q, us[1..]);
        if Shift(i) && OneShift(us) { assert NoShift(us[1..]); }
      } else {
        TailMoves(q, us[1..]);
        assert NoneActs(p.g, us) <==> NoneActs(p.g, us[1..]);
      }
    }
  }

  lemma LeaveIdle(g: Sim, i: Input)
    ensures i.LeaveKey? ==> !Acts(g, i) && !Shift(i)
  {}
}
