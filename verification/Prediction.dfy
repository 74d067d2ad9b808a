/** A client's predicted game (rust/bt-netcode/src/lib.rs) as a value: the inputs it still
    owes to the server, the reconciliation with an authoritative snapshot, and the judging
    of the server's lock hashes. */
module Prediction {
  import opened Wrappers
  import opened Weapons
  import opened Engine
  import opened Inputs

  datatype Sent = Sent(no: nat, input: Input)

  datatype LockPair = LockPair(no: int, hash: int)

  const LOCK_HISTORY: nat := 8

  datatype Predictor = Predictor(
    p: Player,
    inputSeq: nat,
    unacked: seq<Sent>,
    youBaz: bool,
    oppBaz: bool,
    ring: seq<LockPair>,
    mismatches: nat,
    lastJudged: Option<int>,
    lastSeen: int)
  {
    predicate Walled() { youBaz || oppBaz }
  }

  // The decoded full state a keyframe carries: the lockstep state and the opponent's score;
  // the opponent's funds are withheld.
  datatype Keyframe = Keyframe(g: Sim, opScore: int)

  function NewPredictor(seed: int): Predictor
    requires 0 <= seed < 0x1_0000_0000_0000_0000
  { Predictor(NewPlayer(seed), 0, [], false, false, [], 0, None, 0) }

  // Push the newest lock into the ring, at most LOCK_HISTORY pairs deep.
  function Pushed(ring: seq<LockPair>, q: LockPair): (r: seq<LockPair>)
    ensures |ring| <= LOCK_HISTORY ==> |r| <= LOCK_HISTORY
    ensures forall e :: e in r ==> e in ring || e == q
  { (if |ring| == LOCK_HISTORY then ring[1..] else ring) + [q] }

  function NoteLock(c: Predictor): Predictor
  {
    if c.p.g.lockSeq == c.lastSeen then c
    else c.(ring := Pushed(c.ring, LockPair(c.p.g.lockSeq, c.p.g.lockHash)), lastSeen := c.p.g.lockSeq)
  }

  function ClientTick(c: Predictor, dt: int): Predictor
  { NoteLock(c.(p := Advance(c.p, Tick(c.p.g, dt)))) }

  predicate ShopAccepted(g: Sim, i: Input)
  {
    match i
    case BuyIndex(k) => FromIndex(k).Some? && BuyAccepted(g, k)
    case SellIndex(k) => FromIndex(k).Some? && SellAccepted(g, k)
    case _ => false
  }

  // Gameplay is suppressed behind the barrier, a purchase or sale when the engine refuses it.
  predicate Forwards(c: Predictor, i: Input)
  {
    && (c.Walled() ==> BazaarInput(i))
    && (Shopping(i) ==> ShopAccepted(c.p.g, i))
  }

  function Predict(c: Predictor, i: Input): Predictor
  {
    if !Forwards(c, i) then c
    else
      NoteLock(c.(p := if i.LeaveKey? then c.p else Apply(c.p, i),
                  inputSeq := c.inputSeq + 1, unacked := c.unacked + [Sent(c.inputSeq + 1, i)]))
  }

  // ----- reconciliation -----

  function Unacked(us: seq<Sent>, ack: nat): (r: seq<Sent>)
    ensures forall u :: u in r <==> u in us && u.no > ack
    decreases |us|
  {
    if us == [] then []
    else
      var rest := Unacked(us[..|us| - 1], ack);
      assert us == us[..|us| - 1] + [us[|us| - 1]];
      if us[|us| - 1].no > ack then rest + [us[|us| - 1]] else rest
  }

  function ReplayInput(p: Player, i: Input): Player
  {
    if p.g.tally.inBazaar && !Shopping(i) then p
    else if i.LeaveKey? then p
    else Apply(p, i)
  }

  function ReplayTail(p: Player, us: seq<Sent>): Player
    decreases |us|
  { if us == [] then p else ReplayTail(ReplayInput(p, us[0].input), us[1..]) }

  function OnSnapshot(c: Predictor, ack: nat, you: bool, opp: bool, kf: Option<Keyframe>): Predictor
  {
    var left := Unacked(c.unacked, ack);
    var c' := c.(youBaz := you, oppBaz := opp, unacked := left);
    if kf.Some? then
      var p' := ReplayTail(Player(kf.value.g, kf.value.opScore, 0, []), left);
      c'.(p := p', ring := [], mismatches := 0, lastJudged := None, lastSeen := p'.g.lockSeq)
    else if c.youBaz && !you && c.p.g.tally.inBazaar then
      NoteLock(c'.(p := c.p.(g := LeaveBazaar(c.p.g))))
    else NoteLock(c')
  }

  function OnEvent(c: Predictor, i: Input): Predictor
  { NoteLock(c.(p := Apply(c.p, i))) }

  // ----- the divergence check -----

  // The index of the first pair of this lock; the ring's length when there is none.
  function Lookup(ring: seq<LockPair>, no: int, i: nat): (k: nat)
    requires i <= |ring|
    ensures i <= k <= |ring|
    ensures k < |ring| ==> ring[k].no == no
    ensures forall j :: i <= j < k ==> ring[j].no != no
    decreases |ring| - i
  { if i == |ring| || ring[i].no == no then i else Lookup(ring, no, i + 1) }

  // Whether the caller should ask for a resync: two judged locks in a row disagreed.
  function OnLockHash(c: Predictor, no: int, hash: int): (r: (Predictor, bool))
  {
    var k := Lookup(c.ring, no, 0);
    if c.lastJudged == Some(no) || k == |c.ring| then (c, false)
    else if c.ring[k].hash == hash then (c.(lastJudged := Some(no), mismatches := 0), false)
    else if c.mismatches + 1 >= 2 then (c.(lastJudged := Some(no), mismatches := 0), true)
    else (c.(lastJudged := Some(no), mismatches := c.mismatches + 1), false)
  }
}
