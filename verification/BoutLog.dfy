/** A hosted match and its recording (rust/bt-server/src/bout.rs,
    rust/bt-replay/src/lib.rs:477-611). */
module BoutLog {
  import opened Wrappers
  import opened Weapons
  import opened Arsenals
  import opened Rng
  import opened Inputs
  import opened VersusMatch

  datatype VersusFrame = VersusFrame(stamp: nat, seat: Seat, input: Input)

  const MOD32: int := 0x1_0000_0000

  datatype Bout = Bout(
    v: Versus, tick: nat, seedA: Word, seedB: Word,
    frames: seq<VersusFrame>, ackA: nat, ackB: nat)
  {
    function Ack(s: Seat): nat { if s.A? then ackA else ackB }
    function WithAck(s: Seat, n: nat): Bout { if s.A? then this.(ackA := n) else this.(ackB := n) }
  }

  function NewBout(seedA: Word, seedB: Word): Bout
  { Bout(NewVersus(seedA, seedB), 0, seedA, seedB, [], 0, 0) }

  function Recorded(b: Bout, s: Seat, i: Input): Bout
  {
    b.(v := b.v.With(s, Apply(b.v.Of(s), i)),
       frames := b.frames + [VersusFrame(b.tick % MOD32, s, i)])
  }

  predicate Fresh(b: Bout, s: Seat, i: Input, seqNo: nat) { Legal(i) && seqNo > b.Ack(s) }

  predicate Barred(b: Bout, i: Input) { b.v.Frozen() && !BazaarInput(i) }

  // A fresh legal input is acknowledged even when the bazaar barrier then drops it.
  function ApplyInput(b: Bout, s: Seat, i: Input, seqNo: nat): Bout
  {
    if !Fresh(b, s, i, seqNo) then b
    else if Barred(b, i) then b.WithAck(s, seqNo)
    else Recorded(b.WithAck(s, seqNo), s, i)
  }

  predicate GrantLands(b: Bout, s: Seat, w: WeaponToken) { Buy(b.v.Of(s).g.arsenal, w).1 }

  // The admin grant: a weapon, then funds, each recorded when it lands.
  function DebugGrant(b: Bout, s: Seat, weapon: Option<WeaponToken>, funds: int): Bout
  {
    var b' := if weapon.Some? && GrantLands(b, s, weapon.value) then Recorded(b, s, GrantIn(weapon.value)) else b;
    if funds != 0 then Recorded(b', s, FundsIn(funds)) else b'
  }

  function ResetAck(b: Bout, s: Seat): Bout { b.WithAck(s, 0) }

  function BTick(b: Bout, dt: int): Bout { b.(v := VTick(b.v, dt), tick := b.tick + 1) }

  // ----- what can happen to a hosted match -----

  datatype Act =
    | DoInput(seat: Seat, input: Input, seqNo: nat)
    | DoGrant(to: Seat, weapon: Option<WeaponToken>, funds: int)
    | DoReset(who: Seat)
    | DoTick(dt: int)

  function Do(b: Bout, a: Act): Bout
  {
    match a
    case DoInput(s, i, n) => ApplyInput(b, s, i, n)
    case DoGrant(s, w, f) => DebugGrant(b, s, w, f)
    case DoReset(s) => ResetAck(b, s)
    case DoTick(dt) => BTick(b, dt)
  }

  function Run(b: Bout, acts: seq<Act>): Bout
    decreases |acts|
  { if acts == [] then b else Run(Do(b, acts[0]), acts[1..]) }

  // ----- the recording -----

  datatype VersusReplay = VersusReplay(seedA: Word, seedB: Word, dt: int, tickCount: nat, frames: seq<VersusFrame>)

  function ToReplay(b: Bout, dt: int): VersusReplay
  { VersusReplay(b.seedA % MOD32, b.seedB % MOD32, dt, b.tick % MOD32, b.frames) }

  datatype Playback = Playback(v: Versus, executed: nat, cursor: nat)

  function StartPlayback(r: VersusReplay): Playback
  { Playback(NewVersus(r.seedA, r.seedB), 0, 0) }

  // Every frame stamped with the current tick, in order.
  function PlayFrames(v: Versus, fs: seq<VersusFrame>, executed: nat, cursor: nat): (Versus, nat)
    requires cursor <= |fs|
    ensures cursor <= PlayFrames(v, fs, executed, cursor).1 <= |fs|
    decreases |fs| - cursor
  {
    if cursor == |fs| || fs[cursor].stamp != executed then (v, cursor)
    else
      var f := fs[cursor];
      PlayFrames(v.With(f.seat, Apply(v.Of(f.seat), f.input)), fs, executed, cursor + 1)
  }

  function Drained(v: Versus): Versus { v.(a := v.a.(ev := []), b := v.b.(ev := [])) }

  function PlayStep(r: VersusReplay, p: Playback): (q: Playback)
    requires p.cursor <= |r.frames|
    ensures q.cursor <= |r.frames|
  {
    if p.executed >= r.tickCount then p
    else
      var f := PlayFrames(p.v, r.frames, p.executed, p.cursor);
      Playback(Drained(VTick(f.0, r.dt)), p.executed + 1, f.1)
  }

  function PlayToEnd(r: VersusReplay, p: Playback): (q: Playback)
    requires p.cursor <= |r.frames|
    ensures q.cursor <= |r.frames|
    decreases r.tickCount - p.executed
  { if p.executed >= r.tickCount then p else PlayToEnd(r, PlayStep(r, p)) }
}
