/** One client's link to a hosted match: the socket in both directions, the server's input
    queue, the keyframe flag and reconnects (rust/bt-server/src/main.rs:959-1160,
    1513-1616). */
module Sessions {
  import opened Wrappers
  import opened Rng
  import opened Engine
  import opened Inputs
  import opened VersusMatch
  import opened BoutLog
  import opened Prediction
  import opened PredictionLaws

  // A server-to-client message. The result is 0 while the match is on.
  datatype Message =
    | Snap(ack: nat, result: int, you: bool, opp: bool, kf: Option<Keyframe>, lock: LockPair)
    | Effect(event: RelayEvent)

  datatype Link = Link(
    bout: Bout,
    seat: Seat,
    even: bool,           // the next tick sends a snapshot
    want: bool,           // the next snapshot carries a keyframe
    up: bool,             // the socket is attached
    queue: seq<Sent>,     // this seat's inputs in the server's channel
    wire: seq<Sent>,      // this seat's inputs still in the socket
    down: seq<Message>,
    cl: Predictor)
  {
    function Game(): Sim { bout.v.Of(seat).g }
    function Seed(): Word { if seat.A? then bout.seedA else bout.seedB }
    function InFlight(): seq<Sent> { queue + wire }
    predicate Over() { bout.v.result != 0 }
  }

  function NewLink(b: Bout, s: Seat): Link
  { Link(b, s, true, true, true, [], [], [], NewPredictor(if s.A? then b.seedA else b.seedB)) }

  // The result as this seat sees it: 1 won, 2 lost.
  function ResultFor(v: Versus, s: Seat): int
  {
    if v.result == 0 then 0
    else if (v.result == 1 && s.A?) || (v.result == 2 && s.B?) then 1
    else 2
  }

  function Snapshot(b: Bout, s: Seat, full: bool): Message
  {
    var p, q := b.v.Of(s), b.v.Of(s.Other());
    Snap(b.Ack(s), ResultFor(b.v, s), p.g.tally.inBazaar, q.g.tally.inBazaar,
         if full then Some(Keyframe(p.g, p.opScore)) else None, PairOf(p.g))
  }

  // ----- what can happen -----

  function SendInput(l: Link, i: Input): Link
  {
    l.(cl := Predict(l.cl, i),
       wire := if Forwards(l.cl, i) then l.wire + [Sent(l.cl.inputSeq + 1, i)] else l.wire)
  }

  // What the server's channel holds, and the room in it beside the other seat's inputs.
  const INPUT_CAP: nat := 256

  predicate HasRoom(l: Link, others: nat) { |l.queue| + others < INPUT_CAP }

  // A socket message reaches the server's channel, unless the channel is full.
  function Arrive(l: Link, fits: bool): Link
  {
    if l.wire == [] then l
    else l.(queue := if fits then l.queue + [l.wire[0]] else l.queue, wire := l.wire[1..])
  }

  function Take(l: Link): Link
  {
    if l.queue == [] then l
    else l.(bout := ApplyInput(l.bout, l.seat, l.queue[0].input, l.queue[0].no), queue := l.queue[1..])
  }

  function Outbox(v: Versus, s: Seat): seq<RelayEvent> { if s.A? then v.outA else v.outB }

  function Effects(es: seq<RelayEvent>): (r: seq<Message>)
    ensures |r| == |es| && forall k :: 0 <= k < |r| ==> r[k] == Effect(es[k])
  { seq(|es|, k requires 0 <= k < |es| => Effect(es[k])) }

  function Emptied(v: Versus): Versus { v.(dirty := false, outA := [], outB := []) }

  // One iteration of the server's loop after the inputs: the tick, the forwarded events,
  // and on every other tick (and on the last one) a snapshot.
  function Serve(l: Link, dt: int): Link
  {
    if l.Over() then l
    else
      var b := BTick(l.bout, dt);
      var b' := b.(v := Emptied(b.v));
      var want := l.want || b.v.dirty;
      var events := l.down + Effects(Outbox(b.v, l.seat));
      if b.v.result != 0 then
        l.(bout := b', even := !l.even, want := want, down := events + [Snapshot(b', l.seat, true)])
      else if l.even then
        l.(bout := b', even := false, want := false, down := events + [Snapshot(b', l.seat, want)])
      else l.(bout := b', even := true, want := want, down := events)
  }

  // The next message reaches the client.
  function Hear(l: Link): Link
  {
    if l.down == [] then l
    else
      var f := l.down[0];
      l.(down := l.down[1..],
         cl := if f.Snap? then OnLockHash(OnSnapshot(l.cl, f.ack, f.you, f.opp, f.kf), f.lock.no, f.lock.hash).0
               else OnEvent(l.cl, ToInput(f.event)))
  }

  // The other player's inputs and reconnects, and admin grants.
  predicate Foreign(l: Link, a: Act)
  {
    match a
    case DoInput(s, _, _) => s != l.seat
    case DoReset(s) => s != l.seat
    case DoGrant(_, _, _) => true
    case DoTick(_) => false
  }

  function Elsewhere(l: Link, a: Act): Link
    requires Foreign(l, a)
  { l.(bout := Do(l.bout, a), want := l.want || a.DoGrant?) }

  // A granted resync request.
  function GrantResync(l: Link): Link { l.(want := true) }

  // The other side is back: both sides are sent a keyframe.
  function Resume(l: Link): Link
  { l.(down := l.down + [Snapshot(l.bout, l.seat, true)], want := true) }

  // The socket is lost with everything in it; the server's channel is not.
  function Drop(l: Link): Link { l.(up := false, wire := [], down := []) }

  // A fresh client takes over the seat: its numbering restarts, the acknowledgement with it.
  function Reattach(l: Link): Link
  {
    var b := ResetAck(l.bout, l.seat);
    l.(bout := b, up := true, wire := [], want := true, cl := NewPredictor(l.Seed()),
       down := [Snapshot(b, l.seat, true)])
  }

  datatype Move =
    | MSend(input: Input) | MArrive(fits: bool) | MTake | MServe(dt: int) | MHear
    | MElsewhere(act: Act) | MResync | MResume | MLocalTick(dt: int) | MDrop | MReattach

  // What the code lets happen when. A dropped client sends and hears nothing, and the
  // server's loop neither takes inputs nor ticks while the seat is empty.
  predicate Can(l: Link, m: Move)
  {
    match m
    case MSend(i) => l.up && Legal(i)
    case MElsewhere(a) => Foreign(l, a)
    case MArrive(_) => true
    case MDrop => true
    case MReattach => true
    case _ => l.up
  }

  function Stepped(l: Link, m: Move): Link
    requires Can(l, m)
  {
    match m
    case MSend(i) => SendInput(l, i)
    case MArrive(fits) => Arrive(l, fits)
    case MTake => Take(l)
    case MServe(dt) => Serve(l, dt)
    case MHear => Hear(l)
    case MElsewhere(a) => Elsewhere(l, a)
    case MResync => GrantResync(l)
    case MResume => Resume(l)
    case MLocalTick(dt) => l.(cl := ClientTick(l.cl, dt))
    case MDrop => Drop(l)
    case MReattach => Reattach(l)
  }
}
