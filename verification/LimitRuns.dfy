/** Runs that reach the two limits the protocol has: a reconnect with an input still in the
    server's channel, and a queue of weapons longer than a keyframe may hold. */
module LimitRuns {
  import opened Wrappers
  import opened Weapons
  import opened Boards
  import opened Pieces
  import opened PieceStream
  import opened Arsenals
  import opened Rng
  import opened Engine
  import opened Inputs
  import opened VersusMatch
  import opened BoutLog
  import opened Prediction
  import opened Sessions
  import opened SessionLaws
  import opened KeyframeLaws
  import Keyframes

  // ----- a reconnect -----

  // What the code allows while the other player is silent: the channel takes what it has
  // room for.
  predicate CanAlone(l: Link, m: Move) { Can(l, m) && (m.MArrive? ==> m.fits == HasRoom(l, 0)) }

  predicate CanAll(l: Link, ms: seq<Move>)
    decreases |ms|
  { ms == [] || (CanAlone(l, ms[0]) && CanAll(Stepped(l, ms[0]), ms[1..])) }

  function Led(l: Link, ms: seq<Move>): Link
    requires CanAll(l, ms)
    decreases |ms|
  { if ms == [] then l else Led(Stepped(l, ms[0]), ms[1..]) }

  // An input reaches the server's channel, the socket is lost, the client is back.
  const QUICK_RETURN: seq<Move> := [MSend(BeginDropKey), MArrive(true), MDrop, MReattach]

  // The four moves one by one; the code allows each where it happens.
  lemma QuickReturnIs(l: Link)
    requires l.up && l.queue == []
    ensures CanAll(l, QUICK_RETURN)
    ensures Led(l, QUICK_RETURN) == Reattach(Drop(Arrive(SendInput(l, BeginDropKey), true)))
  {
    hide SendInput, Arrive, Drop, Reattach;
    var l1 := SendInput(l, BeginDropKey);
    var l3 := Drop(Arrive(l1, true));
    SendKeepsQueue(l, BeginDropKey);
    assert QUICK_RETURN[1..] == [MArrive(true), MDrop, MReattach];
    assert QUICK_RETURN[1..][1..] == [MDrop, MReattach];
    assert QUICK_RETURN[1..][1..][1..] == [MReattach];
    assert [MReattach][1..] == [];
    assert CanAll(l3, [MReattach]) && Led(l3, [MReattach]) == Reattach(l3);
  }

  lemma SendKeepsQueue(l: Link, i: Input)
    ensures SendInput(l, i).queue == l.queue && SendInput(l, i).up == l.up
  { hide Predict, Forwards; }

  lemma InputWaits(l: Link)
    requires l.up && !l.cl.Walled() && l.queue == [] && l.wire == []
    ensures Drop(Arrive(SendInput(l, BeginDropKey), true)).queue != []
  { hide Apply, NoteLock; }

  lemma FreshLink(seedA: Word, seedB: Word, s: Seat)
    ensures var l := NewLink(NewBout(seedA, seedB), s);
      l.up && !l.cl.Walled() && l.queue == [] && l.wire == []
  { hide NewPlayer, NewVersus; }

  /** A match whose client reconnects at once after its first input leaves the stream broken. */
  lemma ReconnectBreaks(seedA: Word, seedB: Word, s: Seat)
    ensures var l := NewLink(NewBout(seedA, seedB), s);
      CanAll(l, QUICK_RETURN) && !SessionLaws.Stream(Led(l, QUICK_RETURN))
  {
    hide NewLink, NewBout, SendInput, Arrive, Drop, Reattach, SessionLaws.Stream, CanAll, Led, Predictor.Walled;
    var l := NewLink(NewBout(seedA, seedB), s);
    FreshLink(seedA, seedB, s);
    QuickReturnIs(l);
    InputWaits(l);
    ReattachKeeps(Drop(Arrive(SendInput(l, BeginDropKey), true)));
  }

  // ----- a full channel -----

  // n inputs, each of which reaches the channel, while the server takes none.
  function Flood(n: nat): seq<Move>
  { if n == 0 then [] else [MSend(MoveLeft), MArrive(true)] + Flood(n - 1) }

  // Attached, nothing on its way to the channel, and n inputs in it.
  ghost predicate Filled(l: Link, n: nat)
  { l.up && !l.cl.Walled() && l.wire == [] && |l.queue| == n && SessionLaws.Stream(l) }

  lemma OneMore(l: Link, n: nat)
    requires Filled(l, n) && n < INPUT_CAP
    ensures var l1 := SendInput(l, MoveLeft);
      Can(l, MSend(MoveLeft)) && CanAlone(l1, MArrive(true)) && Filled(Arrive(l1, true), n + 1)
  {
    SendKeeps(l, MoveLeft);
    SendsOne(l);
    hide SendInput, SessionLaws.Stream, Predictor.Walled;
    ArriveKeeps(SendInput(l, MoveLeft));
  }

  lemma SendsOne(l: Link)
    requires l.up && !l.cl.Walled() && l.wire == []
    ensures var l1 := SendInput(l, MoveLeft);
      l1.up && !l1.cl.Walled() && |l1.wire| == 1 && l1.queue == l.queue
  { hide Apply; }

  lemma TwoMoves(l: Link, m: Move, n: Move, ms: seq<Move>)
    requires CanAlone(l, m) && CanAlone(Stepped(l, m), n) && CanAll(Stepped(Stepped(l, m), n), ms)
    ensures CanAll(l, [m, n] + ms) && Led(l, [m, n] + ms) == Led(Stepped(Stepped(l, m), n), ms)
  {
    hide Can, Stepped;
    var all := [m, n] + ms;
    assert all[1..] == [n] + ms && ([n] + ms)[1..] == ms;
    assert CanAll(Stepped(l, m), [n] + ms);
  }

  // After the flood, two more moves.
  lemma {:induction false} FloodThen(l: Link, n: nat, k: nat, refused: seq<Move>)
    requires Filled(l, k) && n + k == INPUT_CAP && refused == [MSend(MoveLeft), MArrive(false)]
    ensures CanAll(l, Flood(n) + refused) && !SessionLaws.Stream(Led(l, Flood(n) + refused))
    decreases n
  {
    hide Filled, Stepped, CanAll, Led, CanAlone, SendInput, Arrive, SessionLaws.Stream;
    if n == 0 {
      assert Flood(0) + refused == refused + [];
      LastRefused(l);
    } else {
      var l2 := Arrive(SendInput(l, MoveLeft), true);
      OneMore(l, k);
      FloodThen(l2, n - 1, k + 1, refused);
      MovesAre(l, true);
      TwoMoves(l, MSend(MoveLeft), MArrive(true), Flood(n - 1) + refused);
      assert Flood(n) + refused == [MSend(MoveLeft), MArrive(true)] + (Flood(n - 1) + refused);
    }
  }

  lemma MovesAre(l: Link, fits: bool)
    requires l.up
    ensures Can(l, MSend(MoveLeft)) && Stepped(l, MSend(MoveLeft)) == SendInput(l, MoveLeft)
    ensures CanAlone(l, MSend(MoveLeft))
    ensures var l1 := SendInput(l, MoveLeft); Stepped(l1, MArrive(fits)) == Arrive(l1, fits)
  { hide SendInput, Arrive; }

  lemma LastRefused(l: Link)
    requires Filled(l, INPUT_CAP)
    ensures CanAll(l, [MSend(MoveLeft), MArrive(false)] + [])
    ensures !SessionLaws.Stream(Led(l, [MSend(MoveLeft), MArrive(false)] + []))
  {
    SendKeeps(l, MoveLeft);
    SendsOne(l);
    MovesAre(l, false);
    hide SendInput, SessionLaws.Stream, Predictor.Walled, Arrive, CanAll, Led, Stepped;
    var l1 := SendInput(l, MoveLeft);
    RefusedArrival(l1);
    LedNowhere(Arrive(l1, false));
    TwoMoves(l, MSend(MoveLeft), MArrive(false), []);
  }

  lemma LedNowhere(l: Link)
    ensures CanAll(l, []) && Led(l, []) == l
  {}

  /** From the start of any match, one input more than the channel holds, while the server takes
      none, breaks the stream. */
  lemma FullChannelBreaks(seedA: Word, seedB: Word, s: Seat)
    ensures var l, ms := NewLink(NewBout(seedA, seedB), s), Flood(INPUT_CAP) + [MSend(MoveLeft), MArrive(false)];
      CanAll(l, ms) && !SessionLaws.Stream(Led(l, ms))
  {
    hide NewLink, NewBout, CanAll, Led, SessionLaws.Stream, Predictor.Walled, Flood;
    FreshLink(seedA, seedB, s);
    StartStream(seedA, seedB, s);
    FloodThen(NewLink(NewBout(seedA, seedB), s), INPUT_CAP, 0, [MSend(MoveLeft), MArrive(false)]);
  }

  lemma StartStream(seedA: Word, seedB: Word, s: Seat)
    ensures SessionLaws.Stream(NewLink(NewBout(seedA, seedB), s))
  {
    hide SessionLaws.Stream, NewPlayer, NewVersus;
    FreshStream(seedA, seedB, s);
  }

  // ----- a long queue of weapons -----

  // n times a granted weapon and its launch.
  function Volley(n: nat): (acts: seq<Act>)
  {
    if n == 0 then []
    else Volley(n - 1) + [DoGrant(A, Some(RISE_UP), 0), DoInput(A, LaunchSlot(0), n)]
  }

  function Shots(n: nat): (ev: seq<GameEvent>)
    ensures |ev| == n && forall e :: e in ev ==> e == WeaponLaunched(RISE_UP)
  { seq(n, _ => WeaponLaunched(RISE_UP)) }

  lemma {:induction false} RunConcat(b: Bout, x: seq<Act>, y: seq<Act>)
    ensures BoutLog.Run(b, x + y) == BoutLog.Run(BoutLog.Run(b, x), y)
    decreases |x|
  {
    hide Do;
    if x == [] {
      assert x + y == y;
    } else {
      assert (x + y)[1..] == x[1..] + y;
      RunConcat(Do(b, x[0]), x[1..], y);
    }
  }

  // A fresh piece of any kind fits where a new game puts it.
  lemma FreshFits(k: PieceKind, pips: int, p: Piece)
    requires p == Construct(k, 5, 0, pips)
    ensures CanMoveTo(p, NewBoard(false), 5 - p.rot / 2, 0)
  {
    forall i, j | 0 <= i < 8 && 0 <= j < 8 && p.cells[i][j].Some?
      ensures !Occupied(NewBoard(false), 5 - p.rot / 2 + i, 0 + j)
    { assert Shape(k, i, j); }
  }

  // A new game has its first piece, nothing queued and no weapon.
  predicate JustStarted(p: Player)
  {
    && p.ev == [] && p.g.motion.phase == Falling && !p.g.motion.dropping
    && p.g.motion.dropAccum == 0 && p.g.motion.dropTime == 512
    && p.g.arsenal == NewArsenal() && p.g.curses == Curses(NoFlags(), NoDurations(), [], None)
    && !p.g.tally.inBazaar && !p.g.paused && p.g.lockSeq == 0
  }

  lemma StartsSo(seed: Word)
    ensures JustStarted(NewPlayer(seed))
  {
    var g: Sim := Blank(Seeded(seed));
    var c := Choose(g.pieces, g.rng);
    var kind := if 1 <= c.id <= 18 then KindFromId(c.id).value else El;
    var pips := if kind == DieKind then Below(Next(c.rng), 6) + 1 else 1;
    var p := Construct(kind, 5, 0, pips);
    FreshFits(kind, pips, p);
    assert Create(g.pieces, g.rng, 5, 0).p == p by { hide Choose, Construct, Next, Below; }
    hide Create, CanMoveTo, Choose, Construct, Seeded;
  }

  // A weapon granted to an empty bank, and launched from it.
  function Armed(g: Sim): Sim { g.(arsenal := Buy(NewArsenal(), RISE_UP).0) }

  lemma GrantOne(b: Bout)
    requires b.v.a.g.arsenal == NewArsenal()
    ensures var c := Do(b, DoGrant(A, Some(RISE_UP), 0));
      c.v == b.v.(a := b.v.a.(g := Armed(b.v.a.g))) && c.ackA == b.ackA
  {
    assert Buy(NewArsenal(), RISE_UP).1;
    hide Buy, NewArsenal;
    assert b.v.a.ev + [] == b.v.a.ev;
  }

  lemma LaunchOne(g: Sim)
    requires g.arsenal == NewArsenal() && g.motion.phase == Falling && !g.tally.inBazaar
    ensures LaunchWeapon(Armed(g), 0) == Step(g, [WeaponLaunched(RISE_UP)])
  {
    var r := Buy(NewArsenal(), RISE_UP).0;
    assert UseSlot(r, 0) == NewArsenal() && TokenAt(r, 0) == Some(RISE_UP);
    hide Buy, UseSlot, TokenAt;
  }

  lemma OneShot(b: Bout, n: nat)
    requires b.v.a.g.arsenal == NewArsenal() && b.v.a.g.motion.phase == Falling && !b.v.Frozen() && b.ackA < n
    ensures var b' := Do(Do(b, DoGrant(A, Some(RISE_UP), 0)), DoInput(A, LaunchSlot(0), n));
      b'.v == b.v.(a := b.v.a.(ev := b.v.a.ev + [WeaponLaunched(RISE_UP)])) && b'.ackA == n
  {
    hide DebugGrant, LaunchWeapon, Armed, NewArsenal;
    GrantOne(b);
    LaunchOne(b.v.a.g);
    assert Armed(b.v.a.g).tally == b.v.a.g.tally by { ArmedKeeps(b.v.a.g); }
  }

  lemma ArmedKeeps(g: Sim)
    ensures Armed(g).tally == g.tally
  { hide Buy; }

  lemma PairRun(c: Bout, n: nat)
    ensures BoutLog.Run(c, [DoGrant(A, Some(RISE_UP), 0), DoInput(A, LaunchSlot(0), n)])
      == Do(Do(c, DoGrant(A, Some(RISE_UP), 0)), DoInput(A, LaunchSlot(0), n))
  {
    hide Do;
    var pair := [DoGrant(A, Some(RISE_UP), 0), DoInput(A, LaunchSlot(0), n)];
    var d := Do(c, pair[0]);
    assert pair[1..][0] == pair[1] && pair[1..][1..] == [];
    NoRun(Do(d, pair[1]));
    assert BoutLog.Run(d, pair[1..]) == Do(d, pair[1]);
  }

  lemma {:induction false} VolleyQueues(b: Bout, n: nat)
    requires JustStarted(b.v.a) && !b.v.Frozen() && b.ackA == 0
    ensures var b' := BoutLog.Run(b, Volley(n)); b'.v == b.v.(a := b.v.a.(ev := Shots(n))) && b'.ackA == n
    decreases n
  {
    hide Do, BoutLog.Run;
    if n > 0 {
      VolleyQueues(b, n - 1);
      var c := BoutLog.Run(b, Volley(n - 1));
      RunConcat(b, Volley(n - 1), [DoGrant(A, Some(RISE_UP), 0), DoInput(A, LaunchSlot(0), n)]);
      PairRun(c, n);
      OneShot(c, n);
      assert Shots(n) == Shots(n - 1) + [WeaponLaunched(RISE_UP)];
    } else {
      NoRun(b);
      assert Shots(0) == [];
    }
  }

  lemma NoRun(b: Bout)
    ensures BoutLog.Run(b, []) == b
  {}

  // The next tick only starts the piece's clock.
  lemma FirstTick(p: Player)
    requires JustStarted(p.(ev := []))
    ensures Tick(p.g, 16) == Step(p.g.(motion := p.g.motion.(dropAccum := 16)), [])
  { hide DropStep, Hatter, Slick; }

  // All the shots queue on the victim, in the same pass.
  lemma {:induction false} ShotsQueue(att: Player, vic: Player, evs: seq<GameEvent>)
    requires !On(att.g, MIRROR) && forall e :: e in evs ==> e == WeaponLaunched(RISE_UP)
    ensures var r := RelayAll(att, vic, evs);
      && r.att == att && r.vic.ev == vic.ev
      && r.vic.g == vic.g.(curses := vic.g.curses.(pending := r.vic.g.curses.pending))
      && |r.vic.g.curses.pending| == |vic.g.curses.pending| + |evs|
    decreases |evs|
  {
    if evs != [] {
      assert evs[0] in evs;
      var r := RelayOne(att, vic, evs[0]);
      assert r.att == att && r.vic == QueueOn(vic, RISE_UP);
      hide RelayOne, On;
      assert forall e :: e in evs[1..] ==> e in evs;
      ShotsQueue(att, r.vic, evs[1..]);
    }
  }

  lemma QueueAfter(v: Versus, n: nat)
    requires v.result == 0 && JustStarted(v.a.(ev := [])) && JustStarted(v.b) && v.a.ev == Shots(n)
    ensures var g := VTick(v, 16).b.g;
      |g.curses.pending| == n && g.lockSeq == 0 && g.curses.swap == None
  {
    hide Tick;
    FirstTick(v.a);
    FirstTick(v.b);
    var t := TickBoth(v, 16);
    assert t.a.ev == v.a.ev && t.b.ev == [] by { assert v.a.ev + [] == v.a.ev; }
    hide RelayAll;
    ShotsQueue(t.a.(ev := []), t.b, t.a.ev);
    var r := FirstHalf(t);
    assert r.vic.ev == [];
    NothingRelayed(r.vic.(ev := []), r.att);
  }

  lemma NothingRelayed(att: Player, vic: Player)
    ensures RelayAll(att, vic, []) == Quiet(att, vic)
  {}

  /** Any number of weapons can wait for one lock: launched before the same tick, they queue
      in one pass. The keyframe of more than 1024 is refused. */
  lemma LongQueueReached(seedA: Word, seedB: Word, n: nat, other: Keyframes.Saved)
    ensures var p := BoutLog.Run(NewBout(seedA, seedB), Volley(n) + [DoTick(16)]).v.b;
      && |p.g.curses.pending| == n && 0 <= p.g.lockSeq < MOD64
      && (n > 1024 ==>
            Keyframes.Restore(other, Keyframes.Snapshot(Keyframes.Saved(p.g, p.opScore, p.opFunds))) == (other, false))
  {
    hide NewPlayer, VTick, Keyframes.Restore, Keyframes.Snapshot;
    StartsSo(seedA);
    StartsSo(seedB);
    var b := NewBout(seedA, seedB);
    VolleyQueues(b, n);
    var c := BoutLog.Run(b, Volley(n));
    RunConcat(b, Volley(n), [DoTick(16)]);
    QueueAfter(c.v, n);
    var p := VTick(c.v, 16).b;
    assert [DoTick(16)][1..] == [];
    assert BoutLog.Run(c, [DoTick(16)]).v.b == p;
    if n > 1024 { LongQueue(Keyframes.Saved(p.g, p.opScore, p.opFunds), other); }
  }
}
