/** What holds in every reachable state of a match, whatever the two players do. */
module RunLaws {
  import opened Wrappers
  import opened Cells
  import opened Weapons
  import opened Rng
  import opened Boards
  import opened Pieces
  import opened PieceStream
  import opened Arsenals
  import opened Engine
  import opened Inputs
  import opened VersusMatch
  import opened BoutLog
  import opened WeaponLaws
  import opened WallLaws
  import opened KeyframeLaws
  import opened HealthLaws
  import Keyframes

  ghost predicate BothHealthy(p: Player, q: Player) { Healthy(p.g) && Healthy(q.g) }

  predicate BothFree(p: Player, q: Player) { Free(p.g.motion, p.g.board) && Free(q.g.motion, q.g.board) }

  // ----- garbage -----

  // This event of the attacker's raises garbage on the victim: Lawyers, and new lines.
  predicate Raises(vic: Player, e: GameEvent)
  { e.Scored? && On(vic.g, LAWYERS) && e.totalLines > vic.g.tally.opLines }

  predicate Spares(att: Player, vic: Player, evs: seq<GameEvent>)
    decreases |evs|
  {
    evs == [] ||
      (!Raises(vic, evs[0]) && var r := RelayOne(att, vic, evs[0]); Spares(r.att, r.vic, evs[1..]))
  }

  // A relay pass that raises no garbage on either side.
  predicate PassSpares(v: Versus)
  {
    var r := FirstHalf(v);
    Spares(v.a.(ev := []), v.b, v.a.ev) && Spares(r.vic.(ev := []), r.att, r.vic.ev)
  }

  // No tick of the run raises garbage, whether or not Lawyers are in force.
  predicate NeverBuried(b: Bout, acts: seq<Act>)
    decreases |acts|
  {
    acts == [] ||
      ((acts[0].DoTick? && b.v.result == 0 ==> PassSpares(TickBoth(b.v, acts[0].dt)))
       && NeverBuried(Do(b, acts[0]), acts[1..]))
  }

  // ----- the relay -----

  lemma FundsHealthy(g: Sim, n: int)
    requires Healthy(g)
    ensures Healthy(AddFunds(g, n).g)
    ensures AddFunds(g, n).g.motion == g.motion && AddFunds(g, n).g.board == g.board
    ensures AddFunds(g, n).g.curses == g.curses
  { hide Healthy; BankHealthy(g, AddFunds(g, n).g) by { TidyOf(g); } }

  lemma TidyOf(g: Sim)
    requires Healthy(g)
    ensures Tidy(g.arsenal) && GridSound(g.board.cells, false)
  {
    hide Consistent, SwapSound, MotionSound, GridSound, Tidy;
    WithoutWalls(g.board.cells, Active(g.board.active, BOTTLE));
  }

  lemma ExportSound(b: Board)
    requires GridSound(b.cells, false)
    ensures SwapSound(Some(ExportBoard(b)))
  { hide GridSound, ExportCells; }

  // The relay touches neither game's falling piece nor, when it is spared, its board.
  predicate Untouched(p: Player, q: Player, spared: bool)
  { q.g.motion == p.g.motion && (spared ==> q.g.board == p.g.board) }

  lemma DeliverHealthy(att: Player, vic: Player, t: WeaponToken)
    requires BothHealthy(att, vic)
    ensures var r := Deliver(att, vic, t);
      BothHealthy(r.att, r.vic) && Untouched(att, r.att, true) && Untouched(vic, r.vic, true)
  {
    hide Healthy, ExportBoard, On, MirrorNullifies, SwapSound, AddFunds;
    TidyOf(att.g);
    TidyOf(vic.g);
    if t == KEATING { FundsHealthy(att.g, vic.g.tally.funds); }
    ExportSound(att.g.board);
    ExportSound(vic.g.board);
    SwapOf(att.g);
    SwapOf(vic.g);
    QueuedHealthy(att.g, ReceiveWeapon(att.g, t));
    QueuedHealthy(vic.g, ReceiveWeapon(vic.g, t));
    QueuedHealthy(att.g, QueueSwap(att.g, ExportBoard(vic.g.board)));
    QueuedHealthy(vic.g, QueueSwap(vic.g, ExportBoard(att.g.board)));
    BankHealthy(att.g, att.g.(arsenal := vic.g.arsenal));
    BankHealthy(vic.g, vic.g.(arsenal := att.g.arsenal));
  }

  lemma SwapOf(g: Sim)
    requires Healthy(g)
    ensures SwapSound(g.curses.swap)
  {}

  lemma ScoreHealthy(vic: Player, s: int, l: int, f: int)
    requires Healthy(vic.g)
    ensures var q := Apply(vic, OpScoreIn(s, l, f));
      Healthy(q.g) && Untouched(vic, q, !Raises(vic, Scored(s, l, f)))
  {
    hide Healthy, InsertLine, On;
    InputHealthy(vic.g, OpScoreIn(s, l, f));
    hide Free;
  }

  lemma RelayOneHealthy(att: Player, vic: Player, e: GameEvent)
    requires BothHealthy(att, vic)
    ensures var r := RelayOne(att, vic, e);
      BothHealthy(r.att, r.vic) && Untouched(att, r.att, true) && Untouched(vic, r.vic, !Raises(vic, e))
  {
    hide Healthy, Deliver, Apply, AddFunds, On, Raises;
    match e
    case WeaponLaunched(t) => if !IsSpy(t) { DeliverHealthy(att, vic, t); }
    case Scored(s, l, f) => ScoreHealthy(vic, s, l, f);
    case FundsStolen(n) => FundsHealthy(vic.g, n);
    case _ =>
  }

  lemma {:induction false} RelayHealthy(att: Player, vic: Player, evs: seq<GameEvent>)
    requires BothHealthy(att, vic)
    ensures var r := RelayAll(att, vic, evs);
      && BothHealthy(r.att, r.vic) && Untouched(att, r.att, true)
      && Untouched(vic, r.vic, Spares(att, vic, evs))
    decreases |evs|
  {
    hide Healthy, RelayOne, Raises;
    if evs != [] {
      var r := RelayOne(att, vic, evs[0]);
      RelayOneHealthy(att, vic, evs[0]);
      RelayHealthy(r.att, r.vic, evs[1..]);
    }
  }

  // ----- ticks and runs -----

  lemma PassHealthy(v: Versus)
    requires BothHealthy(v.a, v.b)
    ensures var w := Relay(v);
      BothHealthy(w.a, w.b) && Untouched(v.a, w.a, PassSpares(v)) && Untouched(v.b, w.b, PassSpares(v))
  {
    hide Healthy, RelayAll, Spares;
    RelayHealthy(v.a.(ev := []), v.b, v.a.ev);
    var r := FirstHalf(v);
    RelayHealthy(r.vic.(ev := []), r.att, r.vic.ev);
  }

  lemma VTickHealthy(v: Versus, dt: int)
    requires BothHealthy(v.a, v.b)
    ensures var w := VTick(v, dt);
      && BothHealthy(w.a, w.b)
      && (BothFree(v.a, v.b) && (v.result == 0 ==> PassSpares(TickBoth(v, dt))) ==> BothFree(w.a, w.b))
  {
    hide Healthy, Relay, Tick, Free, PassSpares;
    if v.result == 0 {
      TickHealthy(v.a.g, dt);
      TickHealthy(v.b.g, dt);
      var t := TickBoth(v, dt);
      assert BothHealthy(t.a, t.b);
      assert BothFree(v.a, v.b) ==> BothFree(t.a, t.b);
      PassHealthy(t);
      StillFree(t.a, Relay(t).a);
      StillFree(t.b, Relay(t).b);
    }
  }

  lemma StillFree(p: Player, q: Player)
    ensures Untouched(p, q, true) && Free(p.g.motion, p.g.board) ==> Free(q.g.motion, q.g.board)
  {}

  lemma ApplyHealthy(v: Versus, s: Seat, i: Input)
    requires BothHealthy(v.a, v.b) && !i.OpScoreIn?
    ensures var w := v.With(s, Apply(v.Of(s), i));
      BothHealthy(w.a, w.b) && (BothFree(v.a, v.b) ==> BothFree(w.a, w.b))
  {
    InputHealthy(v.Of(s).g, i);
    hide Healthy, ApplySim, Free;
  }

  lemma DoHealthy(b: Bout, a: Act)
    requires BothHealthy(b.v.a, b.v.b)
    ensures var v, w := b.v, Do(b, a).v;
      && BothHealthy(w.a, w.b)
      && (BothFree(v.a, v.b) && NeverBuried(b, [a]) ==> BothFree(w.a, w.b))
  {
    hide BothHealthy, BothFree, Apply, VTick, PassSpares;
    match a
    case DoInput(s, i, n) => if Fresh(b, s, i, n) && !Barred(b, i) { ApplyHealthy(b.v, s, i); }
    case DoGrant(s, w, f) =>
      var lands := w.Some? && GrantLands(b, s, w.value);
      var b' := if lands then Recorded(b, s, GrantIn(w.value)) else b;
      if lands { ApplyHealthy(b.v, s, GrantIn(w.value)); }
      if f != 0 { ApplyHealthy(b'.v, s, FundsIn(f)); }
    case DoReset(s) =>
    case DoTick(dt) => VTickHealthy(b.v, dt);
  }

  lemma {:induction false} RunHealthy(b: Bout, acts: seq<Act>)
    requires BothHealthy(b.v.a, b.v.b)
    ensures var w := BoutLog.Run(b, acts).v;
      && BothHealthy(w.a, w.b)
      && (BothFree(b.v.a, b.v.b) && NeverBuried(b, acts) ==> BothFree(w.a, w.b))
    decreases |acts|
  {
    hide BothHealthy, BothFree, Do, PassSpares;
    if acts != [] {
      FirstSpares(b, acts);
      DoHealthy(b, acts[0]);
      RunHealthy(Do(b, acts[0]), acts[1..]);
    }
  }

  lemma FirstSpares(b: Bout, acts: seq<Act>)
    requires acts != []
    ensures NeverBuried(b, acts) ==> NeverBuried(b, [acts[0]]) && NeverBuried(Do(b, acts[0]), acts[1..])
  { hide Do, PassSpares; }

  lemma Reachable(seedA: Word, seedB: Word, acts: seq<Act>)
    ensures var v := BoutLog.Run(NewBout(seedA, seedB), acts).v;
      BothHealthy(v.a, v.b) && (NeverBuried(NewBout(seedA, seedB), acts) ==> BothFree(v.a, v.b))
  {
    NewHealthy(seedA);
    NewHealthy(seedB);
    hide Healthy, NewGame, Free, BoutLog.Run, NeverBuried;
    RunHealthy(NewBout(seedA, seedB), acts);
  }

  /** Every run keeps each game's weapon state consistent: the two sets of flags agree, a
      weapon with a lifetime is on exactly while lines remain, the movement frame is flipped
      exactly under Upbyside, and both clocks follow Meadow and Speedy. Once the stream
      weapons are off, the keep table is the default one. */
  lemma WeaponStateHolds(seedA: Word, seedB: Word, acts: seq<Act>, s: Seat)
    ensures var g := BoutLog.Run(NewBout(seedA, seedB), acts).v.Of(s).g;
      && Consistent(g)
      && (!On(g, FEARED_WEIRD) && !On(g, FOUR_BY_FOUR) && !On(g, NO_DICE) && !On(g, SO_LONG) && !On(g, BROKEN) ==>
            g.pieces.keep == DefaultTable() && !g.pieces.broken)
  {
    Reachable(seedA, seedB, acts);
    hide Consistent, BoutLog.Run, NewBout, BoardSound, MotionSound, SwapSound, On;
    var g := BoutLog.Run(NewBout(seedA, seedB), acts).v.Of(s).g;
    if !On(g, FEARED_WEIRD) && !On(g, FOUR_BY_FOUR) && !On(g, NO_DICE) && !On(g, SO_LONG) && !On(g, BROKEN) {
      StreamRecovers(g);
    }
  }

  /** In every reachable state the next piece's id is one of the table's. */
  lemma NextPieceKnown(seedA: Word, seedB: Word, acts: seq<Act>, s: Seat)
    ensures var g := BoutLog.Run(NewBout(seedA, seedB), acts).v.Of(s).g;
      && 1 <= Choose(g.pieces, g.rng).id <= 18
      && Create(g.pieces, g.rng, g.frame.defX, g.frame.defY).p.kind == KindFromId(Choose(g.pieces, g.rng).id).value
  {
    Reachable(seedA, seedB, acts);
    hide BoutLog.Run, NewBout, BoardSound, MotionSound, SwapSound, Choose, Tidy, StreamRight, Construct;
    var g := BoutLog.Run(NewBout(seedA, seedB), acts).v.Of(s).g;
    ChooseKeeps(g.pieces, g.rng, g.curses.active);
    KindBuilt(g.pieces, g.rng, g.frame.defX, g.frame.defY);
  }

  lemma KindBuilt(m: Stream, s: Word, x: int, y: int)
    requires Live(m.keep) && 1 <= Choose(m, s).id <= 18
    ensures Create(m, s, x, y).p.kind == KindFromId(Choose(m, s).id).value
  { hide Choose, ShapeGrid; }

  /** Every run keeps the bottle's walls standing while Bottle is active, flipped or not. */
  lemma WallsHold(seedA: Word, seedB: Word, acts: seq<Act>, s: Seat)
    ensures WallsStand(BoutLog.Run(NewBout(seedA, seedB), acts).v.Of(s).g.board)
  {
    Reachable(seedA, seedB, acts);
    hide Consistent, BoutLog.Run, NewBout, BoardSound, MotionSound, SwapSound, WallsStand;
    SoundWalls(BoutLog.Run(NewBout(seedA, seedB), acts).v.Of(s).g.board);
  }

  /** In every reachable state the falling piece stands where the game says, in a shape that
      rotation reaches; and on runs in which Lawyers raise no garbage, in force or not, it
      overlaps nothing. */
  lemma PieceStandsRight(seedA: Word, seedB: Word, acts: seq<Act>, s: Seat)
    ensures var b0 := NewBout(seedA, seedB);
      var g := BoutLog.Run(b0, acts).v.Of(s).g;
      && (g.motion.phase == Over <==> g.motion.current.None?)
      && (g.motion.current.Some? ==>
            var p := g.motion.current.value;
            && p.x == g.motion.x && p.y == g.motion.y && PieceLaws.Proper(p)
            && (NeverBuried(b0, acts) ==> CanMoveTo(p, g.board, p.x, p.y)))
  {
    Reachable(seedA, seedB, acts);
    hide Consistent, BoutLog.Run, NewBout, BoardSound, SwapSound, PieceLaws.Proper, PlainPiece, ClearOfWalls,
      CanMoveTo, NeverBuried;
  }

  /** A piece that overlaps nothing lands on open squares only: every square the board had
      stays, and exactly the piece's squares inside the board are added. */
  lemma LandingOverwritesNothing(p: Piece, b: Board)
    requires CanMoveTo(p, b, p.x, p.y)
    ensures forall x, y :: InBounds(x, y) ==>
      && (Covers(p, x, y) ==> b.cells[y][x].None? && LandedGrid(p, b.cells)[y][x] == p.cells[x - p.x][y - p.y])
      && (!Covers(p, x, y) ==> LandedGrid(p, b.cells)[y][x] == b.cells[y][x])
    ensures Count(LandedGrid(p, b.cells)) == Count(b.cells) + |LandingSquares(p)|
  {
    forall x, y | InBounds(x, y) && Covers(p, x, y)
      ensures b.cells[y][x].None?
    { CoveredIsOpen(p, b, x, y); }
    LandedCount(p, b.cells);
  }

  // The board squares the piece covers.
  function LandingSquares(p: Piece): set<(int, int)>
  { set x, y | 0 <= x < 10 && 0 <= y < 28 && Covers(p, x, y) :: (x, y) }

  function SquaresUpTo(c: Grid, k: nat): set<(int, int)>
    requires k <= 10
  { set x, y | 0 <= x < k && 0 <= y < 28 && c[y][x].Some? :: (x, y) }

  function ColumnSquares(c: Grid, x: int, n: nat): set<(int, int)>
    requires 0 <= x < 10 && n <= 28
  { set y | 0 <= y < n && c[y][x].Some? :: (x, y) }

  lemma {:induction false} ColumnSize(c: Grid, x: int, n: nat)
    requires 0 <= x < 10 && n <= 28
    ensures |ColumnSquares(c, x, n)| == ColumnCount(c, x, n)
    decreases n
  {
    if n > 0 {
      ColumnSize(c, x, n - 1);
      var s := ColumnSquares(c, x, n - 1);
      if c[n - 1][x].Some? {
        assert ColumnSquares(c, x, n) == s + {(x, n - 1)} && (x, n - 1) !in s;
      } else {
        assert ColumnSquares(c, x, n) == s;
      }
    }
  }

  lemma {:induction false} GridSize(c: Grid, k: nat)
    requires k <= 10
    ensures |SquaresUpTo(c, k)| == CountUpTo(c, k)
    decreases k
  {
    if k == 0 {
      assert SquaresUpTo(c, 0) == {};
    } else {
      GridSize(c, k - 1);
      ColumnSize(c, k - 1, 28);
      assert SquaresUpTo(c, k) == SquaresUpTo(c, k - 1) + ColumnSquares(c, k - 1, 28);
      assert SquaresUpTo(c, k - 1) !! ColumnSquares(c, k - 1, 28);
    }
  }

  lemma LandedSome(p: Piece, c: Grid)
    ensures forall x, y :: InBounds(x, y) ==>
      (LandedGrid(p, c)[y][x].Some? <==> c[y][x].Some? || Covers(p, x, y))
  {}

  lemma LandedCount(p: Piece, c: Grid)
    requires forall x, y :: InBounds(x, y) && Covers(p, x, y) ==> c[y][x].None?
    ensures Count(LandedGrid(p, c)) == Count(c) + |LandingSquares(p)|
  {
    hide CountUpTo, LandedGrid, Covers;
    var d := LandedGrid(p, c);
    GridSize(c, 10);
    GridSize(d, 10);
    LandedSome(p, c);
    DisjointUnion(SquaresUpTo(c, 10), LandingSquares(p), SquaresUpTo(d, 10)) by {
      assert forall q :: q in SquaresUpTo(d, 10) <==> q in SquaresUpTo(c, 10) || q in LandingSquares(p);
    }
  }

  lemma DisjointUnion(a: set<(int, int)>, b: set<(int, int)>, c: set<(int, int)>)
    requires a !! b && forall q :: q in c <==> q in a || q in b
    ensures |c| == |a| + |b|
  { assert c == a + b; }

  // The counters of a game fit the fields of the original.
  predicate WithinFields(s: Keyframes.Saved)
  {
    && CountersFit(s)
    && (s.g.motion.current.Some? ==>
          var p := s.g.motion.current.value; Fits32(p.x) && Fits32(p.y) && Fits32(p.color))
  }

  /** The keyframe of every reachable game whose counters fit their fields rebuilds the whole
      state, whatever game it is restored over, if and only if at most 1024 weapons are pending. */
  lemma ReachableRoundTrip(seedA: Word, seedB: Word, acts: seq<Act>, s: Seat, other: Keyframes.Saved)
    requires var p := BoutLog.Run(NewBout(seedA, seedB), acts).v.Of(s);
      WithinFields(Keyframes.Saved(p.g, p.opScore, p.opFunds))
    ensures var p := BoutLog.Run(NewBout(seedA, seedB), acts).v.Of(s);
      var saved := Keyframes.Saved(p.g, p.opScore, p.opFunds);
      Keyframes.Restore(other, Keyframes.Snapshot(saved)) ==
        if |p.g.curses.pending| <= 1024 then (saved, true) else (other, false)
  {
    Reachable(seedA, seedB, acts);
    hide Healthy, BoutLog.Run, NewBout, CountersFit, Shapely, Keyframes.Restore, Keyframes.Snapshot;
    var p := BoutLog.Run(NewBout(seedA, seedB), acts).v.Of(s);
    HealthyShapely(p.g);
    var saved := Keyframes.Saved(p.g, p.opScore, p.opFunds);
    RoundTripExactly(saved, other);
  }
}
