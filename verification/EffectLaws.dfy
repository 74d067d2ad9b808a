/** What each weapon does to a board (rust/bt-core/src/board.rs:379-427, 464-636), square by
    square, and how long weapons last (rust/bt-core/src/game.rs:1249-1368). */
module EffectLaws {
  import opened Wrappers
  import opened Cells
  import opened Weapons
  import opened Rng
  import opened Boards
  import opened PieceStream
  import opened Engine
  import opened ForceLaws

  // The squares of d and c differ nowhere but in these.
  ghost predicate SameBut(c: Grid, d: Grid, changed: set<(int, int)>)
  { forall x, y :: InBounds(x, y) && (x, y) !in changed ==> d[y][x] == c[y][x] }

  predicate Loose(c: Grid, x: int, y: int)
  { InBounds(x, y) && c[y][x].Some? && c[y][x].value.kind.Removable() }

  // ----- flips -----

  /** Upbyside turns a board over and its end turns it back. */
  lemma TurnsOverAndBack(b: Board, s: Word)
    requires !b.upside && !b.computer
    ensures var d := ApplyEffect(b, UPBYSIDE, s);
      && (forall x, y :: InBounds(x, y) ==> d.b.cells[y][x] == b.cells[27 - y][x])
      && d.b.upside && d.rng == s && RevertEffect(d.b, UPBYSIDE) == b
  { assert forall y :: 0 <= y < 28 ==> FlipHoriz(FlipHoriz(b.cells))[y] == b.cells[y]; }

  /** Flip Out mirrors left and right; twice changes nothing. */
  lemma MirrorsTwice(b: Board, s: Word)
    ensures var d := ApplyEffect(b, FLIP_OUT, s);
      && (forall x, y :: InBounds(x, y) ==> d.b.cells[y][x] == b.cells[y][9 - x])
      && d.rng == s && ApplyEffect(d.b, FLIP_OUT, s).b == b
  {
    var c := FlipVert(FlipVert(b.cells));
    forall y | 0 <= y < 28
      ensures c[y] == b.cells[y]
    { assert forall x :: 0 <= x < 10 ==> c[y][x] == b.cells[y][x]; }
  }

  // ----- boxes made worse -----

  /** Gimp makes every removable box a gimp of its own value and leaves the rest. */
  lemma Gimps(b: Board, s: Word)
    ensures var d := ApplyEffect(b, GIMP, s);
      && d.rng == s && d.b == b.(cells := d.b.cells)
      && forall x, y :: InBounds(x, y) ==>
           if Loose(b.cells, x, y) then
             d.b.cells[y][x] == Some(Plain(Gimp(b.cells[y][x].value.Value())))
           else d.b.cells[y][x] == b.cells[y][x]
  {}

  /** Twilight hides every box and neither adds nor removes one. */
  lemma Hides(b: Board, s: Word)
    ensures var d := ApplyEffect(b, TWILIGHT, s);
      && d.rng == s && d.b == b.(cells := d.b.cells)
      && forall x, y :: InBounds(x, y) ==>
           && (d.b.cells[y][x].Some? <==> b.cells[y][x].Some?)
           && (b.cells[y][x].Some? ==>
                 d.b.cells[y][x].value.hidden && d.b.cells[y][x].value.Value() == b.cells[y][x].value.Value())
  {}

  // ----- boxes gone -----

  // The k-th square the scan comes by.
  function Spot(sx: int, sy: int, k: nat): (q: (int, int))
    requires 0 <= sx < 10 && 0 <= sy < 28 && k < 280
    ensures InBounds(q.0, q.1)
  { ((sx + k % 10) % 10, (sy + k / 10) % 28) }

  lemma ScanStep(c: Grid, sx: int, sy: int, k: nat)
    requires 0 <= sx < 10 && 0 <= sy < 28 && k < 280
    ensures var (x, y) := Spot(sx, sy, k);
      RemoveFirst(c, sx, sy, k) == if Loose(c, x, y) then Put(c, x, y, None) else RemoveFirst(c, sx, sy, k + 1)
  { hide Put; }

  lemma ScanEnds(c: Grid, sx: int, sy: int)
    requires 0 <= sx < 10 && 0 <= sy < 28
    ensures RemoveFirst(c, sx, sy, 280) == c
  {}

  ghost predicate OneTaken(c: Grid, d: Grid) { exists x, y :: Loose(c, x, y) && d == Put(c, x, y, None) }

  lemma {:induction false} FirstGone(c: Grid, sx: int, sy: int, k: nat)
    requires 0 <= sx < 10 && 0 <= sy < 28 && k <= 280
    ensures RemoveFirst(c, sx, sy, k) == c || OneTaken(c, RemoveFirst(c, sx, sy, k))
    ensures RemoveFirst(c, sx, sy, k) == c ==>
      forall i: nat :: k <= i < 280 ==> var q := Spot(sx, sy, i); !Loose(c, q.0, q.1)
    decreases 280 - k
  {
    hide Put, Loose, Spot, RemoveFirst;
    if k < 280 {
      var (x, y) := Spot(sx, sy, k);
      ScanStep(c, sx, sy, k);
      if Loose(c, x, y) { PutsNone(c, x, y); } else { FirstGone(c, sx, sy, k + 1); }
    } else {
      ScanEnds(c, sx, sy);
    }
  }

  lemma PutsNone(c: Grid, x: int, y: int)
    requires Loose(c, x, y)
    ensures Put(c, x, y, None) != c && SameBut(c, Put(c, x, y, None), {(x, y)}) && Put(c, x, y, None)[y][x].None?
  { assert Put(c, x, y, None)[y][x].None?; }

  // From any origin the scan comes by every square.
  lemma Reaches(sx: int, sy: int, x: int, y: int) returns (i: nat)
    requires 0 <= sx < 10 && 0 <= sy < 28 && InBounds(x, y)
    ensures i < 280 && Spot(sx, sy, i) == (x, y)
  {
    var dx := if x >= sx then x - sx else x - sx + 10;
    var dy := if y >= sy then y - sy else y - sy + 28;
    i := 10 * dy + dx;
    assert i % 10 == dx && i / 10 == dy;
  }

  /** Missing takes exactly one removable box when there is one, and nothing otherwise. */
  lemma OneGoesMissing(b: Board, s: Word)
    ensures var d := ApplyEffect(b, MISSING, s).b;
      if forall x, y :: !Loose(b.cells, x, y) then d == b
      else exists x, y :: Loose(b.cells, x, y) && d.cells[y][x].None? && SameBut(b.cells, d.cells, {(x, y)})
  {
    hide RemoveFirst, Next, Below, Spot;
    var sx, sy := Below(Next(s), 10), Below(Next(Next(s)), 28);
    FirstGone(b.cells, sx, sy, 0);
    var c := RemoveFirst(b.cells, sx, sy, 0);
    if x, y :| Loose(b.cells, x, y) {
      if c == b.cells {
        var i := Reaches(sx, sy, x, y);
        assert false;
      }
      var u, v :| Loose(b.cells, u, v) && c == Put(b.cells, u, v, None);
      PutsNone(b.cells, u, v);
    }
  }

  // The k-th square, row by row.
  predicate LooseAt(c: Grid, k: nat)
    requires k < 280
  { Loose(c, k % 10, k / 10) }

  // How many removable boxes stand from the k-th square on before the m-th.
  function Tosses(c: Grid, k: nat, m: nat): nat
    requires k <= m <= 280
    decreases m - k
  { if k == m then 0 else (if LooseAt(c, k) then 1 else 0) + Tosses(c, k + 1, m) }

  // The generator after n draws.
  function Drawn(s: Word, n: nat): Word
    decreases n
  { if n == 0 then s else Drawn(Next(s), n - 1) }

  // What the coins leave of the m-th square, tossed from the k-th on.
  function TossedAt(c: Grid, s: Word, k: nat, m: nat): Square
    requires k <= m < 280
  {
    if LooseAt(c, m) && Below(Next(Drawn(s, Tosses(c, k, m))), 2) == 0 then None
    else c[m / 10][m % 10]
  }

  lemma {:induction false} SameTosses(c: Grid, d: Grid, k: nat, m: nat)
    requires k <= m <= 280 && forall i: nat :: k <= i < 280 ==> d[i / 10][i % 10] == c[i / 10][i % 10]
    ensures Tosses(d, k, m) == Tosses(c, k, m)
    decreases m - k
  { if k < m { SameTosses(c, d, k + 1, m); } }

  lemma PutsAt(c: Grid, k: nat)
    requires k < 280
    ensures forall i: nat :: i < 280 && i != k ==> Put(c, k % 10, k / 10, None)[i / 10][i % 10] == c[i / 10][i % 10]
    ensures Put(c, k % 10, k / 10, None)[k / 10][k % 10].None?
  {}

  lemma BlindStep(c: Grid, s: Word, k: nat)
    requires k < 280
    ensures BlindFrom(c, s, k) ==
      if LooseAt(c, k) then
        BlindFrom(if Below(Next(s), 2) == 0 then Put(c, k % 10, k / 10, None) else c, Next(s), k + 1)
      else BlindFrom(c, s, k + 1)
  { hide Next, Below, Put; }

  lemma {:induction false} BlindTakes(c: Grid, s: Word, k: nat)
    requires k <= 280
    ensures BlindFrom(c, s, k).1 == Drawn(s, Tosses(c, k, 280))
    ensures forall m: nat :: m < 280 ==>
      BlindFrom(c, s, k).0[m / 10][m % 10] == if m < k then c[m / 10][m % 10] else TossedAt(c, s, k, m)
    decreases 280 - k
  {
    hide Next, Below, Put, Loose, BlindFrom;
    if k < 280 {
      BlindStep(c, s, k);
      PutsAt(c, k);
      var loose := LooseAt(c, k);
      var d := if loose && Below(Next(s), 2) == 0 then Put(c, k % 10, k / 10, None) else c;
      var t := if loose then Next(s) else s;
      BlindTakes(d, t, k + 1);
      SameTosses(c, d, k + 1, 280);
      forall m: nat | m < 280
        ensures BlindFrom(c, s, k).0[m / 10][m % 10] == if m < k then c[m / 10][m % 10] else TossedAt(c, s, k, m)
      {
        if m > k {
          SameTosses(c, d, k + 1, m);
          BlindNext(c, d, s, t, k, m);
        } else if m == k {
          TossedFirst(c, s, k);
        }
      }
    } else {
      BlindEnds(c, s);
    }
  }

  lemma BlindEnds(c: Grid, s: Word)
    ensures BlindFrom(c, s, 280) == (c, s)
  {}

  lemma TossedFirst(c: Grid, s: Word, k: nat)
    requires k < 280
    ensures TossedAt(c, s, k, k) == if LooseAt(c, k) && Below(Next(s), 2) == 0 then None else c[k / 10][k % 10]
  { hide Next, Below, Loose; }

  lemma BlindNext(c: Grid, d: Grid, s: Word, t: Word, k: nat, m: nat)
    requires k < m < 280 && d[m / 10][m % 10] == c[m / 10][m % 10]
    requires t == (if LooseAt(c, k) then Next(s) else s) && Tosses(d, k + 1, m) == Tosses(c, k + 1, m)
    ensures TossedAt(d, t, k + 1, m) == TossedAt(c, s, k, m)
  {
    assert LooseAt(d, m) == LooseAt(c, m);
    hide Next, Below, LooseAt;
    assert Tosses(c, k, m) == (if LooseAt(c, k) then 1 else 0) + Tosses(c, k + 1, m);
    assert Drawn(t, Tosses(c, k + 1, m)) == Drawn(s, Tosses(c, k, m));
  }

  /** Blind tosses a coin for each removable box, row by row, takes those whose coin falls and
      nothing else. */
  lemma BlindTakesBoxes(b: Board, s: Word)
    ensures var d := ApplyEffect(b, BLIND, s);
      && d.b == b.(cells := d.b.cells) && d.rng == Drawn(s, Tosses(b.cells, 0, 280))
      && forall m: nat :: m < 280 ==>
           d.b.cells[m / 10][m % 10] ==
             if LooseAt(b.cells, m) && Below(Next(Drawn(s, Tosses(b.cells, 0, m))), 2) == 0 then None
             else b.cells[m / 10][m % 10]
  {
    hide BlindFrom, Below, Next, Drawn, Tosses;
    BlindTakes(b.cells, s, 0);
  }

  // ----- boxes added -----

  // A box, a hidden one or not, on a square that was open, and nothing else.
  ghost predicate BoxAdded(c: Grid, d: Grid, x: int, y: int, unseen: bool)
    requires InBounds(x, y)
  {
    && c[y][x].None? && SameBut(c, d, {(x, y)})
    && d[y][x].Some? && (unseen <==> d[y][x].value.kind == Color(INVISIBLE_COLOR))
  }

  /** Piece It and Bug put exactly one box on an open square of the middle half, visible or not,
      and nothing when there is none. */
  lemma OneMoreBox(b: Board, t: WeaponToken, s: Word)
    requires t == PIECE_IT || t == BUG
    ensures var d, unseen := ApplyEffect(b, t, s).b, t == BUG;
      if forall x, y :: 0 <= x < 10 && 7 <= y < 21 ==> b.cells[y][x].Some? then d == b
      else exists x, y :: 0 <= x < 10 && 7 <= y < 21 && BoxAdded(b.cells, d.cells, x, y, unseen)
  {
    hide Next, Below, RoundsToOpen, PickOpen;
    if BandOpen(b.cells) {
      var (i, j, u) := PickOpen(b.cells, s);
      var d := ApplyEffect(b, t, s).b;
      assert BoxAdded(b.cells, d.cells, i, j, t == BUG);
    }
  }

  // ----- columns falling out -----

  // The middle columns n rows further out.
  function DrainedBy(b: Board, n: nat, x: int, y: int): Square
    requires InBounds(x, y) && n <= 28
  {
    if !(2 <= x < 8) then b.cells[y][x]
    else if Upright(b) then (if y < n then None else b.cells[y - n][x])
    else (if y >= 28 - n then None else b.cells[y + n][x])
  }

  lemma {:induction false} Drains(b: Board, n: nat)
    requires !Active(b.active, FORCE) && !Active(b.active, BOTTLE) && n <= 28
    ensures var c := FallOutTimes(b, n).cells;
      forall x, y :: InBounds(x, y) ==> c[y][x] == DrainedBy(b, n, x, y)
    decreases n
  {
    if n > 0 {
      var d := b.(cells := Removed(b, if Upright(b) then 27 else 0, 2, 8));
      Drains(d, n - 1);
      forall x, y | InBounds(x, y)
        ensures d.cells[y][x] == DrainedBy(b, 1, x, y)
      {}
      hide Removed;
    }
  }

  /** Fall Out empties the columns between the ledges and leaves the ledges as they are. */
  lemma MiddleFallsOut(b: Board, s: Word)
    requires !Active(b.active, FORCE) && !Active(b.active, BOTTLE)
    ensures var d := ApplyEffect(b, FALL_OUT, s);
      d.rng == s && forall x, y :: InBounds(x, y) ==>
        d.b.cells[y][x] == if 2 <= x < 8 then None else b.cells[y][x]
  {
    Drains(b, 28);
    hide FallOutTimes;
  }

  // ----- a garbage line -----

  // A board with one garbage line more, column by column: everything gives way but the squares
  // beside the bottle's neck and beyond.
  predicate Raised(b: Board, d: Board, hole: int)
  {
    && 0 <= hole < 10 && d == b.(cells := d.cells)
    && forall x :: 0 <= x < 10 ==> Column(d.cells, x) == Lifted(b, x, if x == hole then None else GARBAGE)
  }

  function Lifted(b: Board, x: int, s: Square): seq<Square>
    requires 0 <= x < 10
  {
    var col, bottle := Column(b.cells, x), Active(b.active, BOTTLE) && !Inside(x);
    if Upright(b) then (if bottle then col[..18] + col[19..] + [s] else col[1..] + [s])
    else (if bottle then [s] + col[..9] + col[10..] else [s] + col[..27])
  }

  lemma LineRaises(b: Board, s: Word)
    ensures var (d, t) := InsertLine(b, s); Raised(b, d, Below(Next(s), 10)) && t == Next(s)
  {
    hide Next, Below;
    var hole, d := Below(Next(s), 10), InsertLine(b, s).0;
    forall x | 0 <= x < 10
      ensures Column(d.cells, x) == Lifted(b, x, if x == hole then None else GARBAGE)
    {
      var e := if x == hole then None else GARBAGE;
      LiftedAt(b, x, e);
      hide Lifted;
      assert forall y :: 0 <= y < 28 ==> Column(d.cells, x)[y] == Lifted(b, x, e)[y];
    }
  }

  lemma LiftedAt(b: Board, x: int, s: Square)
    requires 0 <= x < 10
    ensures var l, bottle := Lifted(b, x, s), Active(b.active, BOTTLE) && !Inside(x);
      && |l| == 28
      && forall y :: 0 <= y < 28 ==>
           l[y] == if Upright(b) then
                     (if y == 27 then s else if bottle && y < 18 then b.cells[y][x] else b.cells[y + 1][x])
                   else
                     (if y == 0 then s else if bottle && y > 9 then b.cells[y][x] else b.cells[y - 1][x])
  {}

  /** Rise Up raises one garbage line, its hole drawn once. */
  lemma RisesByOne(b: Board, s: Word)
    ensures var d := ApplyEffect(b, RISE_UP, s); Raised(b, d.b, Below(Next(s), 10)) && d.rng == Next(s)
  {
    hide InsertLine, Next, Below;
    LineRaises(b, s);
  }

  // n garbage lines, one after the other.
  ghost predicate RaisedTimes(b: Board, d: Board, n: nat)
    decreases n
  { if n == 0 then d == b else exists m: Board, hole: int :: Raised(b, m, hole) && RaisedTimes(m, d, n - 1) }

  lemma {:induction false} LinesRaise(b: Board, s: Word, n: nat)
    ensures RaisedTimes(b, InsertLines(b, s, n).0, n)
    decreases n
  {
    hide InsertLine, Raised, Next, Below;
    if n > 0 {
      LineRaises(b, s);
      var r := InsertLine(b, s);
      LinesRaise(r.0, r.1, n - 1);
    }
  }

  /** Lawyers raise one garbage line for each new line of the opponent; without them, or without
      new lines, the board stays. */
  lemma LawyersRaise(g: Sim, opLines: int)
    ensures var h := ReceiveOpLines(g, opLines).g;
      var more := opLines - g.tally.opLines;
      if On(g, LAWYERS) && more > 0 then RaisedTimes(g.board, h.board, more)
      else h.board == g.board && h.rng == g.rng
  {
    hide InsertLines, RaisedTimes;
    LinesRaise(g.board, g.rng, if On(g, LAWYERS) then Max(opLines - g.tally.opLines, 0) else 0);
    NoneInserted(g.board, g.rng);
  }

  lemma NoneInserted(b: Board, s: Word)
    ensures InsertLines(b, s, 0) == (b, s)
  {}

  // ----- the bottle -----

  /** The bottle's walls stand on both sides of the neck, eight rows of three, and go when it does. */
  lemma WallsComeAndGo(b: Board)
    ensures var d := Walled(b.cells, STRUCTURE_SQUARE);
      forall x, y :: InBounds(x, y) ==>
        d[y][x] == if 10 <= y <= 17 && (x <= 2 || x >= 7) then Some(Plain(Structure)) else b.cells[y][x]
    ensures var d := RevertEffect(b, BOTTLE);
      d == b.(cells := d.cells) && forall x, y :: InBounds(x, y) ==>
        d.cells[y][x] == if 10 <= y <= 17 && (x <= 2 || x >= 7) then None else b.cells[y][x]
  {}

  // ----- how long weapons last -----

  /** Lines wear every weapon down by their number, not below nothing. */
  lemma {:induction false} LinesWear(g: Sim, lines: nat, i: nat)
    requires i <= MAX_WEAPONS && forall t: WeaponToken :: g.curses.remaining[t] >= 0
    ensures var h := TickDurations(g, lines, i);
      forall t: WeaponToken :: h.curses.remaining[t] ==
        if t < i then g.curses.remaining[t] else Max(g.curses.remaining[t] - lines, 0)
    ensures var h := TickDurations(g, lines, i);
      forall t: WeaponToken :: On(h, t) == (On(g, t) && !(t >= i && 0 < g.curses.remaining[t] <= lines))
    decreases MAX_WEAPONS - i
  {
    if i < MAX_WEAPONS {
      OneWears(g, lines, i);
      hide Worn;
      LinesWear(Worn(g, lines, i), lines, i + 1);
    }
  }

  lemma OneWears(g: Sim, lines: nat, i: WeaponToken)
    requires g.curses.remaining[i] >= 0
    ensures var h := Worn(g, lines, i);
      && h.curses.remaining == g.curses.remaining[i := Max(g.curses.remaining[i] - lines, 0)]
      && forall t: WeaponToken :: On(h, t) == (On(g, t) && !(t == i && 0 < g.curses.remaining[t] <= lines))
  { hide RevertEffect, StreamOff; }

  /** A weapon that turns on is in force for its duration longer than before. */
  lemma LastsLonger(g: Sim, t: WeaponToken)
    requires t != BOTTLE
    ensures var h := ApplyOn(g, t).g;
      && h.curses.remaining == g.curses.remaining[t := g.curses.remaining[t] + Duration(t)]
      && On(h, t) && forall u: WeaponToken :: u != t ==> On(h, u) == On(g, u)
  { hide ApplyEffect, Duration, StreamOn; }

  /** Keating seizes the funds and Reagan turns them into a debt; no other weapon but Bottle, whose
      walls may complete lines, moves them. */
  lemma FundsAt(g: Sim, t: WeaponToken)
    requires t != BOTTLE
    ensures ApplyOn(g, t).g.tally.funds ==
      if t == KEATING then 0 else if t == REAGAN then -g.tally.funds else g.tally.funds
    ensures ApplyOn(g, t).ev == []
  { hide ApplyEffect, Duration, StreamOn; }
}
