/** Clearing lines under Force and in the bottle (rust/bt-core/src/board.rs:225-374). */
module ForceLaws {
  import opened Wrappers
  import opened Cells
  import opened Weapons
  import opened Boards
  import opened LineLaws

  // ----- Force: nothing drops -----

  // The rows in which the bottle's walls stand in the way of a clear.
  predicate Banded(b: Board, y: int)
  { Active(b.active, BOTTLE) && (if Upright(b) then 10 <= y <= 18 else 9 <= y <= 18) }

  // The row that a board fills from: row 0, or row 27 on a flipped human board.
  function Edge(b: Board): int { if Upright(b) then 0 else 27 }

  // What Force leaves of row y, whatever the other rows hold.
  predicate ForcedRow(b: Board, y: int, r: Row)
    requires 0 <= y < 28
  {
    if !FullRow(b.cells[y]) then r == FrownRow(b.cells[y])
    else if y == Edge(b) then r == b.cells[y]
    else forall x :: 0 <= x < 10 ==> r[x] == if Banded(b, y) && !(3 <= x < 7) then b.cells[y][x] else None
  }

  lemma ForcedRemoval(b: Board, j: nat)
    requires j < 28 && Active(b.active, FORCE) && FullRow(b.cells[j])
    ensures var d := Removed(b, j, 0, 10);
      && ForcedRow(b, j, d[j]) && (forall y :: 0 <= y < 28 && y != j ==> d[y] == b.cells[y])
  {
    var d := Removed(b, j, 0, 10);
    forall y | 0 <= y < 28 && y != j
      ensures d[y] == b.cells[y]
    { assert forall x :: 0 <= x < 10 ==> d[y][x] == b.cells[y][x]; }
    if j == Edge(b) {
      assert forall x :: 0 <= x < 10 ==> d[j][x] == b.cells[j][x];
    }
  }

  lemma ForcedRowIs(b: Board, c: Board, y: int, r: Row)
    requires 0 <= y < 28 && ForcedRow(c, y, r)
    requires c.cells[y] == b.cells[y] && c.active == b.active && c.computer == b.computer
    ensures ForcedRow(b, y, r)
  {}

  lemma {:induction false} ForcedPass(b: Board, j: int, lines: nat, value: int)
    requires -1 <= j < 28 && Active(b.active, FORCE)
    ensures var c := ClearFrom(b, j, lines, value);
      && (forall y :: 0 <= y <= j ==> ForcedRow(b, y, c.b.cells[y]))
      && (forall y :: j < y < 28 ==> c.b.cells[y] == b.cells[y])
      && c.lines == lines + FullCount(b.cells[..j + 1]) && c.value == value + FullValue(b.cells[..j + 1])
    decreases j + 1
  {
    hide Count, Removed, ForcedRow, FullRow, FrownRow, FullCount, FullValue, Active, ValueUpTo;
    if j < 0 {
      assert b.cells[..0] == [];
      NoRows(b, lines, value);
      PackNothing();
    } else {
      var r := b.cells[j];
      assert b.cells[..j + 1] == b.cells[..j] + [r];
      Snoc(b.cells[..j], r);
      var full := FullRow(r);
      var next := if full then b.(cells := Removed(b, j, 0, 10)) else Frowned(b, j);
      assert ForcedRow(b, j, next.cells[j]) && forall y :: 0 <= y < 28 && y != j ==> next.cells[y] == b.cells[y] by {
        if full { ForcedRemoval(b, j); } else { UnforcedRow(b, j); }
      }
      assert next.active == b.active && next.computer == b.computer;
      PassSteps(b, j, lines, value);
      NotFullPaysNothing(r);
      assert next.cells[..j] == b.cells[..j];
      ForcedPass(next, j - 1, if full then lines + 1 else lines, value + RowValue(r));
      var c := ClearFrom(b, j, lines, value);
      forall y | 0 <= y < j
        ensures ForcedRow(b, y, c.b.cells[y])
      { ForcedRowIs(b, next, y, c.b.cells[y]); }
    }
  }

  lemma UnforcedRow(b: Board, j: nat)
    requires j < 28 && !FullRow(b.cells[j])
    ensures ForcedRow(b, j, Frowned(b, j).cells[j])
    ensures forall y :: 0 <= y < 28 && y != j ==> Frowned(b, j).cells[y] == b.cells[y]
  {}

  // One step of the pass under Force: a cleared row is not looked at again.
  lemma PassSteps(b: Board, j: nat, lines: nat, value: int)
    requires j < 28 && Active(b.active, FORCE)
    ensures ClearFrom(b, j, lines, value) ==
      if FullRow(b.cells[j]) then
        ClearFrom(b.(cells := Removed(b, j, 0, 10)), j - 1, lines + 1, value + RowValue(b.cells[j]))
      else ClearFrom(Frowned(b, j), j - 1, lines, value + RowValue(b.cells[j]))
  {
    hide Removed, FrownRow, Count;
    NotFullPaysNothing(b.cells[j]);
  }

  /** Under Force, in the bottle or out of it, no row moves. A full row is emptied where it
      stands, in the bottle's band between the walls alone; the row the board fills from is
      counted and stays; any other row keeps its squares, smiles turned to frowns. The count and
      the value are those of all full rows. */
  lemma ForceClears(b: Board)
    requires Active(b.active, FORCE)
    ensures var (d, clear) := CheckLines(b);
      && (forall y :: 0 <= y < 28 ==> ForcedRow(b, y, d.cells[y]))
      && clear.lines == FullCount(b.cells)
      && (clear.lines > 0 ==> clear.value == FullValue(b.cells) && clear.funds == clear.value * clear.lines)
  {
    hide ClearFrom, ForcedRow, FullCount, FullValue, NearDeath;
    ForcedPass(b, 27, 0, 0);
    assert b.cells[..28] == b.cells;
  }

  // ----- the bottle: which columns drop, and from which row -----

  function Column(c: Grid, x: int): (s: seq<Square>)
    requires 0 <= x < 10
    ensures |s| == 28
  { seq(28, y requires 0 <= y < 28 => c[y][x]) }

  // The squares from row t on down to row j, one row lower, over the one at row j.
  function Sunk(s: seq<Square>, t: int, j: int): seq<Square>
    requires |s| == 28 && 0 <= t <= j < 28
  { s[..t] + [None] + s[t..j] + s[j + 1..] }

  // The mirror image: those from row j on up to row t, one row higher.
  function Risen(s: seq<Square>, t: int, j: int): seq<Square>
    requires |s| == 28 && 0 <= j <= t < 28
  { s[..j] + s[j + 1..t + 1] + [None] + s[t + 1..] }

  lemma SunkAt(s: seq<Square>, t: int, j: int)
    requires |s| == 28 && 0 <= t <= j < 28
    ensures |Sunk(s, t, j)| == 28
    ensures forall y :: 0 <= y < 28 ==>
      Sunk(s, t, j)[y] == if t < y <= j then s[y - 1] else if y == t then None else s[y]
  {}

  lemma RisenAt(s: seq<Square>, t: int, j: int)
    requires |s| == 28 && 0 <= j <= t < 28
    ensures |Risen(s, t, j)| == 28
    ensures forall y :: 0 <= y < 28 ==>
      Risen(s, t, j)[y] == if j <= y < t then s[y + 1] else if y == t then None else s[y]
  {}

  // Between the walls, above the neck and below it.
  predicate Inside(x: int) { 3 <= x < 7 }

  lemma BottleDrops(b: Board, j: nat, x: int)
    requires j < 28 && 0 <= x < 10
    requires Active(b.active, BOTTLE) && !Active(b.active, FORCE) && Upright(b)
    ensures Column(Removed(b, j, 0, 10), x) ==
      if Inside(x) || j < 10 then Sunk(Column(b.cells, x), 0, j)
      else if j <= 18 then Column(b.cells, x)
      else Sunk(Column(b.cells, x), 18, j)
  {
    var s, d := Column(b.cells, x), Column(Removed(b, j, 0, 10), x);
    var t := if Inside(x) || j < 10 then 0 else if j <= 18 then 28 else 18;
    if t <= j {
      SunkAt(s, t, j);
      hide Sunk;
      assert forall y :: 0 <= y < 28 ==> d[y] == Sunk(s, t, j)[y];
    } else {
      assert forall y :: 0 <= y < 28 ==> d[y] == s[y];
    }
  }

  lemma BottleRises(b: Board, j: nat, x: int)
    requires j < 28 && 0 <= x < 10
    requires Active(b.active, BOTTLE) && !Active(b.active, FORCE) && !Upright(b)
    ensures Column(Removed(b, j, 0, 10), x) ==
      if Inside(x) || j > 18 then Risen(Column(b.cells, x), 27, j)
      else if j >= 9 then Column(b.cells, x)
      else Risen(Column(b.cells, x), 9, j)
  {
    var s, d := Column(b.cells, x), Column(Removed(b, j, 0, 10), x);
    var t := if Inside(x) || j > 18 then 27 else if j >= 9 then -1 else 9;
    if j <= t {
      RisenAt(s, t, j);
      hide Risen;
      assert forall y :: 0 <= y < 28 ==> d[y] == Risen(s, t, j)[y];
    } else {
      assert forall y :: 0 <= y < 28 ==> d[y] == s[y];
    }
  }

  // ----- the whole clear in the bottle -----

  predicate InBottle(b: Board) { Active(b.active, BOTTLE) && !Active(b.active, FORCE) && Upright(b) }

  function Dropped(b: Board, j: nat): Board
    requires j < 28
  { b.(cells := Removed(b, j, 0, 10)) }

  // Rows k down to j + 1, none of them full, with their smiles frowned.
  function FrownDown(b: Board, k: int, j: int): Board
    requires -1 <= j <= k < 28
    decreases k - j
  { if k == j then b else FrownDown(Frowned(b, k), k - 1, j) }

  lemma BelowStays(b: Board, j: nat, y: int)
    requires InBottle(b) && j < y < 28
    ensures Dropped(b, j).cells[y] == b.cells[y]
  { assert forall x :: 0 <= x < 10 ==> Removed(b, j, 0, 10)[y][x] == b.cells[y][x]; }

  lemma FrownThenDrop(b: Board, j: nat, k: nat)
    requires InBottle(b) && j < k < 28
    ensures Frowned(Dropped(b, j), k) == Dropped(Frowned(b, k), j)
  {
    var c, d := Frowned(Dropped(b, j), k).cells, Dropped(Frowned(b, k), j).cells;
    BelowStays(b, j, k);
    BelowStays(Frowned(b, k), j, k);
    forall y | 0 <= y < 28
      ensures c[y] == d[y]
    { if y != k { assert forall x :: 0 <= x < 10 ==> c[y][x] == d[y][x]; } }
  }

  lemma {:induction false} FrownsThenDrop(b: Board, k: nat, j: nat)
    requires InBottle(b) && j <= k < 28
    ensures FrownDown(Dropped(b, j), k, j) == Dropped(FrownDown(b, k, j), j)
    decreases k
  {
    hide Removed, FrownRow, HasSmile, Active;
    if k > j {
      FrownThenDrop(b, j, k);
      FrownsThenDrop(Frowned(b, k), k - 1, j);
    }
  }

  lemma {:induction false} PassDown(b: Board, k: int, j: int, lines: nat, value: int)
    requires -1 <= j <= k < 28 && forall y :: j < y <= k ==> !FullRow(b.cells[y])
    ensures ClearFrom(b, k, lines, value) == ClearFrom(FrownDown(b, k, j), j, lines, value)
    ensures forall y :: 0 <= y <= j ==> FrownDown(b, k, j).cells[y] == b.cells[y]
    ensures FrownDown(b, k, j).active == b.active && FrownDown(b, k, j).computer == b.computer
    decreases k - j
  {
    hide ClearFrom, FullRow, FrownRow, HasSmile, Count;
    if k > j {
      KeepRow(b, k, lines, value);
      PassDown(Frowned(b, k), k - 1, j, lines, value);
    }
  }

  // What is counted so far is only added to.
  lemma {:induction false} CountsOn(b: Board, j: int, lines: nat, value: int, more: nat, worth: int)
    requires -1 <= j < 28 && !Active(b.active, FORCE)
    ensures var c, d := ClearFrom(b, j, lines, value), ClearFrom(b, j, lines + more, value + worth);
      d.b == c.b && d.lines == c.lines + more && d.value == c.value + worth
    decreases Count(b.cells), j + 1
  {
    hide Count, Removed, FullRow, FrownRow, ClearFrom, HasSmile, Active, RowValue;
    if j < 0 {
      NoRows(b, lines, value);
      NoRows(b, lines + more, value + worth);
    } else if FullRow(b.cells[j]) {
      ClearRow(b, j, lines, value);
      ClearRow(b, j, lines + more, value + worth);
      CountsOn(Dropped(b, j), j, lines + 1, value + RowValue(b.cells[j]), more, worth);
      assert value + RowValue(b.cells[j]) + worth == value + worth + RowValue(b.cells[j]);
    } else {
      KeepRow(b, j, lines, value);
      KeepRow(b, j, lines + more, value + worth);
      CountsOn(Frowned(b, j), j - 1, lines, value, more, worth);
    }
  }

  lemma OneLineFirst(b: Board, j: nat)
    requires InBottle(b) && j < 28 && FullRow(b.cells[j]) && forall y :: j < y < 28 ==> !FullRow(b.cells[y])
    ensures var c, d := ClearFrom(b, 27, 0, 0), ClearFrom(Dropped(b, j), 27, 0, 0);
      c.b == d.b && c.lines == d.lines + 1 && c.value == d.value + RowValue(b.cells[j])
  {
    hide ClearFrom, Removed, FullRow, FrownRow, HasSmile, RowValue, Count, FrownDown, Active;
    var f := FrownDown(b, 27, j);
    PassDown(b, 27, j, 0, 0);
    ClearRow(f, j, 0, 0);
    FrownsThenDrop(b, 27, j);
    forall y | j < y < 28
      ensures !FullRow(Dropped(b, j).cells[y])
    { BelowStays(b, j, y); }
    PassDown(Dropped(b, j), 27, j, 0, 0);
    CountsOn(FrownDown(Dropped(b, j), 27, j), j, 0, 0, 1, RowValue(b.cells[j]));
  }

  lemma {:induction false} NoneStaysFull(b: Board, j: int, lines: nat, value: int)
    requires -1 <= j < 28 && InBottle(b) && forall y :: j < y < 28 ==> !FullRow(b.cells[y])
    ensures forall y :: 0 <= y < 28 ==> !FullRow(ClearFrom(b, j, lines, value).b.cells[y])
    decreases Count(b.cells), j + 1
  {
    hide Count, Removed, FullRow, FrownRow, ClearFrom, HasSmile, Active, RowValue;
    if j < 0 {
      NoRows(b, lines, value);
    } else if FullRow(b.cells[j]) {
      ClearRow(b, j, lines, value);
      forall y | j < y < 28
        ensures !FullRow(Dropped(b, j).cells[y])
      { BelowStays(b, j, y); }
      NoneStaysFull(Dropped(b, j), j, lines + 1, value + RowValue(b.cells[j]));
    } else {
      KeepRow(b, j, lines, value);
      FrownFacts(b.cells[j]);
      NoneStaysFull(Frowned(b, j), j - 1, lines, value);
    }
  }

  // The board after one full row has gone from an upright bottle, column by column: between the
  // walls and above the neck everything sinks, beside the neck nothing does, below it the sides
  // sink from row 18.
  predicate OneGone(b: Board, j: nat, d: Board)
    requires j < 28
  {
    && d == b.(cells := d.cells)
    && forall x :: 0 <= x < 10 ==> Column(d.cells, x) == Sinks(b, j, x)
  }

  function Sinks(b: Board, j: nat, x: int): seq<Square>
    requires j < 28 && 0 <= x < 10
  {
    if Inside(x) || j < 10 then Sunk(Column(b.cells, x), 0, j)
    else if j <= 18 then Column(b.cells, x)
    else Sunk(Column(b.cells, x), 18, j)
  }

  lemma {:induction false} NoLinesNoValue(b: Board, j: int, lines: nat, value: int)
    requires -1 <= j < 28 && !Active(b.active, FORCE)
    ensures ClearFrom(b, j, lines, value).lines == lines ==> ClearFrom(b, j, lines, value).value == value
    decreases Count(b.cells), j + 1
  {
    hide Count, Removed, FullRow, FrownRow, ClearFrom, HasSmile, Active, RowValue;
    if j < 0 {
      NoRows(b, lines, value);
    } else if FullRow(b.cells[j]) {
      ClearRow(b, j, lines, value);
    } else {
      KeepRow(b, j, lines, value);
      NoLinesNoValue(Frowned(b, j), j - 1, lines, value);
    }
  }

  lemma {:induction false} FrownedRows(b: Board, k: int, j: int)
    requires -1 <= j <= k < 28
    ensures var d := FrownDown(b, k, j);
      forall y :: 0 <= y < 28 ==> d.cells[y] == if j < y <= k then FrownRow(b.cells[y]) else b.cells[y]
    decreases k - j
  {
    hide FrownRow, HasSmile;
    if k > j { FrownedRows(Frowned(b, k), k - 1, j); }
  }

  /** With no full row, clearing only turns smiles to frowns, in the bottle or out of it. */
  lemma NoLineNoChange(b: Board)
    requires forall y :: 0 <= y < 28 ==> !FullRow(b.cells[y])
    ensures CheckLines(b).1 == NO_CLEAR
    ensures forall y :: 0 <= y < 28 ==> CheckLines(b).0.cells[y] == FrownRow(b.cells[y])
  {
    hide ClearFrom, FullRow, FrownRow, NearDeath, FrownDown;
    PassDown(b, 27, -1, 0, 0);
    FrownedRows(b, 27, -1);
    NoRows(FrownDown(b, 27, -1), 0, 0);
  }

  lemma SameColumns(c: Grid, d: Grid)
    requires forall x :: 0 <= x < 10 ==> Column(c, x) == Column(d, x)
    ensures c == d
  {
    forall y | 0 <= y < 28
      ensures c[y] == d[y]
    { assert forall x :: 0 <= x < 10 ==> c[y][x] == Column(c, x)[y] && d[y][x] == Column(d, x)[y]; }
  }

  /** Lines in an upright bottle go one by one, the lowest first: clearing a board is clearing the
      one that is left when its lowest full row has gone, with one line more and that row's value.
      At the end no row is full. */
  lemma BottleClears(b: Board, j: nat, d: Board)
    requires InBottle(b) && j < 28 && FullRow(b.cells[j]) && forall y :: j < y < 28 ==> !FullRow(b.cells[y])
    requires OneGone(b, j, d)
    ensures var (b', clear) := CheckLines(b);
      var (d', rest) := CheckLines(d);
      && b'.cells == d'.cells && clear.lines == 1 + rest.lines && clear.value == RowValue(b.cells[j]) + rest.value
      && (forall y :: 0 <= y < 28 ==> !FullRow(b'.cells[y]))
  {
    forall x | 0 <= x < 10
      ensures Column(d.cells, x) == Column(Removed(b, j, 0, 10), x)
    { BottleDrops(b, j, x); }
    SameColumns(d.cells, Removed(b, j, 0, 10));
    OneLineFirst(b, j);
    NoneStaysFull(b, 27, 0, 0);
    NoLinesNoValue(d, 27, 0, 0);
    hide ClearFrom, Removed, FullRow, RowValue, Sunk, NearDeath;
  }
}
