/** Clearing lines is a row filter: without Force and Bottle, the rows that are not full stay,
    in order, packed to the end the board falls to. */
module LineLaws {
  import opened Weapons
  import opened Boards

  // ----- the reference: filter, then pack -----

  // The rows that are not full, in order, their un-landed smileys frowning.
  function Survivors(rows: seq<Row>): (r: seq<Row>)
    ensures |r| + FullCount(rows) == |rows|
    decreases |rows|
  {
    if rows == [] then []
    else
      var rest, last := Survivors(rows[..|rows| - 1]), rows[|rows| - 1];
      if FullRow(last) then rest else rest + [FrownRow(last)]
  }

  function FullCount(rows: seq<Row>): nat
    decreases |rows|
  { if rows == [] then 0 else FullCount(rows[..|rows| - 1]) + if FullRow(rows[|rows| - 1]) then 1 else 0 }

  // What a row pays: nothing unless it is full.
  function RowValue(r: Row): int { if FullRow(r) then ValueUpTo(r, 10) else 0 }

  // The values of all cells of the full rows.
  function FullValue(rows: seq<Row>): int
    decreases |rows|
  {
    if rows == [] then 0
    else FullValue(rows[..|rows| - 1]) + RowValue(rows[|rows| - 1])
  }

  function Empties(n: nat): (r: seq<Row>)
    ensures |r| == n && forall k :: 0 <= k < n ==> r[k] == EMPTY_ROW
  { seq(n, _ => EMPTY_ROW) }

  function PackedDown(rows: seq<Row>): (r: seq<Row>)
    ensures |r| == |rows|
  { Empties(FullCount(rows)) + Survivors(rows) }

  function PackedUp(rows: seq<Row>): (r: seq<Row>)
    ensures |r| == |rows|
  { Survivors(rows) + Empties(FullCount(rows)) }

  // ----- small facts -----

  lemma FrownFacts(r: Row)
    ensures FullRow(FrownRow(r)) <==> FullRow(r)
    ensures FrownRow(FrownRow(r)) == FrownRow(r)
    ensures FrownRow(EMPTY_ROW) == EMPTY_ROW && !FullRow(EMPTY_ROW)
  {
    assert forall x :: 0 <= x < 10 ==> (FrownRow(r)[x].Some? <==> r[x].Some?);
    assert !EMPTY_ROW[0].Some?;
  }

  lemma Snoc(rows: seq<Row>, r: Row)
    ensures Survivors(rows + [r]) == if FullRow(r) then Survivors(rows) else Survivors(rows) + [FrownRow(r)]
    ensures FullCount(rows + [r]) == FullCount(rows) + if FullRow(r) then 1 else 0
    ensures FullValue(rows + [r]) == FullValue(rows) + RowValue(r)
  { assert (rows + [r])[..|rows + [r]| - 1] == rows; }

  // An empty row in front stays in front.
  lemma {:induction false} EmptyFirst(rows: seq<Row>)
    ensures Survivors([EMPTY_ROW] + rows) == [EMPTY_ROW] + Survivors(rows)
    ensures FullCount([EMPTY_ROW] + rows) == FullCount(rows) && FullValue([EMPTY_ROW] + rows) == FullValue(rows)
    decreases |rows|
  {
    FrownFacts(EMPTY_ROW);
    if rows == [] {
      assert [EMPTY_ROW] + rows == [] + [EMPTY_ROW];
      Snoc([], EMPTY_ROW);
    } else {
      var init, r := rows[..|rows| - 1], rows[|rows| - 1];
      assert rows == init + [r];
      assert [EMPTY_ROW] + rows == ([EMPTY_ROW] + init) + [r];
      EmptyFirst(init);
      Snoc([EMPTY_ROW] + init, r);
      Snoc(init, r);
    }
  }

  // ----- removing one full row -----

  lemma RemovedUpright(b: Board, j: nat)
    requires j < 28 && !Active(b.active, FORCE) && !Active(b.active, BOTTLE) && Upright(b)
    ensures Removed(b, j, 0, 10) == [EMPTY_ROW] + b.cells[..j] + b.cells[j + 1..]
  {
    var d, e := Removed(b, j, 0, 10), [EMPTY_ROW] + b.cells[..j] + b.cells[j + 1..];
    forall y | 0 <= y < 28
      ensures d[y] == e[y]
    { assert forall x :: 0 <= x < 10 ==> d[y][x] == e[y][x]; }
  }

  lemma RemovedFlipped(b: Board, j: nat)
    requires j < 28 && !Active(b.active, FORCE) && !Active(b.active, BOTTLE) && !Upright(b)
    ensures Removed(b, j, 0, 10) == b.cells[..j] + b.cells[j + 1..] + [EMPTY_ROW]
  {
    var d, e := Removed(b, j, 0, 10), b.cells[..j] + b.cells[j + 1..] + [EMPTY_ROW];
    forall y | 0 <= y < 28
      ensures d[y] == e[y]
    { assert forall x :: 0 <= x < 10 ==> d[y][x] == e[y][x]; }
  }

  // ----- the pass from row j up -----

  // The two kinds of step of the pass.
  lemma ClearRow(b: Board, j: nat, lines: nat, value: int)
    requires j < 28 && !Active(b.active, FORCE) && FullRow(b.cells[j])
    ensures var b' := b.(cells := Removed(b, j, 0, 10));
      && ClearFrom(b, j, lines, value) == ClearFrom(b', j, lines + 1, value + RowValue(b.cells[j]))
      && Count(b'.cells) < Count(b.cells)
  {
    SumAfterRemoval(b, j, 10);
    hide Removed, CountUpTo, ValueUpTo;
  }

  lemma NotFullPaysNothing(r: Row)
    ensures !FullRow(r) ==> RowValue(r) == 0
  {}

  lemma KeepRow(b: Board, j: nat, lines: nat, value: int)
    requires j < 28 && !FullRow(b.cells[j])
    ensures ClearFrom(b, j, lines, value) == ClearFrom(Frowned(b, j), j - 1, lines, value)
    ensures Count(Frowned(b, j).cells) == Count(b.cells)
  {
    CountFrowned(b, j);
    hide Count, FrownRow, Removed;
  }

  lemma NoRows(b: Board, lines: nat, value: int)
    ensures ClearFrom(b, -1, lines, value) == Cleared(b, lines, value)
  {}

  // Packing with one more row at the end.
  lemma PackSnoc(above: seq<Row>, r: Row)
    ensures FullRow(r) ==> PackedDown(above + [r]) == PackedDown([EMPTY_ROW] + above)
    ensures !FullRow(r) ==> PackedDown(above + [r]) == PackedDown(above) + [FrownRow(r)]
  {
    Snoc(above, r);
    EmptyFirst(above);
    hide FullRow, FrownRow, Survivors, FullCount;
    assert Empties(FullCount(above)) + ([EMPTY_ROW] + Survivors(above)) == Empties(FullCount(above) + 1) + Survivors(above);
  }

  // What the pass from row j makes of an upright board.
  function LeftDown(b: Board, j: int): seq<Row>
    requires -1 <= j < 28
  { PackedDown(b.cells[..j + 1]) + b.cells[j + 1..] }

  lemma DownFull(b: Board, j: nat)
    requires j < 28 && !Active(b.active, FORCE) && !Active(b.active, BOTTLE) && Upright(b) && FullRow(b.cells[j])
    ensures var b' := b.(cells := Removed(b, j, 0, 10));
      && LeftDown(b', j) == LeftDown(b, j)
      && FullCount(b.cells[..j + 1]) == FullCount(b'.cells[..j + 1]) + 1
      && FullValue(b.cells[..j + 1]) == FullValue(b'.cells[..j + 1]) + RowValue(b.cells[j])
  {
    hide Survivors, FullCount, FullValue, FrownRow, RowValue, Removed, FullRow, PackedDown, Active;
    var above := b.cells[..j];
    assert b.cells[..j + 1] == above + [b.cells[j]];
    Snoc(above, b.cells[j]);
    PackSnoc(above, b.cells[j]);
    RemovedUpright(b, j);
    EmptyFirst(above);
    var d := Removed(b, j, 0, 10);
    assert d[..j + 1] == [EMPTY_ROW] + above && d[j + 1..] == b.cells[j + 1..];
  }

  lemma DownKept(b: Board, j: nat)
    requires j < 28 && !FullRow(b.cells[j])
    ensures var b' := Frowned(b, j);
      && LeftDown(b', j - 1) == LeftDown(b, j)
      && FullCount(b.cells[..j + 1]) == FullCount(b'.cells[..j])
      && FullValue(b.cells[..j + 1]) == FullValue(b'.cells[..j])
  {
    hide Survivors, FullCount, FullValue, FrownRow, RowValue, FullRow, PackedDown;
    var above, r := b.cells[..j], b.cells[j];
    assert b.cells[..j + 1] == above + [r];
    Snoc(above, r);
    PackSnoc(above, r);
    NotFullPaysNothing(r);
    var d := Frowned(b, j).cells;
    assert d[..j] == above && d[j..] == [FrownRow(r)] + b.cells[j + 1..];
  }

  lemma {:induction false} ClearsDown(b: Board, j: int, lines: nat, value: int)
    requires -1 <= j < 28 && !Active(b.active, FORCE) && !Active(b.active, BOTTLE) && Upright(b)
    ensures var c, todo := ClearFrom(b, j, lines, value), b.cells[..j + 1];
      && c.b.cells == LeftDown(b, j)
      && c.lines == lines + FullCount(todo) && c.value == value + FullValue(todo)
    decreases Count(b.cells), j + 1
  {
    hide Count, FullCount, FullValue, FrownRow, RowValue, Removed, ClearFrom, FullRow, LeftDown, Active;
    if j < 0 {
      NoRows(b, lines, value);
      NothingLeftDown(b);
    } else if FullRow(b.cells[j]) {
      ClearRow(b, j, lines, value);
      DownFull(b, j);
      ClearsDown(b.(cells := Removed(b, j, 0, 10)), j, lines + 1, value + RowValue(b.cells[j]));
    } else {
      KeepRow(b, j, lines, value);
      DownKept(b, j);
      ClearsDown(Frowned(b, j), j - 1, lines, value);
    }
  }

  lemma NothingLeftDown(b: Board)
    ensures LeftDown(b, -1) == b.cells && FullCount(b.cells[..0]) == 0 && FullValue(b.cells[..0]) == 0
  {
    assert b.cells[..0] == [] && b.cells[0..] == b.cells;
    PackNothing();
  }

  lemma PackNothing()
    ensures PackedDown([]) == [] && Survivors([]) == [] && FullCount([]) == 0 && FullValue([]) == 0
  {}

  lemma {:induction false} SameCount(c: Grid, d: Grid, k: nat)
    requires k <= 10 && forall x, y :: InBounds(x, y) ==> (d[y][x].Some? <==> c[y][x].Some?)
    ensures CountUpTo(d, k) == CountUpTo(c, k)
  { SumKept(c, d, k); SumKept(d, c, k); }

  lemma CountFrowned(b: Board, j: nat)
    requires j < 28
    ensures Count(Frowned(b, j).cells) == Count(b.cells)
  {
    hide CountUpTo;
    assert forall x :: 0 <= x < 10 ==> (FrownRow(b.cells[j])[x].Some? <==> b.cells[j][x].Some?);
    SameCount(b.cells, Frowned(b, j).cells, 10);
  }

  // Rows behind the cursor that are done with.
  predicate Done(rows: seq<Row>) { forall k :: 0 <= k < |rows| ==> !FullRow(rows[k]) && FrownRow(rows[k]) == rows[k] }

  // What the pass from row j makes of a flipped board.
  function LeftUp(b: Board, j: int): seq<Row>
    requires -1 <= j < 28
  { Survivors(b.cells[..j + 1]) + b.cells[j + 1..] + Empties(FullCount(b.cells[..j + 1])) }

  lemma UpFull(b: Board, j: nat)
    requires j < 28 && !Active(b.active, FORCE) && !Active(b.active, BOTTLE) && !Upright(b)
    requires Done(b.cells[j + 1..]) && FullRow(b.cells[j])
    ensures var b' := b.(cells := Removed(b, j, 0, 10));
      && LeftUp(b', j) == LeftUp(b, j) && Done(b'.cells[j + 1..])
      && FullCount(b.cells[..j + 1]) == FullCount(b'.cells[..j + 1]) + 1
      && FullValue(b.cells[..j + 1]) == FullValue(b'.cells[..j + 1]) + RowValue(b.cells[j])
  {
    hide Survivors, FullCount, FullValue, FrownRow, RowValue, Removed, FullRow, Active, Done, Empties;
    var above, moved := b.cells[..j], b.cells[j + 1..] + [EMPTY_ROW];
    assert b.cells[..j + 1] == above + [b.cells[j]];
    Snoc(above, b.cells[j]);
    MovedUp(b, j);
    Snoc(above, moved[0]);
    NotFullPaysNothing(moved[0]);
    OneMoreEmpty(Survivors(above), b.cells[j + 1..], FullCount(above));
  }

  lemma UpKept(b: Board, j: nat)
    requires j < 28 && Done(b.cells[j + 1..]) && !FullRow(b.cells[j])
    ensures var b' := Frowned(b, j);
      && LeftUp(b', j - 1) == LeftUp(b, j) && Done(b'.cells[j..])
      && FullCount(b.cells[..j + 1]) == FullCount(b'.cells[..j])
      && FullValue(b.cells[..j + 1]) == FullValue(b'.cells[..j])
  {
    hide Survivors, FullCount, FullValue, FrownRow, RowValue, FullRow, Done, Empties;
    var above, r, done := b.cells[..j], b.cells[j], b.cells[j + 1..];
    assert b.cells[..j + 1] == above + [r];
    Snoc(above, r);
    NotFullPaysNothing(r);
    KeptInPlace(b, j);
    assert Survivors(above) + ([FrownRow(r)] + done) == (Survivors(above) + [FrownRow(r)]) + done;
  }

  lemma {:induction false} ClearsUp(b: Board, j: int, lines: nat, value: int)
    requires -1 <= j < 28 && !Active(b.active, FORCE) && !Active(b.active, BOTTLE) && !Upright(b)
    requires Done(b.cells[j + 1..])
    ensures var c, todo := ClearFrom(b, j, lines, value), b.cells[..j + 1];
      && c.b.cells == LeftUp(b, j)
      && c.lines == lines + FullCount(todo) && c.value == value + FullValue(todo)
    decreases Count(b.cells), j + 1
  {
    hide Count, FullCount, FullValue, RowValue, Removed, ClearFrom, FullRow, Active, Done, LeftUp, FrownRow;
    if j < 0 {
      NoRows(b, lines, value);
      NothingLeftUp(b);
    } else if FullRow(b.cells[j]) {
      ClearRow(b, j, lines, value);
      UpFull(b, j);
      ClearsUp(b.(cells := Removed(b, j, 0, 10)), j, lines + 1, value + RowValue(b.cells[j]));
    } else {
      KeepRow(b, j, lines, value);
      UpKept(b, j);
      ClearsUp(Frowned(b, j), j - 1, lines, value);
    }
  }

  lemma NothingLeftUp(b: Board)
    ensures LeftUp(b, -1) == b.cells && FullCount(b.cells[..0]) == 0 && FullValue(b.cells[..0]) == 0
  {
    assert b.cells[..0] == [] && b.cells[0..] == b.cells;
    PackNothing();
  }

  lemma KeptInPlace(b: Board, j: nat)
    requires j < 28 && !FullRow(b.cells[j]) && Done(b.cells[j + 1..])
    ensures var d := Frowned(b, j).cells;
      d[..j] == b.cells[..j] && d[j..] == [FrownRow(b.cells[j])] + b.cells[j + 1..] && Done(d[j..])
  {
    FrownFacts(b.cells[j]);
    hide FrownRow, FullRow;
  }

  // The rows behind the cursor move up into its row, an empty one behind them.
  lemma MovedUp(b: Board, j: nat)
    requires j < 28 && !Active(b.active, FORCE) && !Active(b.active, BOTTLE) && !Upright(b)
    requires Done(b.cells[j + 1..])
    ensures var d, moved := Removed(b, j, 0, 10), b.cells[j + 1..] + [EMPTY_ROW];
      && d[j + 1..] == moved[1..] && d[..j + 1] == b.cells[..j] + [moved[0]]
      && Done(moved) && Done(moved[1..]) && !FullRow(moved[0]) && FrownRow(moved[0]) == moved[0]
  {
    FrownFacts(EMPTY_ROW);
    RemovedFlipped(b, j);
    hide Removed, FullRow, FrownRow, Active, Upright;
    var moved := b.cells[j + 1..] + [EMPTY_ROW];
    assert Removed(b, j, 0, 10) == b.cells[..j] + moved;
  }

  lemma OneMoreEmpty(s: seq<Row>, done: seq<Row>, n: nat)
    ensures var moved := done + [EMPTY_ROW];
      s + [moved[0]] + moved[1..] + Empties(n) == s + done + Empties(n + 1)
  {}

  // ----- what is left -----

  lemma {:induction false} SurvivorsNotFull(rows: seq<Row>, k: nat)
    requires k < |Survivors(rows)|
    ensures !FullRow(Survivors(rows)[k])
    decreases |rows|
  {
    hide FullRow, FrownRow;
    var init, r := rows[..|rows| - 1], rows[|rows| - 1];
    if k < |Survivors(init)| { SurvivorsNotFull(init, k); } else { FrownFacts(r); }
  }

  lemma {:induction false} TenPerLine(b: Board, j: int, lines: nat, value: int)
    requires -1 <= j < 28 && !Active(b.active, FORCE) && !Active(b.active, BOTTLE)
    ensures var c := ClearFrom(b, j, lines, value); Count(c.b.cells) + 10 * (c.lines - lines) == Count(b.cells)
    decreases Count(b.cells), j + 1
  {
    if j >= 0 {
      if FullRow(b.cells[j]) {
        SumAfterRemoval(b, j, 10);
        hide Removed, CountUpTo, ValueUpTo;
        TenPerLine(b.(cells := Removed(b, j, 0, 10)), j, lines + 1, value + ValueUpTo(b.cells[j], 10));
      } else {
        CountFrowned(b, j);
        hide CountUpTo, FrownRow;
        TenPerLine(Frowned(b, j), j - 1, lines, value);
      }
    }
  }

  /** With neither Force nor Bottle, clearing keeps exactly the rows that are not full, in
      order, packed to the floor (to the ceiling on a flipped human board). It counts the
      full rows, sums the values of their cells, pays the sum once per line, empties ten
      squares per line and leaves no full row. */
  lemma CheckLinesFilters(b: Board)
    requires !Active(b.active, FORCE) && !Active(b.active, BOTTLE)
    ensures var (b', clear) := CheckLines(b);
      && b'.cells == (if Upright(b) then PackedDown(b.cells) else PackedUp(b.cells))
      && clear.lines == FullCount(b.cells)
      && (clear.lines > 0 ==> clear.value == FullValue(b.cells) && clear.funds == clear.value * clear.lines)
      && Count(b'.cells) + 10 * clear.lines == Count(b.cells)
      && (forall y :: 0 <= y < 28 ==> !FullRow(b'.cells[y]))
  {
    hide ClearFrom, Survivors, FullCount, FullValue, Count, FullRow, NearDeath, Active, Upright;
    PassFilters(b);
    TenPerLine(b, 27, 0, 0);
    NoneFull(b.cells);
  }

  lemma PassFilters(b: Board)
    requires !Active(b.active, FORCE) && !Active(b.active, BOTTLE)
    ensures var c := ClearFrom(b, 27, 0, 0);
      && c.b.cells == (if Upright(b) then PackedDown(b.cells) else PackedUp(b.cells))
      && c.lines == FullCount(b.cells) && c.value == FullValue(b.cells)
  {
    hide ClearFrom, Survivors, FullCount, FullValue, Active, Upright;
    assert b.cells[..27 + 1] == b.cells && b.cells[27 + 1..] == [];
    if Upright(b) { ClearsDown(b, 27, 0, 0); } else { ClearsUp(b, 27, 0, 0); }
  }

  lemma NoneFull(rows: seq<Row>)
    ensures forall y :: 0 <= y < |rows| ==> !FullRow(PackedDown(rows)[y]) && !FullRow(PackedUp(rows)[y])
  {
    FrownFacts(EMPTY_ROW);
    forall k: nat | k < |Survivors(rows)|
      ensures !FullRow(Survivors(rows)[k])
    { SurvivorsNotFull(rows, k); }
    hide Survivors, FullCount, FullRow;
  }
}
