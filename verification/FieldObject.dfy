/** The playfield as the object the game carries (rust/bt-core/src/board.rs): the cell rows are
    shifted and overwritten by nested index loops. */
module FieldObject {
  import opened Wrappers
  import opened Cells
  import opened Weapons
  import opened Rng
  import opened Boards
  import opened Pieces

  class PlayField {
    var cells: Grid
    var active: Flags
    var upside: bool
    var computer: bool
    var idiot: bool
    var reason: int
    var newFill: seq<(int, int)>    // squares filled by the placement under way

    function Value(): Board
      reads this
    { Board(cells, active, upside, computer, idiot, reason) }

    constructor (isComputer: bool)
      ensures Value() == NewBoard(isComputer) && newFill == []
    {
      cells, active, newFill := EmptyGrid(), NoFlags(), [];
      upside, computer, idiot, reason := false, isComputer, false, 0;
    }

    // The whole playfield overwritten, as a keyframe does it.
    method Load(b: Board)
      modifies this
      ensures Value() == b && newFill == old(newFill)
    {
      cells, active, upside, computer := b.cells, b.active, b.upside, b.computer;
      idiot, reason := b.idiot, b.reason;
    }

    // Writes outside the board are ignored.
    method Set(x: int, y: int, s: Square)
      modifies this`cells
      ensures cells == Put(old(cells), x, y, s)
    { if InBounds(x, y) { cells := cells[y := cells[y][x := s]]; } }

    // Row `from` moves into row `to` over columns [x1, x2), which it leaves empty.
    method ShiftRow(to: int, from: int, x1: int, x2: int)
      requires 0 <= to < 28 && 0 <= from < 28 && to != from && 0 <= x1 <= x2 <= 10
      modifies this`cells
      ensures forall x, y :: InBounds(x, y) ==>
        cells[y][x] == if x1 <= x < x2 && y == to then old(cells)[from][x]
                       else if x1 <= x < x2 && y == from then None else old(cells)[y][x]
    {
      var j := x1;
      while j < x2
        invariant x1 <= j <= x2
        invariant forall x, y :: InBounds(x, y) ==>
          cells[y][x] == if x1 <= x < j && y == to then old(cells)[from][x]
                         else if x1 <= x < j && y == from then None else old(cells)[y][x]
      {
        var moved := At(cells, j, from);
        Set(j, to, moved);
        Set(j, from, None);
        j := j + 1;
      }
    }

    // One row emptied over columns [x1, x2).
    method ClearRow(row: int, x1: int, x2: int)
      requires 0 <= row < 28 && 0 <= x1 <= x2 <= 10
      modifies this`cells
      ensures forall x, y :: InBounds(x, y) ==>
        cells[y][x] == if x1 <= x < x2 && y == row then None else old(cells)[y][x]
    {
      var j := x1;
      while j < x2
        invariant x1 <= j <= x2
        invariant forall x, y :: InBounds(x, y) ==>
          cells[y][x] == if x1 <= x < j && y == row then None else old(cells)[y][x]
      {
        Set(j, row, None);
        j := j + 1;
      }
    }
  
    // Drop the board into `line` over columns [x1, x2): nothing moves under Force, the
    // outer columns stop at the bottle's shoulder, and a flipped human board moves up.
    method RemoveLine(line: int, x1: int, x2: int)
      requires 0 <= line < 28 && ((x1 == 0 && x2 == 10) || (x1 == 2 && x2 == 8))
      modifies this`cells
      ensures cells == Removed(old(Value()), line, x1, x2)
    {
      ghost var b := Value();
      var force, bottle := Active(active, FORCE), Active(active, BOTTLE);
      if force {
        RemoveUnderForce(line, x1, x2, bottle);
      } else if Upright(Value()) {
        DropInto(line, x1, x2, bottle);
      } else {
        RiseInto(line, x1, x2, bottle);
      }
      SameGrid(cells, Removed(b, line, x1, x2)) by {
        assert forall x, y :: InBounds(x, y) ==> cells[y][x] == Removed(b, line, x1, x2)[y][x];
      }
    }

    method RemoveUnderForce(line: int, x1: int, x2: int, bottle: bool)
      requires 0 <= line < 28 && 0 <= x1 <= 3 && 7 <= x2 <= 10
      modifies this`cells
      ensures forall x, y :: InBounds(x, y) ==>
        cells[y][x] == RemovedAt(old(cells), x, y, line, x1, x2, true, bottle, Upright(old(Value())))
    {
      if Upright(Value()) {
        if line > 0 {
          if bottle && 10 <= line <= 18 { ClearRow(line, 3, 7); } else { ClearRow(line, x1, x2); }
        }
      } else if line < 27 {
        if bottle && 9 <= line <= 18 { ClearRow(line, 3, 7); } else { ClearRow(line, x1, x2); }
      }
    }

    method DropInto(line: int, first: int, last: int, bottle: bool)
      requires 0 <= line < 28 && 0 <= first <= 3 && 7 <= last <= 10
      modifies this`cells
      ensures forall x, y :: InBounds(x, y) ==>
        cells[y][x] == RemovedAt(old(cells), x, y, line, first, last, false, bottle, true)
    {
      ghost var c := cells;
      var x1, x2 := first, last;
      var i := line;
      while i > 0
        invariant 0 <= i <= line
        invariant if bottle && line >= 10 && i < 18 && i < line then x1 == 3 && x2 == 7 else x1 == first && x2 == last
        invariant forall x, y :: InBounds(x, y) ==> cells[y][x] == DroppedAt(c, x, y, line, first, last, bottle, i)
      {
        ghost var mid := cells;
        if bottle && 10 <= i <= 18 { x1, x2 := 3, 7; }
        ShiftRow(i, i - 1, x1, x2);
        forall x, y | InBounds(x, y)
          ensures cells[y][x] == DroppedAt(c, x, y, line, first, last, bottle, i - 1)
        { assert mid[i - 1][x] == DroppedAt(c, x, i - 1, line, first, last, bottle, i); }
        i := i - 1;
      }
      ClearRow(0, x1, x2);
    }

    method RiseInto(line: int, first: int, last: int, bottle: bool)
      requires 0 <= line < 28 && 0 <= first <= 3 && 7 <= last <= 10
      modifies this`cells
      ensures forall x, y :: InBounds(x, y) ==>
        cells[y][x] == RemovedAt(old(cells), x, y, line, first, last, false, bottle, false)
    {
      ghost var c := cells;
      var x1, x2 := first, last;
      var i := line;
      while i < 27
        invariant line <= i <= 27
        invariant if bottle && line <= 18 && i > 9 && i > line then x1 == 3 && x2 == 7 else x1 == first && x2 == last
        invariant forall x, y :: InBounds(x, y) ==> cells[y][x] == RisenAt(c, x, y, line, first, last, bottle, i)
      {
        ghost var mid := cells;
        if bottle && 9 <= i <= 18 { x1, x2 := 3, 7; }
        ShiftRow(i, i + 1, x1, x2);
        forall x, y | InBounds(x, y)
          ensures cells[y][x] == RisenAt(c, x, y, line, first, last, bottle, i + 1)
        { assert mid[i + 1][x] == RisenAt(c, x, i + 1, line, first, last, bottle, i); }
        i := i + 1;
      }
      ClearRow(27, x1, x2);
    }

    // ----- clearing lines -----

    // Whether every row from 7 to the floor holds something, scanning up from the floor.
    method GaugeHeight() returns (high: bool)
      ensures high == NearDeath(cells)
    {
      var min, j := 27, 27;
      while j > 0
        invariant 0 <= j <= 27 && min == (if j == 27 then 27 else j + 1)
        invariant forall k :: j < k < 28 ==> !EmptyRow(cells[k])
      {
        var i := 0;
        while i < 10 && cells[j][i].None?
          invariant 0 <= i <= 10 && forall k :: 0 <= k < i ==> cells[j][k].None?
        { i := i + 1; }
        if i == 10 { break; }
        min := j;
        j := j - 1;
      }
      high := min < 8;
    }

    // The cells of row j from the left, up to the first gap.
    method ScanRow(j: int) returns (i: int, nvalue: int)
      requires 0 <= j < 28
      ensures (i == 10) == FullRow(cells[j])
      ensures i == 10 ==> nvalue == ValueUpTo(cells[j], 10)
    {
      i, nvalue := 0, 0;
      while i < 10 && cells[j][i].Some?
        invariant 0 <= i <= 10 && forall k :: 0 <= k < i ==> cells[j][k].Some?
        invariant nvalue == ValueUpTo(cells[j], i)
      {
        nvalue := nvalue + cells[j][i].value.Value();
        i := i + 1;
      }
    }

    // A row that is no line frowns its smileys.
    method FrownAlong(j: int)
      requires 0 <= j < 28
      modifies this`cells, this`idiot, this`reason
      ensures Value() == Frowned(old(Value()), j)
    {
      ghost var b := Value();
      var x := 0;
      while x < 10
        invariant 0 <= x <= 10
        invariant cells == b.cells[j := cells[j]]
        invariant forall k :: 0 <= k < 10 ==> cells[j][k] == if k < x then FrownAt(b.cells[j][k]) else b.cells[j][k]
        invariant idiot == (b.idiot || exists k :: 0 <= k < x && WorthASmile(b.cells[j][k]))
        invariant reason == if exists k :: 0 <= k < x && WorthASmile(b.cells[j][k]) then MISSED_SMILEY else b.reason
      {
        if WorthASmile(cells[j][x]) {
          Set(x, j, Some(cells[j][x].value.Landed()));
          idiot, reason := true, MISSED_SMILEY;
        }
        x := x + 1;
      }
      assert cells[j] == FrownRow(b.cells[j]);
    }

    method ClearLines() returns (clear: LineClear)
      modifies this`cells, this`idiot, this`reason
      ensures (Value(), clear) == CheckLines(old(Value()))
    {
      hide Removed, FrownRow, Count, ValueUpTo, NearDeath, ClearFrom, FullRow;
      ghost var b := Value();
      var high := GaugeHeight();
      var force := Active(active, FORCE);
      var value, lines, j := 0, 0, 27;
      while j >= 0
        invariant -1 <= j <= 27 && lines >= 0 && active == b.active
        invariant ClearFrom(Value(), j, lines, value) == ClearFrom(b, 27, 0, 0)
        decreases Count(cells), j + 1
      {
        var i, nvalue := ScanRow(j);
        ghost var c := Value();
        if i == 10 {
          PassClears(c, j, lines, value);
          lines, value := lines + 1, value + nvalue;
          RemoveLine(j, 0, 10);
          if !force { j := j + 1; }
        } else {
          PassKeeps(c, j, lines, value);
          FrownAlong(j);
        }
        j := j - 1;
      }
      PassEnds(Value(), lines, value);
      if high { idiot, reason := true, NEAR_DEATH; }
      if lines == 0 { return NO_CLEAR; }
      idiot := false;
      clear := LineClear(lines, value, value * lines);
    }

    method FlushIdiotFlag() returns (why: Option<int>)
      modifies this`idiot
      ensures (Value(), why) == FlushIdiot(old(Value()))
    {
      why := if idiot then Some(reason) else None;
      idiot := false;
    }

    method SetActive(t: WeaponToken, on: bool)
      modifies this`active
      ensures active == SetFlag(old(active), t, on)
    { active := active[t := if on then 1 else 0]; }

    // ----- flips -----

    method Swap(x1: int, y1: int, x2: int, y2: int)
      requires InBounds(x1, y1) && InBounds(x2, y2)
      modifies this`cells
      ensures forall x, y :: InBounds(x, y) ==>
        cells[y][x] == if x == x2 && y == y2 then old(cells)[y1][x1]
                       else if x == x1 && y == y1 then old(cells)[y2][x2] else old(cells)[y][x]
    {
      var a, b := At(cells, x1, y1), At(cells, x2, y2);
      Set(x1, y1, b);
      Set(x2, y2, a);
    }

    // Top and bottom change places.
    method MirrorHoriz()
      modifies this`cells
      ensures cells == FlipHoriz(old(cells))
    {
      ghost var c := cells;
      var i := 0;
      while i < 14
        invariant 0 <= i <= 14
        invariant forall x, y :: InBounds(x, y) ==> cells[y][x] == if y < i || y >= 28 - i then c[27 - y][x] else c[y][x]
      {
        var j := 0;
        while j < 10
          invariant 0 <= j <= 10
          invariant forall x, y :: InBounds(x, y) ==>
            cells[y][x] == if y < i || y >= 28 - i || ((y == i || y == 27 - i) && x < j) then c[27 - y][x] else c[y][x]
        {
          Swap(j, i, j, 27 - i);
          j := j + 1;
        }
        i := i + 1;
      }
      SameGrid(cells, FlipHoriz(c));
    }

    // Left and right change places.
    method MirrorVert()
      modifies this`cells
      ensures cells == FlipVert(old(cells))
    {
      ghost var c := cells;
      var i := 0;
      while i < 5
        invariant 0 <= i <= 5
        invariant forall x, y :: InBounds(x, y) ==> cells[y][x] == VertAt(c, x, y, i, 0)
      {
        var j := 0;
        while j < 28
          invariant 0 <= j <= 28
          invariant forall x, y :: InBounds(x, y) ==> cells[y][x] == VertAt(c, x, y, i, j)
        {
          ghost var mid := cells;
          Swap(9 - i, j, i, j);
          forall x, y | InBounds(x, y)
            ensures cells[y][x] == VertAt(c, x, y, i, j + 1)
          { assert mid[y][x] == VertAt(c, x, y, i, j) && mid[j][i] == c[j][i] && mid[j][9 - i] == c[j][9 - i]; }
          j := j + 1;
        }
        assert forall x, y :: InBounds(x, y) ==> VertAt(c, x, y, i, 28) == VertAt(c, x, y, i + 1, 0);
        i := i + 1;
      }
      SameGrid(cells, FlipVert(c));
    }

    // ----- garbage lines -----

    method PushUp(bottle: bool) returns (x1: int, x2: int)
      modifies this`cells
      ensures x1 == 0 && x2 == 10
      ensures forall x, y :: InBounds(x, y) ==>
        cells[y][x] == if y == 27 then None else if bottle && !Neck(x) && y < 18 then old(cells)[y][x]
          else old(cells)[y + 1][x]
    {
      ghost var c := cells;
      x1, x2 := 0, 10;
      var i := 0;
      while i < 27
        invariant 0 <= i <= 27 && (i == 27 ==> x1 == 0 && x2 == 10)
        invariant forall x, y :: InBounds(x, y) ==> cells[y][x] == PushedUpAt(c, x, y, bottle, i)
      {
        x1, x2 := 0, 10;
        if bottle && i < 18 { x1, x2 := 3, 7; }
        ghost var mid := cells;
        ShiftRow(i, i + 1, x1, x2);
        forall x, y | InBounds(x, y)
          ensures cells[y][x] == PushedUpAt(c, x, y, bottle, i + 1)
        { assert mid[i + 1][x] == PushedUpAt(c, x, i + 1, bottle, i); }
        i := i + 1;
      }
    }

    method PushDown(bottle: bool) returns (x1: int, x2: int)
      modifies this`cells
      ensures x1 == 0 && x2 == 10
      ensures forall x, y :: InBounds(x, y) ==>
        cells[y][x] == if y == 0 then None else if bottle && !Neck(x) && y > 9 then old(cells)[y][x]
          else old(cells)[y - 1][x]
    {
      ghost var c := cells;
      x1, x2 := 0, 10;
      var i := 27;
      while i > 0
        invariant 0 <= i <= 27 && (i == 0 ==> x1 == 0 && x2 == 10)
        invariant forall x, y :: InBounds(x, y) ==> cells[y][x] == PushedDownAt(c, x, y, bottle, i)
      {
        x1, x2 := 0, 10;
        if bottle && i >= 10 { x1, x2 := 3, 7; }
        ghost var mid := cells;
        ShiftRow(i, i - 1, x1, x2);
        forall x, y | InBounds(x, y)
          ensures cells[y][x] == PushedDownAt(c, x, y, bottle, i - 1)
        { assert mid[i - 1][x] == PushedDownAt(c, x, i - 1, bottle, i); }
        i := i - 1;
      }
    }

    // A solid row with one gap, over columns [x1, x2).
    method Pour(row: int, hole: int, x1: int, x2: int)
      requires 0 <= row < 28 && 0 <= x1 <= x2 <= 10
      modifies this`cells
      ensures forall x, y :: InBounds(x, y) ==>
        cells[y][x] == if y == row && x1 <= x < x2 && x != hole then GARBAGE else old(cells)[y][x]
    {
      var i := x1;
      while i < x2
        invariant x1 <= i <= x2
        invariant forall x, y :: InBounds(x, y) ==>
          cells[y][x] == if y == row && x1 <= x < i && x != hole then GARBAGE else old(cells)[y][x]
      {
        if i != hole { Set(i, row, GARBAGE); }
        i := i + 1;
      }
    }

    method RiseFromFloor(hole: int)
      requires Upright(Value())
      modifies this`cells
      ensures cells == Inserted(old(Value()), hole)
    {
      ghost var b := Value();
      var x1, x2 := PushUp(Active(active, BOTTLE));
      Pour(27, hole, x1, x2);
      hide PushedUpAt;
      SameGrid(cells, Inserted(b, hole));
    }

    method RiseFromCeiling(hole: int)
      requires !Upright(Value())
      modifies this`cells
      ensures cells == Inserted(old(Value()), hole)
    {
      ghost var b := Value();
      var x1, x2 := PushDown(Active(active, BOTTLE));
      Pour(0, hole, x1, x2);
      hide PushedDownAt;
      SameGrid(cells, Inserted(b, hole));
    }

    method InsertGarbage(rng: Generator)
      modifies this`cells, rng
      ensures (Value(), rng.state) == InsertLine(old(Value()), old(rng.state))
    {
      hide Next, Rng.Below, Inserted;
      var hole := rng.RandBelow(10);
      if Upright(Value()) { RiseFromFloor(hole); } else { RiseFromCeiling(hole); }
    }

    // ----- weapon effects -----

    method HasOpenBand() returns (open: bool)
      ensures open == BandOpen(cells)
    {
      var j := 7;
      while j < 21
        invariant 7 <= j <= 21
        invariant forall x, y :: 0 <= x < 10 && 7 <= y < j ==> cells[y][x].Some?
      {
        var i := 0;
        while i < 10
          invariant 0 <= i <= 10
          invariant forall x :: 0 <= x < i ==> cells[j][x].Some?
        {
          if cells[j][i].None? { return true; }
          i := i + 1;
        }
        j := j + 1;
      }
      open := false;
    }

    // Column and band row, drawn until the square is open.
    method PickSquare(rng: Generator) returns (i: int, j: int)
      requires BandOpen(cells)
      modifies rng
      ensures (i, j, rng.state) == PickOpen(cells, old(rng.state))
      ensures InBounds(i, j)
    {
      while true
        invariant PickOpen(cells, rng.state) == PickOpen(cells, old(rng.state))
        decreases RoundsToOpen(cells, rng.state)
      {
        hide Next, Rng.Below, RoundsToOpen, BandOpen;
        ghost var s := rng.state;
        i := rng.RandBelow(10);
        j := rng.RandBelow(14);
        j := j + 7;
        if cells[j][i].None? { return; }
        OpenRoundCloser(cells, s);
      }
    }

    method PlaceBlock(t: WeaponToken, rng: Generator)
      modifies this`cells, rng
      ensures (Value(), rng.state) == DropBlock(old(Value()), t, old(rng.state))
    {
      hide PickOpen, Next, Rng.Below, BandOpen;
      var open := HasOpenBand();
      if open {
        var i, j := PickSquare(rng);
        if t == BUG {
          Set(i, j, Some(Plain(Color(INVISIBLE_COLOR))));
        } else {
          var k := rng.RandBelow(8);
          Set(i, j, Some(Plain(Color(k + 1))));
        }
      }
    }

    // The first removable square from a random origin, both axes wrapping.
    method RemoveOne(rng: Generator)
      modifies this`cells, rng
      ensures cells == RemoveFirst(old(cells), Rng.Below(Next(old(rng.state)), 10),
        Rng.Below(Next(Next(old(rng.state))), 28), 0)
      ensures rng.state == Next(Next(old(rng.state)))
    {
      hide Next, Rng.Below, RemoveFirst;
      var sx := rng.RandBelow(10);
      var sy := rng.RandBelow(28);
      RemoveFrom(sx, sy);
    }

    method RemoveFrom(sx: int, sy: int)
      requires 0 <= sx < 10 && 0 <= sy < 28
      modifies this`cells
      ensures cells == RemoveFirst(old(cells), sx, sy, 0)
    {
      hide RemovableAt, Put, RemoveFirst;
      var dy := 0;
      while dy < 28
        invariant 0 <= dy <= 28 && cells == old(cells)
        invariant RemoveFirst(cells, sx, sy, 10 * dy) == RemoveFirst(cells, sx, sy, 0)
      {
        var y := (sy + dy) % 28;
        var dx := 0;
        while dx < 10
          invariant 0 <= dx <= 10 && cells == old(cells)
          invariant RemoveFirst(cells, sx, sy, 10 * dy + dx) == RemoveFirst(cells, sx, sy, 0)
        {
          var x := (sx + dx) % 10;
          SearchStep(cells, sx, sy, dx, dy);
          if RemovableAt(cells, x, y) {
            Set(x, y, None);
            return;
          }
          dx := dx + 1;
        }
        dy := dy + 1;
      }
      SearchEnds(cells, sx, sy);
    }

    // A coin for each removable square, in row order.
    method BlindRandomly(rng: Generator)
      modifies this`cells, rng
      ensures (cells, rng.state) == BlindFrom(old(cells), old(rng.state), 0)
    {
      var y := 0;
      while y < 28
        invariant 0 <= y <= 28
        invariant BlindFrom(cells, rng.state, 10 * y) == BlindFrom(old(cells), old(rng.state), 0)
      {
        var x := 0;
        while x < 10
          invariant 0 <= x <= 10
          invariant BlindFrom(cells, rng.state, 10 * y + x) == BlindFrom(old(cells), old(rng.state), 0)
        {
          hide BlindFrom;
          BlindOne(rng, x, y);
          x := x + 1;
        }
        y := y + 1;
      }
    }

    method BlindOne(rng: Generator, x: int, y: int)
      requires 0 <= x < 10 && 0 <= y < 28
      modifies this`cells, rng
      ensures BlindFrom(cells, rng.state, 10 * y + x + 1) == BlindFrom(old(cells), old(rng.state), 10 * y + x)
    {
      hide Next, Rng.Below, Put;
      Digits(x, y);
      if RemovableAt(cells, x, y) {
        var coin := rng.RandBelow(2);
        if coin == 0 { Set(x, y, None); }
      }
    }

    method GimpAll()
      modifies this`cells
      ensures cells == Gimped(old(cells))
    {
      ghost var c := cells;
      var y := 0;
      while y < 28
        invariant 0 <= y <= 28
        invariant forall i, j :: InBounds(i, j) ==> cells[j][i] == if j < y then GimpAt(c[j][i]) else c[j][i]
      {
        var x := 0;
        while x < 10
          invariant 0 <= x <= 10
          invariant forall i, j :: InBounds(i, j) ==>
            cells[j][i] == if j < y || (j == y && i < x) then GimpAt(c[j][i]) else c[j][i]
        {
          if RemovableAt(cells, x, y) { Set(x, y, Some(Plain(Gimp(cells[y][x].value.Value())))); }
          x := x + 1;
        }
        y := y + 1;
      }
      SameGrid(cells, Gimped(c));
    }

    method HideAll()
      modifies this`cells
      ensures cells == Hidden(old(cells))
    {
      ghost var c := cells;
      var y := 0;
      while y < 28
        invariant 0 <= y <= 28
        invariant forall i, j :: InBounds(i, j) ==> cells[j][i] == if j < y then HideAt(c[j][i]) else c[j][i]
      {
        var x := 0;
        while x < 10
          invariant 0 <= x <= 10
          invariant forall i, j :: InBounds(i, j) ==>
            cells[j][i] == if j < y || (j == y && i < x) then HideAt(c[j][i]) else c[j][i]
        {
          if cells[y][x].Some? { Set(x, y, Some(cells[y][x].value.Hide())); }
          x := x + 1;
        }
        y := y + 1;
      }
      SameGrid(cells, Hidden(c));
    }

    // The middle columns fall out, one row at a time.
    method FallOutMiddle()
      modifies this`cells
      ensures Value() == FallOutTimes(old(Value()), 28)
    {
      var n := 28;
      ghost var b := Value();
      while n > 0
        invariant 0 <= n <= 28
        invariant FallOutTimes(Value(), n) == FallOutTimes(b, 28)
      {
        hide Removed;
        RemoveLine(if Upright(Value()) then 27 else 0, 2, 8);
        n := n - 1;
      }
    }

    // The neck's side walls, set or cleared.
    method BuildWalls(s: Square)
      modifies this`cells
      ensures cells == Walled(old(cells), s)
    {
      ghost var c := cells;
      var x := 0;
      while x < 3
        invariant 0 <= x <= 3
        invariant forall i, j :: InBounds(i, j) ==>
          cells[j][i] == if WallSquare(i, j) && (i < x || i > 9 - x) then s else c[j][i]
      {
        var y := 10;
        while y < 18
          invariant 10 <= y <= 18
          invariant forall i, j :: InBounds(i, j) ==>
            cells[j][i] == if WallSquare(i, j) && (i < x || i > 9 - x || ((i == x || i == 9 - x) && j < y))
                           then s else c[j][i]
        {
          Set(x, y, s);
          Set(9 - x, y, s);
          y := y + 1;
        }
        x := x + 1;
      }
      SameGrid(cells, Walled(c, s));
    }

    // The mutation of a weapon turning on, its flag already set.
    method ApplyWeapon(t: WeaponToken, rng: Generator) returns (clear: LineClear)
      modifies this, rng
      ensures Effect(Value(), clear, rng.state) == ApplyEffect(old(Value()), t, old(rng.state))
      ensures newFill == old(newFill)
    {
      hide FlipHoriz, FlipVert, Gimped, Hidden, DropBlock, RemoveFirst, BlindFrom, FallOutTimes, Walled, CheckLines,
        Inserted, Next, Rng.Below;
      clear := NO_CLEAR;
      if t == UPBYSIDE {
        if !upside && !computer { MirrorHoriz(); }
        upside := true;
      } else if t == PIECE_IT || t == BUG {
        PlaceBlock(t, rng);
      } else if t == MISSING {
        RemoveOne(rng);
      } else if t == BLIND {
        BlindRandomly(rng);
      } else if t == GIMP {
        GimpAll();
      } else if t == TWILIGHT {
        HideAll();
      } else if t == FLIP_OUT {
        MirrorVert();
      } else if t == FALL_OUT {
        FallOutMiddle();
      } else if t == BOTTLE {
        BuildWalls(STRUCTURE_SQUARE);
        clear := ClearLines();
      } else if t == RISE_UP {
        InsertGarbage(rng);
      }
    }

    // The mutation of a weapon turning off.
    method RevertWeapon(t: WeaponToken)
      modifies this
      ensures Value() == RevertEffect(old(Value()), t) && newFill == old(newFill)
    {
      hide FlipHoriz, Walled;
      if t == UPBYSIDE {
        upside := false;
        if !computer { MirrorHoriz(); }
      } else if t == BOTTLE {
        BuildWalls(None);
      }
    }

    // ----- landing -----

    // A box that lands off the board is dropped.
    method Fill(x: int, y: int, cell: Cell)
      modifies this`cells, this`newFill
      ensures cells == Put(old(cells), x, y, Some(cell))
      ensures newFill == old(newFill) + if InBounds(x, y) then [(x, y)] else []
    {
      if InBounds(x, y) {
        Set(x, y, Some(cell));
        newFill := newFill + [(x, y)];
      }
    }

    method FillPiece(p: Piece)
      requires newFill == []
      modifies this`cells, this`newFill
      ensures cells == LandedGrid(p, old(cells))
      ensures forall x, y :: (x, y) in newFill <==> FreshBox(p, x, y)
    {
      ghost var c := cells;
      var i := 0;
      while i < 8
        invariant 0 <= i <= 8
        invariant forall x, y :: InBounds(x, y) ==> cells[y][x] == FilledAt(p, c, x, y, i, 0)
        invariant forall x, y :: (x, y) in newFill <==> FreshBox(p, x, y) && FilledBefore(p, x, y, i, 0)
      {
        var j := 0;
        while j < 8
          invariant 0 <= j <= 8
          invariant forall x, y :: InBounds(x, y) ==> cells[y][x] == FilledAt(p, c, x, y, i, j)
          invariant forall x, y :: (x, y) in newFill <==> FreshBox(p, x, y) && FilledBefore(p, x, y, i, j)
        {
          if p.cells[i][j].Some? { Fill(p.x + i, p.y + j, p.cells[i][j].value); }
          j := j + 1;
        }
        i := i + 1;
      }
      SameGrid(cells, LandedGrid(p, c));
    }

    // The square's box, if it is one this placement filled.
    predicate Boxed(x: int, y: int)
      reads this
    { InBounds(x, y) && cells[y][x].Some? && (x, y) in newFill }

    // An empty square boxed in by a box of this placement is a bad move.
    method Judge(p: Piece)
      requires forall x, y :: (x, y) in newFill <==> FreshBox(p, x, y)
      requires forall x, y :: FreshBox(p, x, y) ==> cells[y][x].Some?
      modifies this`idiot, this`reason, this`newFill
      ensures var b := old(Value());
        Value() == if BadMove(p, b) then b.(idiot := true, reason := BAD_MOVE) else b
      ensures newFill == []
    {
      hide Occupied, FreshBox, Covers;
      ghost var b := Value();
      var i := 0;
      while i < 8
        invariant 0 <= i <= 8 && newFill == old(newFill)
        invariant Value() == if JudgedBad(p, b, i, 0) then b.(idiot := true, reason := BAD_MOVE) else b
      {
        var j := 0;
        while j < 8
          invariant 0 <= j <= 8 && newFill == old(newFill)
          invariant Value() == if JudgedBad(p, b, i, j) then b.(idiot := true, reason := BAD_MOVE) else b
        {
          var x, y := p.x + i, p.y + j;
          var top := if Active(active, UPBYSIDE) then y + 1 else y - 1;
          SameOccupancy(Value(), b);
          BoxOf(p, b, x - 1, y);
          BoxOf(p, b, x + 1, y);
          BoxOf(p, b, x, top);
          assert cells == b.cells && active == b.active;
          var boxed := !Occupied(Value(), x, y) && Occupied(Value(), x - 1, y) && Occupied(Value(), x + 1, y)
            && Occupied(Value(), x, top) && (Boxed(x - 1, y) || Boxed(x + 1, y) || Boxed(x, top));
          assert boxed == BoxedIn(p, b, i, j);
          if boxed { idiot, reason := true, BAD_MOVE; }
          JudgedNext(p, b, i, j);
          j := j + 1;
        }
        JudgedRow(p, b, i);
        i := i + 1;
      }
      JudgedAll(p, b);
      newFill := [];
    }

    method LandPiece(p: Piece)
      requires newFill == []
      modifies this
      ensures Value() == Land(p, old(Value())) && newFill == []
    {
      FillPiece(p);
      assert forall x, y :: FreshBox(p, x, y) ==> cells[y][x].Some?;
      hide BadMove, LandedGrid;
      Judge(p);
    }
  }

  lemma SameGrid(c: Grid, d: Grid)
    requires forall x, y :: InBounds(x, y) ==> c[y][x] == d[y][x]
    ensures c == d
  {
    forall y | 0 <= y < 28
      ensures c[y] == d[y]
    { assert forall x :: 0 <= x < 10 ==> c[y][x] == d[y][x]; }
  }

  // Where a column stands once the rows down to i have been shifted: the bottle's shoulder
  // keeps the outer columns from row 18 on.
  function DropFloor(x: int, line: int, bottle: bool, i: int): int
  { if bottle && line >= 10 && !Neck(x) then (if line >= 19 then Max(i, 18) else line) else i }

  function DroppedAt(c: Grid, x: int, y: int, line: int, x1: int, x2: int, bottle: bool, i: nat): Square
    requires InBounds(x, y)
  {
    var f := DropFloor(x, line, bottle, i);
    if !(x1 <= x < x2) then c[y][x]
    else if f < y <= line && y > 0 then c[y - 1][x]
    else if y == f && f < line then None
    else c[y][x]
  }

  // The mirror image, the shoulder at row 9.
  function RiseRoof(x: int, line: int, bottle: bool, i: int): int
  { if bottle && line <= 18 && !Neck(x) then (if line <= 8 then (if i < 9 then i else 9) else line) else i }

  function RisenAt(c: Grid, x: int, y: int, line: int, x1: int, x2: int, bottle: bool, i: int): Square
    requires InBounds(x, y)
  {
    var f := RiseRoof(x, line, bottle, i);
    if !(x1 <= x < x2) then c[y][x]
    else if line <= y < f && y < 27 then c[y + 1][x]
    else if y == f && line < f then None
    else c[y][x]
  }

  // A garbage line under way: rows below i (flipped: above i) have moved.
  function PushedUpAt(c: Grid, x: int, y: int, bottle: bool, i: int): Square
    requires InBounds(x, y)
  {
    if bottle && !Neck(x) then (if 18 <= y < i && y < 27 then c[y + 1][x] else if y == i && i > 18 then None else c[y][x])
    else if y < i && y < 27 then c[y + 1][x]
    else if y == i && i > 0 then None
    else c[y][x]
  }

  function PushedDownAt(c: Grid, x: int, y: int, bottle: bool, i: int): Square
    requires InBounds(x, y)
  {
    if bottle && !Neck(x) then (if i < y <= 9 && y > 0 then c[y - 1][x] else if y == i && i < 9 then None else c[y][x])
    else if y > i && y > 0 then c[y - 1][x]
    else if y == i && i < 27 then None
    else c[y][x]
  }

  // The steps of the clearing pass.
  lemma PassClears(b: Board, j: nat, lines: nat, value: int)
    requires j < 28 && FullRow(b.cells[j])
    ensures var b' := b.(cells := Removed(b, j, 0, 10));
      && ClearFrom(b, j, lines, value)
         == ClearFrom(b', if Active(b.active, FORCE) then j - 1 else j, lines + 1, value + ValueUpTo(b.cells[j], 10))
      && Count(b'.cells) <= Count(b.cells)
      && (!Active(b.active, FORCE) ==> Count(b'.cells) < Count(b.cells))
  {
    if Active(b.active, FORCE) { SumKept(b.cells, Removed(b, j, 0, 10), 10); } else { SumAfterRemoval(b, j, 10); }
    hide Removed, CountUpTo, ValueUpTo;
  }

  lemma PassKeeps(b: Board, j: nat, lines: nat, value: int)
    requires j < 28 && !FullRow(b.cells[j])
    ensures ClearFrom(b, j, lines, value) == ClearFrom(Frowned(b, j), j - 1, lines, value)
    ensures Count(Frowned(b, j).cells) <= Count(b.cells)
  {
    SumKept(b.cells, Frowned(b, j).cells, 10);
    hide CountUpTo, FrownRow, Removed;
  }

  lemma PassEnds(b: Board, lines: nat, value: int)
    ensures ClearFrom(b, -1, lines, value) == Cleared(b, lines, value)
  {}

  // A left-right flip under way: columns before i done, column i down to row j.
  function VertAt(c: Grid, x: int, y: int, i: int, j: int): Square
    requires InBounds(x, y)
  { if x < i || x >= 10 - i || ((x == i || x == 9 - i) && y < j) then c[y][9 - x] else c[y][x] }

  lemma Digits(x: nat, y: nat)
    requires x < 10
    ensures (10 * y + x) % 10 == x && (10 * y + x) / 10 == y
  {}

  lemma SearchStep(c: Grid, sx: int, sy: int, dx: nat, dy: nat)
    requires 0 <= sx < 10 && 0 <= sy < 28 && dx < 10 && dy < 28
    ensures var x, y := (sx + dx) % 10, (sy + dy) % 28;
      RemoveFirst(c, sx, sy, 10 * dy + dx)
        == if RemovableAt(c, x, y) then Put(c, x, y, None) else RemoveFirst(c, sx, sy, 10 * dy + dx + 1)
  {
    Digits(dx, dy);
    hide RemovableAt, Put;
  }

  lemma SearchEnds(c: Grid, sx: int, sy: int)
    requires 0 <= sx < 10 && 0 <= sy < 28
    ensures RemoveFirst(c, sx, sy, 280) == c
  {}

  // The piece's squares up to column i, row j have been filled.
  predicate FilledBefore(p: Piece, x: int, y: int, i: int, j: int)
  { x - p.x < i || (x - p.x == i && y - p.y < j) }

  function FilledAt(p: Piece, c: Grid, x: int, y: int, i: int, j: int): Square
    requires InBounds(x, y)
  { if Covers(p, x, y) && FilledBefore(p, x, y, i, j) then p.cells[x - p.x][y - p.y] else c[y][x] }

  lemma SameOccupancy(b: Board, c: Board)
    requires b.cells == c.cells && b.active == c.active
    ensures forall x, y :: Occupied(b, x, y) == Occupied(c, x, y)
  {}

  // A bad square among those looked at before (i, j).
  predicate JudgedBad(p: Piece, b: Board, i: int, j: int)
  { exists k, l :: 0 <= k < 8 && 0 <= l < 8 && (k < i || (k == i && l < j)) && BoxedIn(p, b, k, l) }

  lemma JudgedNext(p: Piece, b: Board, i: int, j: int)
    requires 0 <= i < 8 && 0 <= j < 8
    ensures JudgedBad(p, b, i, j + 1) == (JudgedBad(p, b, i, j) || BoxedIn(p, b, i, j))
  { hide BoxedIn; }

  lemma JudgedRow(p: Piece, b: Board, i: int)
    requires 0 <= i < 8
    ensures JudgedBad(p, b, i, 8) == JudgedBad(p, b, i + 1, 0)
  { hide BoxedIn; }

  lemma JudgedAll(p: Piece, b: Board)
    ensures JudgedBad(p, b, 8, 0) == BadMove(p, b)
  { hide BoxedIn; }

  lemma BoxOf(p: Piece, b: Board, x: int, y: int)
    ensures FreshBox(p, x, y) ==> InBounds(x, y)
  {}
}
