/** The loops of rust/bt-core/src/piece.rs over a falling piece: does it fit, and what does
    turning it do. */
module PieceMoves {
  import opened Boards
  import opened Pieces

  // Every square of the piece looked at on the board.
  method FitsAt(p: Piece, b: Board, x: int, y: int) returns (ok: bool)
    ensures ok == CanMoveTo(p, b, x, y)
  {
    hide Occupied;
    var i := 0;
    while i < 8
      invariant 0 <= i <= 8
      invariant forall k, l :: 0 <= k < i && 0 <= l < 8 && p.cells[k][l].Some? ==> !Occupied(b, x + k, y + l)
    {
      var j := 0;
      while j < 8
        invariant 0 <= j <= 8
        invariant forall l :: 0 <= l < j && p.cells[i][l].Some? ==> !Occupied(b, x + i, y + l)
      {
        if p.cells[i][j].Some? && Occupied(b, x + i, y + j) { return false; }
        j := j + 1;
      }
      i := i + 1;
    }
    ok := true;
  }

  // One column of the turned square; each square is looked at before anything is written back.
  method TurnColumn(p: Piece, b: Board, reverse: bool, i: int) returns (column: PieceColumn, ok: bool)
    requires 0 <= i < p.rot
    ensures ok == forall l :: 0 <= l < p.rot && TurnedAt(p, i, l, reverse).Some? ==> !Occupied(b, p.x + i, p.y + l)
    ensures ok ==> forall l :: 0 <= l < 8 ==> column[l] == TurnedAt(p, i, l, reverse)
  {
    hide Occupied;
    column, ok := p.cells[i], true;
    var j := 0;
    while j < p.rot
      invariant 0 <= j <= p.rot && ok
      invariant forall l :: 0 <= l < 8 ==> column[l] == if l < j then TurnedAt(p, i, l, reverse) else p.cells[i][l]
      invariant forall l :: 0 <= l < j && TurnedAt(p, i, l, reverse).Some? ==> !Occupied(b, p.x + i, p.y + l)
    {
      var s := if reverse then p.cells[j][p.rot - 1 - i] else p.cells[p.rot - 1 - j][i];
      column := column[j := s];
      if s.Some? && Occupied(b, p.x + i, p.y + j) {
        assert TurnedAt(p, i, j, reverse) == s;
        return column, false;
      }
      j := j + 1;
    }
  }

  method TurnSquare(p: Piece, b: Board, reverse: bool) returns (q: Piece, ok: bool)
    requires !Bespoke(p.kind)
    ensures ok == CanRotate(p, b, reverse)
    ensures q == Rotate(p, b, reverse)
  {
    hide Occupied, TurnedGrid;
    if p.rot == 0 { return p, false; }
    var turned := p.cells;
    var i := 0;
    while i < p.rot
      invariant 0 <= i <= p.rot
      invariant forall k, l :: 0 <= k < 8 && 0 <= l < 8 ==>
        turned[k][l] == if k < i then TurnedAt(p, k, l, reverse) else p.cells[k][l]
      invariant forall k, l :: 0 <= k < i && 0 <= l < p.rot && TurnedAt(p, k, l, reverse).Some? ==>
        !Occupied(b, p.x + k, p.y + l)
    {
      var column, free := TurnColumn(p, b, reverse, i);
      if !free { return p, false; }
      turned := turned[i := column];
      i := i + 1;
    }
    TurnedIs(p, turned, reverse);
    q := p.(cells := turned, orientation := Turn(p.orientation, p.orientations, reverse));
    ok := true;
  }

  lemma TurnedIs(p: Piece, turned: PieceGrid, reverse: bool)
    requires forall k, l :: 0 <= k < 8 && 0 <= l < 8 ==>
      turned[k][l] == if k < p.rot then TurnedAt(p, k, l, reverse) else p.cells[k][l]
    ensures turned == TurnedGrid(p, reverse)
  {
    forall k | 0 <= k < 8
      ensures turned[k] == TurnedGrid(p, reverse)[k]
    {
      assert forall l :: 0 <= l < 8 ==> turned[k][l] == TurnedAt(p, k, l, reverse);
      assert turned[k] == TurnedColumn(p, k, reverse);
    }
  }

  // One arm after the other, once all their ends are known to be free.
  method TurnByArms(p: Piece, b: Board, reverse: bool) returns (q: Piece, ok: bool)
    requires Bespoke(p.kind)
    ensures ok == CanRotate(p, b, reverse)
    ensures q == Rotate(p, b, reverse)
  {
    hide Occupied, ArmsOf, MoveArm;
    var arms := ArmsOf(p, reverse);
    var k := 0;
    while k < |arms|
      invariant 0 <= k <= |arms|
      invariant forall l :: 0 <= l < k ==> !Occupied(b, p.x + arms[l].ti, p.y + arms[l].tj)
    {
      if Occupied(b, p.x + arms[k].ti, p.y + arms[k].tj) { return p, false; }
      k := k + 1;
    }
    var g := p.cells;
    k := 0;
    while k < |arms|
      invariant 0 <= k <= |arms|
      invariant MoveArms(g, arms[k..]) == MoveArms(p.cells, arms)
    {
      assert arms[k..][0] == arms[k] && arms[k..][1..] == arms[k + 1..];
      g := MoveArm(g, arms[k]);
      k := k + 1;
    }
    q := if p.kind == Star then p.(cells := g, state := (p.state + 1) % 2)
         else p.(cells := g, state := Turn(p.state, p.orientations, reverse),
                 orientation := Turn(p.orientation, p.orientations, reverse));
    ok := true;
  }

  method TurnPiece(p: Piece, b: Board, reverse: bool) returns (q: Piece, ok: bool)
    ensures ok == CanRotate(p, b, reverse)
    ensures q == Rotate(p, b, reverse)
  { if Bespoke(p.kind) { q, ok := TurnByArms(p, b, reverse); } else { q, ok := TurnSquare(p, b, reverse); } }
}
