/** Rotation is a group action wherever it succeeds: turning back undoes a turn, a full cycle
    restores the piece, no cell is lost and none lands on a filled square. */
module PieceLaws {
  import opened Wrappers
  import opened Cells
  import opened Boards
  import opened Pieces

  // ----- the generic quarter turn -----

  lemma TurnBack(p: Piece)
    ensures TurnedGrid(p.(cells := TurnedGrid(p, false)), true) == p.cells
  {
    var q := p.(cells := TurnedGrid(p, false));
    forall i | 0 <= i < 8
      ensures TurnedGrid(q, true)[i] == p.cells[i]
    { assert forall j :: 0 <= j < 8 ==> TurnedColumn(q, i, true)[j] == p.cells[i][j]; }
  }

  lemma TurnOn(p: Piece)
    ensures TurnedGrid(p.(cells := TurnedGrid(p, true)), false) == p.cells
  {
    var q := p.(cells := TurnedGrid(p, true));
    forall i | 0 <= i < 8
      ensures TurnedGrid(q, false)[i] == p.cells[i]
    { assert forall j :: 0 <= j < 8 ==> TurnedColumn(q, i, false)[j] == p.cells[i][j]; }
  }

  // The square a half turn moves into (i, j).
  function HalfAt(p: Piece, i: int, j: int): Square
    requires 0 <= i < 8 && 0 <= j < 8
  { if i < p.rot && j < p.rot then p.cells[p.rot - 1 - i][p.rot - 1 - j] else p.cells[i][j] }

  function TwoTurns(p: Piece): Piece
  {
    var q := p.(cells := TurnedGrid(p, false));
    q.(cells := TurnedGrid(q, false))
  }

  lemma HalfTurn(p: Piece)
    ensures TwoTurns(p) == p.(cells := TwoTurns(p).cells)
    ensures forall i, j :: 0 <= i < 8 && 0 <= j < 8 ==> TwoTurns(p).cells[i][j] == HalfAt(p, i, j)
  {}

  // A half turn is its own inverse.
  lemma FourTurns(p: Piece)
    ensures TwoTurns(TwoTurns(p)) == p
  {
    hide TwoTurns;
    HalfTurn(p);
    HalfTurn(TwoTurns(p));
    var r := TwoTurns(TwoTurns(p));
    forall i | 0 <= i < 8
      ensures r.cells[i] == p.cells[i]
    {
      forall j | 0 <= j < 8
        ensures r.cells[i][j] == p.cells[i][j]
      { assert r.cells[i][j] == HalfAt(TwoTurns(p), i, j); }
    }
  }

  // ----- the bespoke kinds, state by state -----

  // The squares a bespoke kind fills in each state.
  function ShapeOf(k: PieceKind, state: int): set<(int, int)>
  {
    match (k, state)
    case (Wall, 0) => {(0, 1), (0, 2), (3, 1), (3, 2)}
    case (Wall, 1) => {(0, 2), (3, 1), (1, 3), (2, 0)}
    case (Wall, 2) => {(1, 3), (2, 0), (2, 3), (1, 0)}
    case (Wall, 3) => {(2, 3), (1, 0), (0, 1), (3, 2)}
    case (Star, 0) => {(1, 0), (1, 2), (0, 1), (2, 1)}
    case (Star, 1) => {(0, 0), (2, 0), (0, 2), (2, 2)}
    case (WeirdLong, 0) => {(1, 0), (1, 1), (2, 2), (2, 3)}
    case (WeirdLong, 1) => {(0, 0), (1, 1), (2, 2), (3, 3)}
    case (WeirdLong, 2) => {(0, 1), (1, 1), (2, 2), (3, 2)}
    case (WeirdLong, 3) => {(0, 2), (1, 2), (2, 1), (3, 1)}
    case (WeirdLong, 4) => {(0, 3), (1, 2), (2, 1), (3, 0)}
    case (WeirdLong, 5) => {(2, 0), (2, 1), (1, 2), (1, 3)}
    case _ => {}
  }

  // One colour on exactly these squares.
  ghost predicate Drawn(g: PieceGrid, s: set<(int, int)>, cell: Cell)
  {
    forall i, j :: 0 <= i < 8 && 0 <= j < 8 ==> g[i][j] == if (i, j) in s then Some(cell) else None
  }

  lemma DrawnOnce(g: PieceGrid, h: PieceGrid, s: set<(int, int)>, cell: Cell)
    requires Drawn(g, s, cell) && Drawn(h, s, cell)
    ensures g == h
  {
    forall i | 0 <= i < 8
      ensures g[i] == h[i]
    { assert forall j :: 0 <= j < 8 ==> g[i][j] == h[i][j]; }
  }

  function From(a: Arm): (int, int) { (a.fi, a.fj) }
  function To(a: Arm): (int, int) { (a.ti, a.tj) }
  function ArmMoved(s: set<(int, int)>, a: Arm): set<(int, int)> { s - {From(a)} + {To(a)} }

  // Each arm leaves a filled square for an empty one.
  predicate Moves(s: set<(int, int)>, a: Arm) { a.Local() && From(a) in s && To(a) !in s }

  lemma ArmDraws(g: PieceGrid, s: set<(int, int)>, cell: Cell, a: Arm)
    requires Drawn(g, s, cell) && Moves(s, a)
    ensures Drawn(MoveArm(g, a), ArmMoved(s, a), cell)
    ensures |ArmMoved(s, a)| == |s|
  {}

  // The arms, one after the other, lead from shape s to shape t.
  ghost predicate Leads(s: set<(int, int)>, arms: seq<Arm>, t: set<(int, int)>)
    decreases |arms|
  { if arms == [] then s == t else Moves(s, arms[0]) && Leads(ArmMoved(s, arms[0]), arms[1..], t) }

  lemma {:induction false} ArmsDraw(g: PieceGrid, s: set<(int, int)>, t: set<(int, int)>, cell: Cell, arms: seq<Arm>)
    requires AllLocal(arms) && Drawn(g, s, cell) && Leads(s, arms, t)
    ensures Drawn(MoveArms(g, arms), t, cell) && |t| == |s|
    decreases |arms|
  {
    hide MoveArm, Drawn, Moves, ArmMoved;
    if arms != [] {
      ArmDraws(g, s, cell, arms[0]);
      ArmsDraw(MoveArm(g, arms[0]), ArmMoved(s, arms[0]), t, cell, arms[1..]);
    }
  }

  lemma LeadsTwo(s: set<(int, int)>, arms: seq<Arm>, t: set<(int, int)>)
    requires |arms| == 2 && Moves(s, arms[0]) && Moves(ArmMoved(s, arms[0]), arms[1])
    requires ArmMoved(ArmMoved(s, arms[0]), arms[1]) == t
    ensures Leads(s, arms, t)
  {
    hide Moves, ArmMoved;
    assert arms[1..][1..] == [];
    assert Leads(ArmMoved(s, arms[0]), arms[1..], t);
  }

  lemma LeadsFour(s: set<(int, int)>, arms: seq<Arm>, t: set<(int, int)>)
    requires |arms| == 4 && Moves(s, arms[0]) && Moves(ArmMoved(s, arms[0]), arms[1])
    requires var s2 := ArmMoved(ArmMoved(s, arms[0]), arms[1]);
      Moves(s2, arms[2]) && Moves(ArmMoved(s2, arms[2]), arms[3]) && ArmMoved(ArmMoved(s2, arms[2]), arms[3]) == t
    ensures Leads(s, arms, t)
  {
    hide Moves, ArmMoved;
    var s1 := ArmMoved(s, arms[0]);
    LeadsTwo(ArmMoved(s1, arms[1]), arms[2..], t);
    assert arms[1..][1..] == arms[2..];
    assert Leads(s1, arms[1..], t);
  }

  // All four squares of a shape move, to four others.
  lemma LeadsWhole(s: set<(int, int)>, arms: seq<Arm>, t: set<(int, int)>)
    requires |arms| == 4 && AllLocal(arms)
    requires s == {From(arms[0]), From(arms[1]), From(arms[2]), From(arms[3])}
    requires t == {To(arms[0]), To(arms[1]), To(arms[2]), To(arms[3])}
    requires s !! t && |s| == 4 && |t| == 4
    ensures Leads(s, arms, t)
  {
    var f0, f1, f2, f3 := From(arms[0]), From(arms[1]), From(arms[2]), From(arms[3]);
    var t0, t1, t2, t3 := To(arms[0]), To(arms[1]), To(arms[2]), To(arms[3]);
    FourDistinct(f0, f1, f2, f3);
    FourDistinct(t0, t1, t2, t3);
    hide From, To;
    var s1 := ArmMoved(s, arms[0]);
    assert s1 == {t0, f1, f2, f3};
    var s2 := ArmMoved(s1, arms[1]);
    assert s2 == {t0, t1, f2, f3};
    var s3 := ArmMoved(s2, arms[2]);
    assert s3 == {t0, t1, t2, f3};
    assert ArmMoved(s3, arms[3]) == t;
    LeadsFour(s, arms, t);
  }

  lemma FourDistinct(a: (int, int), b: (int, int), c: (int, int), d: (int, int))
    requires |{a, b, c, d}| == 4
    ensures a != b && a != c && a != d && b != c && b != d && c != d
  {
    AtMostThree(b, c, d);
    AtMostThree(a, c, d);
    AtMostThree(a, b, d);
    AtMostThree(a, b, c);
    assert a == b ==> {a, b, c, d} == {b, c, d};
    assert a == c ==> {a, b, c, d} == {b, c, d};
    assert a == d ==> {a, b, c, d} == {b, c, d};
    assert b == c ==> {a, b, c, d} == {a, c, d};
    assert b == d ==> {a, b, c, d} == {a, c, d};
    assert c == d ==> {a, b, c, d} == {a, b, d};
  }

  lemma AtMostThree(a: (int, int), b: (int, int), c: (int, int))
    ensures |{a, b, c}| <= 3
  {}

  function NextState(p: Piece, reverse: bool): int
  { if p.kind == Star then (p.state + 1) % 2 else Turn(p.state, p.orientations, reverse) }

  // A piece of a bespoke kind is one colour, in the shape of its state.
  ghost predicate InShape(p: Piece, cell: Cell) { Drawn(p.cells, ShapeOf(p.kind, p.state), cell) }

  predicate BespokeState(p: Piece)
  { Bespoke(p.kind) && p.orientations == KindTurns(p.kind) && 0 <= p.state < p.orientations }

  // Every arm ends on a square of this shape.
  predicate EndIn(arms: seq<Arm>, t: set<(int, int)>) { forall k :: 0 <= k < |arms| ==> To(arms[k]) in t }

  lemma WallLeads(state: int, reverse: bool)
    requires 0 <= state < 4
    ensures var next := Turn(state, 4, reverse);
      Leads(ShapeOf(Wall, state), WallArms(next, reverse), ShapeOf(Wall, next))
      && EndIn(WallArms(next, reverse), ShapeOf(Wall, next))
  {
    var next := Turn(state, 4, reverse);
    var s, arms, t := ShapeOf(Wall, state), WallArms(next, reverse), ShapeOf(Wall, next);
    assert ArmMoved(ArmMoved(s, arms[0]), arms[1]) == t;
    LeadsTwo(s, arms, t);
  }

  lemma StarLeads(state: int)
    requires 0 <= state < 2
    ensures Leads(ShapeOf(Star, state), StarArms(state), ShapeOf(Star, (state + 1) % 2))
    ensures EndIn(StarArms(state), ShapeOf(Star, (state + 1) % 2))
  {
    LeadsWhole(ShapeOf(Star, state), StarArms(state), ShapeOf(Star, (state + 1) % 2));
  }

  // The long piece turns by its tips on the way to these states, by its whole arms otherwise.
  predicate ByTips(target: int, reverse: bool)
  { if reverse then target in {0, 1, 3, 4} else target in {1, 2, 4, 5} }

  ghost predicate WeirdTurn(target: int, reverse: bool)
  { Leads(ShapeOf(WeirdLong, Turn(target, 6, !reverse)), WeirdArms(target, reverse), ShapeOf(WeirdLong, target)) }

  lemma WeirdTip(from: int, target: int, reverse: bool)
    requires ByTips(target, reverse) && from == Turn(target, 6, !reverse)
    requires var arms, s := WeirdArms(target, reverse), ShapeOf(WeirdLong, from);
      && |arms| == 2 && Moves(s, arms[0]) && Moves(ArmMoved(s, arms[0]), arms[1])
      && ArmMoved(ArmMoved(s, arms[0]), arms[1]) == ShapeOf(WeirdLong, target)
    ensures WeirdTurn(target, reverse)
  {
    hide WeirdArms, ShapeOf, Moves, ArmMoved, Leads;
    LeadsTwo(ShapeOf(WeirdLong, from), WeirdArms(target, reverse), ShapeOf(WeirdLong, target));
  }

  lemma WeirdTipsOn(target: int)
    requires ByTips(target, false)
    ensures WeirdTurn(target, false)
  {
    hide WeirdTurn;
    if target == 1 { WeirdTip(0, 1, false); } else if target == 2 { WeirdTip(1, 2, false); }
    else if target == 4 { WeirdTip(3, 4, false); } else { WeirdTip(4, 5, false); }
  }

  lemma WeirdTipsBack(target: int)
    requires ByTips(target, true)
    ensures WeirdTurn(target, true)
  {
    hide WeirdTurn;
    if target == 0 { WeirdTip(1, 0, true); } else if target == 1 { WeirdTip(2, 1, true); }
    else if target == 3 { WeirdTip(4, 3, true); } else { WeirdTip(5, 4, true); }
  }

  lemma WeirdWholeOn(target: int)
    requires target == 0 || target == 3
    ensures WeirdTurn(target, false)
  {
    var s, t := ShapeOf(WeirdLong, Turn(target, 6, true)), ShapeOf(WeirdLong, target);
    hide Leads;
    LeadsWhole(s, WeirdArms(target, false), t);
  }

  lemma WeirdWholeBack(target: int)
    requires target == 2 || target == 5
    ensures WeirdTurn(target, true)
  {
    var s, t := ShapeOf(WeirdLong, Turn(target, 6, false)), ShapeOf(WeirdLong, target);
    hide Leads;
    LeadsWhole(s, WeirdArms(target, true), t);
  }

  lemma WeirdEnds(target: int, reverse: bool)
    requires 0 <= target < 6
    ensures EndIn(WeirdArms(target, reverse), ShapeOf(WeirdLong, target))
  {}

  lemma WeirdLeads(state: int, reverse: bool)
    requires 0 <= state < 6
    ensures var next := Turn(state, 6, reverse);
      Leads(ShapeOf(WeirdLong, state), WeirdArms(next, reverse), ShapeOf(WeirdLong, next))
      && EndIn(WeirdArms(next, reverse), ShapeOf(WeirdLong, next))
  {
    hide Leads, ShapeOf, WeirdArms, EndIn;
    var next := Turn(state, 6, reverse);
    TurnInverse(state, 6, reverse);
    WeirdEnds(next, reverse);
    if ByTips(next, reverse) {
      if reverse { WeirdTipsBack(next); } else { WeirdTipsOn(next); }
    } else {
      if reverse { WeirdWholeBack(next); } else { WeirdWholeOn(next); }
    }
  }

  lemma ArmsLead(p: Piece, reverse: bool)
    requires BespokeState(p)
    ensures var t := ShapeOf(p.kind, NextState(p, reverse));
      Leads(ShapeOf(p.kind, p.state), ArmsOf(p, reverse), t) && EndIn(ArmsOf(p, reverse), t)
  {
    hide ShapeOf, WallArms, StarArms, WeirdArms, Leads, EndIn;
    match p.kind {
      case Wall => WallLeads(p.state, reverse);
      case Star => StarLeads(p.state);
      case WeirdLong => WeirdLeads(p.state, reverse);
    }
  }

  // A turn takes the shape of one state to the shape of the next, cell for cell.
  lemma ShapeTurns(p: Piece, reverse: bool, cell: Cell)
    requires BespokeState(p) && InShape(p, cell)
    ensures var q := Rotated(p, reverse);
      && q.state == NextState(p, reverse) && BespokeState(q) && InShape(q, cell)
      && |ShapeOf(q.kind, q.state)| == |ShapeOf(p.kind, p.state)|
  {
    hide ShapeOf, MoveArms, ArmsOf, Leads, Drawn, EndIn;
    ArmsLead(p, reverse);
    ArmsDraw(p.cells, ShapeOf(p.kind, p.state), ShapeOf(p.kind, NextState(p, reverse)), cell, ArmsOf(p, reverse));
  }

  // ----- the shapes rotation reaches -----

  ghost predicate Proper(p: Piece)
  {
    && p.orientations == KindTurns(p.kind) && p.rot == KindRot(p.kind)
    && 0 <= p.orientation < p.orientations
    && (p.kind == Star ==> p.orientation == 0)
    && (Bespoke(p.kind) && p.kind != Star ==> p.orientation == p.state)
    && (Bespoke(p.kind) ==> BespokeState(p) && exists cell :: InShape(p, cell))
    && (!Bespoke(p.kind) ==> p.state == 0)
  }

  lemma FreshProper(k: PieceKind, x: int, y: int, pips: int)
    ensures Proper(Construct(k, x, y, pips))
  {
    var p := Construct(k, x, y, pips);
    if Bespoke(k) { assert InShape(p, KindCell(k, pips)); }
  }

  lemma RotatedProper(p: Piece, reverse: bool)
    requires Proper(p)
    ensures Proper(Rotated(p, reverse))
  {
    if Bespoke(p.kind) {
      var cell :| InShape(p, cell);
      ShapeTurns(p, reverse, cell);
      hide InShape, BespokeState, MoveArms, ArmsOf;
    } else {
      hide TurnedGrid;
    }
  }

  // ----- the laws -----

  lemma TurnInverse(o: int, n: Turns, reverse: bool)
    requires 0 <= o < n && (n == 2 || n == 4 || n == 6)
    ensures Turn(Turn(o, n, reverse), n, !reverse) == o && 0 <= Turn(o, n, reverse) < n
  {
    hide Turn;
    TurnIs(o, n, reverse);
    TurnIs(Turn(o, n, reverse), n, !reverse);
  }

  lemma TurnIs(o: int, n: Turns, reverse: bool)
    requires 0 <= o < n && (n == 2 || n == 4 || n == 6)
    ensures Turn(o, n, reverse) ==
      if reverse then (if o == 0 then n - 1 else o - 1) else (if o == n - 1 then 0 else o + 1)
  {
    if reverse { Wraps(o - 1 + n, n); } else { Wraps(o + 1, n); }
  }

  lemma Wraps(x: int, n: int)
    requires 0 < n && 0 <= x < 2 * n
    ensures x % n == if x < n then x else x - n
  {
    if x >= n { assert x == n * 1 + (x - n); }
  }

  lemma BackUndoesArms(p: Piece, reverse: bool, cell: Cell)
    requires Proper(p) && Bespoke(p.kind) && InShape(p, cell)
    ensures Rotated(Rotated(p, reverse), !reverse) == p
  {
    hide Turn, MoveArms, ArmsOf, Drawn, ShapeOf;
    var q := Rotated(p, reverse);
    TurnInverse(p.orientation, p.orientations, reverse);
    assert BespokeState(p);
    StateTurns(p, reverse);
    ShapeTurns(p, reverse, cell);
    ShapeTurns(q, !reverse, cell);
    DrawnOnce(p.cells, Rotated(q, !reverse).cells, ShapeOf(p.kind, p.state), cell);
  }

  lemma StateTurns(p: Piece, reverse: bool)
    requires BespokeState(p)
    ensures Turn(Turn(p.state, p.orientations, reverse), p.orientations, !reverse) == p.state
  { TurnInverse(p.state, p.orientations, reverse); }

  /** Turning back undoes a turn exactly. */
  lemma BackUndoes(p: Piece, reverse: bool)
    requires Proper(p)
    ensures Rotated(Rotated(p, reverse), !reverse) == p
  {
    if Bespoke(p.kind) {
      var cell :| InShape(p, cell);
      BackUndoesArms(p, reverse, cell);
    } else {
      TurnInverse(p.orientation, p.orientations, reverse);
      if reverse { TurnOn(p); } else { TurnBack(p); }
      TurnLooksAtGrid(p, TurnedGrid(p, reverse), !reverse);
      hide TurnedGrid;
    }
  }

  // The turned grid depends on the grid and the square's side only.
  lemma TurnLooksAtGrid(p: Piece, g: PieceGrid, reverse: bool)
    ensures TurnedGrid(p.(cells := g), reverse) == TurnedGrid(Rotated(p, !reverse).(cells := g), reverse)
  {
    var q, r := p.(cells := g), Rotated(p, !reverse).(cells := g);
    assert q.rot == r.rot;
    forall i | 0 <= i < 8
      ensures TurnedGrid(q, reverse)[i] == TurnedGrid(r, reverse)[i]
    { assert forall j :: 0 <= j < 8 ==> TurnedColumn(q, i, reverse)[j] == TurnedColumn(r, i, reverse)[j]; }
  }

  function Times(p: Piece, n: nat): Piece { if n == 0 then p else Rotated(Times(p, n - 1), false) }

  lemma SameTurn(p: Piece, q: Piece, reverse: bool)
    requires p.cells == q.cells && p.rot == q.rot
    ensures TurnedGrid(p, reverse) == TurnedGrid(q, reverse)
  {
    forall i | 0 <= i < 8
      ensures TurnedGrid(p, reverse)[i] == TurnedGrid(q, reverse)[i]
    { assert forall j :: 0 <= j < 8 ==> TurnedColumn(p, i, reverse)[j] == TurnedColumn(q, i, reverse)[j]; }
  }

  // Two turns of a generic piece.
  lemma TwiceTurned(p: Piece)
    requires !Bespoke(p.kind) && p.orientations == 4 && 0 <= p.orientation < 4
    ensures var q := Rotated(Rotated(p, false), false);
      q == TwoTurns(p).(orientation := (p.orientation + 2) % 4)
  {
    SameTurn(Rotated(p, false), p.(cells := TurnedGrid(p, false)), false);
    hide TurnedGrid;
  }

  lemma GenericCycle(p: Piece)
    requires !Bespoke(p.kind) && p.orientations == 4 && 0 <= p.orientation < 4
    ensures Rotated(Rotated(Rotated(Rotated(p, false), false), false), false) == p
  {
    TwiceTurned(p);
    var q := Rotated(Rotated(p, false), false);
    TwiceTurned(q);
    FourTurns(p);
    HalfTurn(p);
    TwoTurnsOf(TwoTurns(p), q);
    HalfTurn(q);
    HalfTurn(TwoTurns(p));
    hide TwoTurns, Rotated;
  }

  lemma TwoTurnsOf(p: Piece, q: Piece)
    requires p.cells == q.cells && p.rot == q.rot
    ensures TwoTurns(p).cells == TwoTurns(q).cells
  {
    SameTurn(p, q, false);
    SameTurn(p.(cells := TurnedGrid(p, false)), q.(cells := TurnedGrid(q, false)), false);
    hide TurnedGrid;
  }

  // n turns of a bespoke piece: its shape follows its state.
  lemma {:induction false} BespokeTimes(p: Piece, n: nat, cell: Cell)
    requires Proper(p) && Bespoke(p.kind) && InShape(p, cell)
    ensures var q := Times(p, n);
      && q == p.(cells := q.cells, state := q.state, orientation := q.orientation)
      && Proper(q) && InShape(q, cell) && q.state == (p.state + n) % p.orientations
  {
    hide InShape, Proper, Rotated, NextState;
    if n == 0 {
      WholeStates(p);
    } else {
      BespokeTimes(p, n - 1, cell);
      var q := Times(p, n - 1);
      RotatedProper(q, false);
      OneTurn(q, cell);
      WholeStates(p);
      NextModulo(p.state + n - 1, p.orientations);
    }
  }

  lemma WholeStates(p: Piece)
    requires Proper(p) && Bespoke(p.kind)
    ensures p.orientations == 2 || p.orientations == 4 || p.orientations == 6
    ensures 0 <= p.state < p.orientations && p.state % p.orientations == p.state
  { hide InShape; }

  lemma OneTurn(q: Piece, cell: Cell)
    requires Proper(q) && Bespoke(q.kind) && InShape(q, cell)
    ensures var r := Rotated(q, false);
      && r == q.(cells := r.cells, state := r.state, orientation := r.orientation)
      && InShape(r, cell) && r.state == (q.state + 1) % q.orientations
  {
    ShapeTurns(q, false, cell);
    hide InShape, MoveArms, ArmsOf;
  }

  lemma NextModulo(x: nat, n: Turns)
    requires n == 2 || n == 4 || n == 6
    ensures (x % n + 1) % n == (x + 1) % n
  { if n == 2 { NextByTwo(x); } else if n == 4 { NextByFour(x); } else { NextBySix(x); } }

  lemma NextByTwo(x: nat)
    ensures (x % 2 + 1) % 2 == (x + 1) % 2
  {}

  lemma NextByFour(x: nat)
    ensures (x % 4 + 1) % 4 == (x + 1) % 4
  { assert x == 4 * (x / 4) + x % 4; }

  lemma NextBySix(x: nat)
    ensures (x % 6 + 1) % 6 == (x + 1) % 6
  { assert x == 6 * (x / 6) + x % 6; }

  /** A full cycle of turns restores every piece: two for a star, six for the weird long
      piece, four for the rest. */
  lemma CycleRestores(p: Piece)
    requires Proper(p)
    ensures Times(p, KindTurns(p.kind)) == p
  {
    if Bespoke(p.kind) {
      var cell :| InShape(p, cell);
      var n := KindTurns(p.kind);
      BespokeTimes(p, n, cell);
      var q := Times(p, n);
      WholeCycle(p.state, n);
      hide Times;
      assert q.state == p.state;
      DrawnOnce(p.cells, q.cells, ShapeOf(p.kind, p.state), cell);
    } else {
      GenericCycle(p);
      hide Rotated;
      assert Times(p, 1) == Rotated(Times(p, 0), false);
      assert Times(p, 2) == Rotated(Times(p, 1), false);
      assert Times(p, 3) == Rotated(Times(p, 2), false);
      assert Times(p, 4) == Rotated(Times(p, 3), false);
    }
  }

  lemma WholeCycle(x: nat, n: Turns)
    requires x < n && (n == 2 || n == 4 || n == 6)
    ensures (x + n) % n == x
  { if n == 2 {} else if n == 4 {} else {} }

  // ----- cells are conserved -----

  function Filled(p: Piece): set<(int, int)>
  { set i, j | 0 <= i < 8 && 0 <= j < 8 && p.cells[i][j].Some? :: (i, j) }

  // Where the generic turn takes a square.
  function TurnTo(rot: Side, s: (int, int), reverse: bool): (int, int)
  {
    if 0 <= s.0 < rot && 0 <= s.1 < rot then
      (if reverse then (rot - 1 - s.1, s.0) else (s.1, rot - 1 - s.0))
    else s
  }

  lemma TurnToBack(rot: Side, s: (int, int), reverse: bool)
    ensures TurnTo(rot, TurnTo(rot, s, reverse), !reverse) == s
  {}

  lemma {:induction false} ImageSize(a: set<(int, int)>, b: set<(int, int)>, rot: Side, reverse: bool)
    requires forall s :: s in a ==> TurnTo(rot, s, reverse) in b
    requires forall t :: t in b ==> TurnTo(rot, t, !reverse) in a
    ensures |a| == |b|
    decreases |a|
  {
    hide TurnTo;
    if a == {} {
      assert forall t :: t in b ==> TurnTo(rot, t, !reverse) in a;
      assert b == {};
    } else {
      var s :| s in a;
      var t := TurnTo(rot, s, reverse);
      forall s' | s' in a - {s}
        ensures TurnTo(rot, s', reverse) in b - {t}
      { TurnToBack(rot, s, reverse); TurnToBack(rot, s', reverse); }
      forall t' | t' in b - {t}
        ensures TurnTo(rot, t', !reverse) in a - {s}
      { TurnToBack(rot, t', !reverse); TurnToBack(rot, s, reverse); }
      ImageSize(a - {s}, b - {t}, rot, reverse);
    }
  }

  // The filled squares of a turned piece are those of the piece, turned.
  lemma GenericImage(p: Piece, reverse: bool)
    requires !Bespoke(p.kind)
    ensures forall s :: s in Filled(p) ==> TurnTo(p.rot, s, reverse) in Filled(Rotated(p, reverse))
    ensures forall t :: t in Filled(Rotated(p, reverse)) ==> TurnTo(p.rot, t, !reverse) in Filled(p)
  {
    var q := Rotated(p, reverse);
    forall s | s in Filled(p)
      ensures TurnTo(p.rot, s, reverse) in Filled(q)
    {
      var t := TurnTo(p.rot, s, reverse);
      assert q.cells[t.0][t.1] == TurnedAt(p, t.0, t.1, reverse) == p.cells[s.0][s.1];
    }
    forall t | t in Filled(q)
      ensures TurnTo(p.rot, t, !reverse) in Filled(p)
    { assert q.cells[t.0][t.1] == TurnedAt(p, t.0, t.1, reverse); }
  }

  lemma ShapeFilled(p: Piece, cell: Cell)
    requires BespokeState(p) && InShape(p, cell)
    ensures Filled(p) == ShapeOf(p.kind, p.state)
  {
    assert forall s :: s in ShapeOf(p.kind, p.state) ==> 0 <= s.0 < 8 && 0 <= s.1 < 8;
    hide ShapeOf;
    forall s | s in ShapeOf(p.kind, p.state)
      ensures s in Filled(p)
    { assert p.cells[s.0][s.1] == Some(cell); }
    forall s | s in Filled(p)
      ensures s in ShapeOf(p.kind, p.state)
    { assert p.cells[s.0][s.1].Some?; }
  }

  /** A turn neither loses nor adds a cell. */
  lemma CountConserved(p: Piece, reverse: bool)
    requires Proper(p)
    ensures |Filled(Rotated(p, reverse))| == |Filled(p)|
  {
    var q := Rotated(p, reverse);
    if Bespoke(p.kind) {
      var cell :| InShape(p, cell);
      ShapeTurns(p, reverse, cell);
      ShapeFilled(p, cell);
      ShapeFilled(q, cell);
    } else {
      GenericImage(p, reverse);
      ImageSize(Filled(p), Filled(q), p.rot, reverse);
    }
  }

  // ----- fitting -----

  // What a list of arms fills was filled before or is where an arm ends.
  lemma {:induction false} LeadsInto(s: set<(int, int)>, arms: seq<Arm>, t: set<(int, int)>)
    requires Leads(s, arms, t)
    ensures forall e :: e in t ==> e in s || exists k :: 0 <= k < |arms| && To(arms[k]) == e
    decreases |arms|
  {
    if arms != [] {
      LeadsInto(ArmMoved(s, arms[0]), arms[1..], t);
      forall e | e in t
        ensures e in s || exists k :: 0 <= k < |arms| && To(arms[k]) == e
      {
        if exists k :: 0 <= k < |arms[1..]| && To(arms[1..][k]) == e {
          var k :| 0 <= k < |arms[1..]| && To(arms[1..][k]) == e;
          assert To(arms[k + 1]) == e;
        } else {
          assert e in ArmMoved(s, arms[0]);
          assert e in s || e == To(arms[0]);
        }
      }
    }
  }

  // Every filled square of the piece, where it stands, is free on the board.
  lemma FilledFree(p: Piece, b: Board)
    ensures CanMoveTo(p, b, p.x, p.y) <==> forall s :: s in Filled(p) ==> !Occupied(b, p.x + s.0, p.y + s.1)
  {
    if CanMoveTo(p, b, p.x, p.y) {
      forall s | s in Filled(p)
        ensures !Occupied(b, p.x + s.0, p.y + s.1)
      { assert p.cells[s.0][s.1].Some?; }
    }
    if forall s :: s in Filled(p) ==> !Occupied(b, p.x + s.0, p.y + s.1) {
      forall i, j | 0 <= i < 8 && 0 <= j < 8 && p.cells[i][j].Some?
        ensures !Occupied(b, p.x + i, p.y + j)
      { assert (i, j) in Filled(p); }
    }
  }

  lemma BespokeFits(p: Piece, b: Board, reverse: bool, cell: Cell)
    requires Proper(p) && Bespoke(p.kind) && InShape(p, cell)
    requires CanMoveTo(p, b, p.x, p.y) && CanRotate(p, b, reverse)
    ensures var q := Rotated(p, reverse);
      CanMoveTo(q, b, q.x, q.y) && CanRotate(q, b, !reverse)
  {
    hide ShapeOf, ArmsOf, MoveArms, Leads, Filled, InShape, Occupied, CanMoveTo, Proper, EndIn;
    var q, arms := Rotated(p, reverse), ArmsOf(p, reverse);
    BespokeStates(p);
    ShapeTurns(p, reverse, cell);
    ShapeFilled(p, cell);
    ShapeFilled(q, cell);
    ArmsLead(p, reverse);
    LeadsInto(Filled(p), arms, Filled(q));
    FilledFree(p, b);
    forall s | s in Filled(q)
      ensures !Occupied(b, q.x + s.0, q.y + s.1)
    {
      if s !in Filled(p) {
        var k :| 0 <= k < |arms| && To(arms[k]) == s;
        assert !Occupied(b, p.x + arms[k].ti, p.y + arms[k].tj);
      }
    }
    FilledFree(q, b);
    BackFits(p, q, b, reverse, cell);
  }

  lemma BespokeStates(p: Piece)
    requires Proper(p) && Bespoke(p.kind)
    ensures BespokeState(p)
  {}

  // The arms back end on squares the piece filled before.
  lemma BackFits(p: Piece, q: Piece, b: Board, reverse: bool, cell: Cell)
    requires BespokeState(p) && InShape(p, cell) && q == Rotated(p, reverse) && BespokeState(q)
    requires CanMoveTo(p, b, p.x, p.y)
    ensures CanRotate(q, b, !reverse)
  {
    hide ShapeOf, ArmsOf, MoveArms, Leads, Filled, InShape, Occupied, CanMoveTo;
    var back := ArmsOf(q, !reverse);
    ShapeFilled(p, cell);
    TurnInverse(p.state, p.orientations, reverse);
    ArmsLead(q, !reverse);
    FilledFree(p, b);
    forall k | 0 <= k < |back|
      ensures !Occupied(b, q.x + back[k].ti, q.y + back[k].tj)
    { assert To(back[k]) in Filled(p); }
  }

  lemma GenericFits(p: Piece, b: Board, reverse: bool)
    requires !Bespoke(p.kind) && CanMoveTo(p, b, p.x, p.y) && CanRotate(p, b, reverse)
    ensures var q := Rotated(p, reverse);
      CanMoveTo(q, b, q.x, q.y) && CanRotate(q, b, !reverse)
  {
    hide Occupied;
    var q := Rotated(p, reverse);
    forall i, j | 0 <= i < 8 && 0 <= j < 8 && q.cells[i][j].Some?
      ensures !Occupied(b, q.x + i, q.y + j)
    { assert q.cells[i][j] == TurnedAt(p, i, j, reverse); }
    assert forall i, j :: 0 <= i < q.rot && 0 <= j < q.rot ==> TurnedAt(q, i, j, !reverse) == p.cells[i][j];
    assert TurnFits(q, b, !reverse);
  }

  /** The rotation law. A refused rotation changes nothing. A successful one of a piece that
      stands clear leaves it clear, cell for cell, and can be undone on the same board, which
      restores the piece exactly. */
  lemma RotationLaw(p: Piece, b: Board, reverse: bool)
    requires Proper(p)
    ensures !CanRotate(p, b, reverse) ==> Rotate(p, b, reverse) == p
    ensures |Filled(Rotate(p, b, reverse))| == |Filled(p)|
    ensures CanRotate(p, b, reverse) && CanMoveTo(p, b, p.x, p.y) ==>
      var q := Rotate(p, b, reverse);
      && CanMoveTo(q, b, q.x, q.y) && Proper(q)
      && CanRotate(q, b, !reverse) && Rotate(q, b, !reverse) == p
  {
    CountConserved(p, reverse);
    if CanRotate(p, b, reverse) && CanMoveTo(p, b, p.x, p.y) {
      RotatedProper(p, reverse);
      BackUndoes(p, reverse);
      if Bespoke(p.kind) {
        var cell :| InShape(p, cell);
        BespokeFits(p, b, reverse, cell);
      } else {
        GenericFits(p, b, reverse);
      }
    }
    hide Rotated, CanRotate, CanMoveTo, Filled;
  }
}
