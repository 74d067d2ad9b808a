/** Every representable game survives the keyframe, and the keyframe's own content fixes where
    it ends. */
module KeyframeLaws {
  import opened Wrappers
  import opened Cells
  import opened Rng
  import opened Boards
  import opened Pieces
  import opened PieceStream
  import opened Arsenals
  import opened Engine
  import opened Keyframes

  // ----- what fits -----

  predicate All32Fit(d: seq<int>) { forall v :: v in d ==> Fits32(v) }

  predicate PieceFits(p: Piece)
  {
    && RotOk(p.rot) && 0 <= p.orientation < p.orientations
    && Fits32(p.x) && Fits32(p.y) && Fits32(p.color) && Fits32(p.orientations) && Fits32(p.state)
    && forall i, j :: 0 <= i < 8 && 0 <= j < 8 ==> SquareFits(p.cells[i][j])
  }

  predicate GridFits(c: Grid) { forall x, y :: 0 <= x < 10 && 0 <= y < 28 ==> SquareFits(c[y][x]) }

  predicate CountersFit(s: Saved)
  {
    var g := s.g;
    && All32Fit(Scalars(g)) && All32Fit(g.curses.active) && All32Fit(g.curses.remaining)
    && (forall i :: 0 <= i < 10 ==> g.arsenal.quantity[i] <= 65535)
    && Fits32(g.pieces.hapOn) && Fits32(g.pieces.oldPiece)
    && All32Fit(g.board.active) && -0x8000 <= g.board.reason < 0x8000
    && 0 <= g.lockSeq < MOD64 && 0 <= g.lockHash < 0x1_0000_0000
  }

  // What the code's own invariants give: no half-empty slot, a sane piece, a swapped board
  // of board length.
  predicate Shapely(g: RawSim)
  {
    && Tidy(g.arsenal)
    && (g.motion.current.Some? ==> PieceFits(g.motion.current.value))
    && (g.curses.swap.Some? ==> |g.curses.swap.value| == 1120 && All32Fit(g.curses.swap.value))
    && GridFits(g.board.cells)
  }

  predicate Representable(s: Saved)
  { Shapely(s.g) && CountersFit(s) && |s.g.curses.pending| <= 1024 }

  // ----- parts of a list -----

  lemma Middle(a: seq<int>, b: seq<int>, c: seq<int>)
    ensures Slice(a + b + c, |a|, |b|) == b
    ensures forall k :: 0 <= k < |b| ==> Peek(a + b + c, |a| + k) == b[k]
  {
    assert forall k :: 0 <= k < |b| ==> Peek(a + b + c, |a| + k) == b[k];
    assert forall k :: 0 <= k < |b| ==> Slice(a + b + c, |a|, |b|)[k] == b[k];
  }

  lemma All32Is(d: seq<int>)
    requires All32Fit(d)
    ensures All32(d) == d
  { assert forall k :: 0 <= k < |d| ==> d[k] in d; }

  // ----- squares -----

  lemma {:induction false} RowAt(r: Row, n: nat, x: nat, k: nat)
    requires x < n <= 10 && k < 4
    ensures ExportRow(r, n)[4 * x + k] == EncodeSquare(r[x])[k]
  {
    hide EncodeSquare;
    if x < n - 1 { RowAt(r, n - 1, x, k); }
  }

  lemma {:induction false} CellsAt(c: Grid, n: nat, x: nat, y: nat, k: nat)
    requires y < n <= 28 && x < 10 && k < 4
    ensures ExportCells(c, n)[40 * y + 4 * x + k] == EncodeSquare(c[y][x])[k]
  {
    hide EncodeSquare;
    if y < n - 1 { CellsAt(c, n - 1, x, y, k); } else { RowAt(c[y], 10, x, k); }
  }

  lemma {:induction false} ColumnAt(c: PieceColumn, n: nat, j: nat, k: nat)
    requires j < n <= 8 && k < 4
    ensures ExportColumn(c, n)[4 * j + k] == EncodeSquare(c[j])[k]
  {
    hide EncodeSquare;
    if j < n - 1 { ColumnAt(c, n - 1, j, k); }
  }

  lemma {:induction false} ColumnsAt(g: PieceGrid, n: nat, i: nat, j: nat, k: nat)
    requires i < n <= 8 && j < 8 && k < 4
    ensures ExportColumns(g, n)[32 * i + 4 * j + k] == EncodeSquare(g[i][j])[k]
  {
    hide EncodeSquare;
    if i < n - 1 { ColumnsAt(g, n - 1, i, j, k); } else { ColumnAt(g[i], 8, j, k); }
  }

  lemma {:induction false} RowFits(r: Row, n: nat)
    requires n <= 10 && forall x :: 0 <= x < 10 ==> SquareFits(r[x])
    ensures All32Fit(ExportRow(r, n))
  {
    hide EncodeSquare;
    if n > 0 {
      RowFits(r, n - 1);
      DecodeEncode(r[n - 1]);
    }
  }

  lemma {:induction false} ExportFits(c: Grid, n: nat)
    requires n <= 28 && GridFits(c)
    ensures All32Fit(ExportCells(c, n))
  {
    hide ExportRow;
    if n > 0 {
      ExportFits(c, n - 1);
      RowFits(c[n - 1], 10);
    }
  }

  lemma SquareBack(q: seq<int>, o: nat, s: Square)
    requires o + 4 <= |q| && SquareFits(s)
    requires forall k: nat :: k < 4 ==> q[o + k] == EncodeSquare(s)[k]
    ensures DecodeSquare(As32(q[o]), As32(q[o + 1]), As32(q[o + 2]), As32(q[o + 3])) == s
  {
    DecodeEncode(s);
    assert q[o + 0] == EncodeSquare(s)[0];
    hide EncodeSquare, DecodeSquare, As32;
  }

  /** A board's grid survives its export. */
  lemma GridBack(b: Board)
    requires GridFits(b.cells)
    ensures ImportGrid(All32(ExportBoard(b))) == b.cells
  {
    hide EncodeSquare, DecodeSquare, ExportCells;
    var d := ExportBoard(b);
    forall y | 0 <= y < 28
      ensures ImportRow(All32(d), y) == b.cells[y]
    {
      forall x | 0 <= x < 10
        ensures ImportSquare(All32(d), x, y) == b.cells[y][x]
      {
        forall k: nat | k < 4
          ensures d[40 * y + 4 * x + k] == EncodeSquare(b.cells[y][x])[k]
        { CellsAt(b.cells, 28, x, y, k); }
        SquareBack(d, 40 * y + 4 * x, b.cells[y][x]);
      }
    }
  }

  lemma PieceGridBack(p: Piece)
    requires PieceFits(p)
    ensures BodyGrid(PieceBody(p)) == p.cells
  {
    hide EncodeSquare, DecodeSquare, ExportColumns;
    var b := PieceBody(p);
    forall i | 0 <= i < 8
      ensures BodyColumn(b, i) == p.cells[i]
    {
      forall j | 0 <= j < 8
        ensures BodySquare(b, i, j) == p.cells[i][j]
      {
        forall k: nat | k < 4
          ensures b[8 + 32 * i + 4 * j + k] == EncodeSquare(p.cells[i][j])[k]
        { ColumnsAt(p.cells, 8, i, j, k); }
        SquareBack(b, 8 + 32 * i + 4 * j, p.cells[i][j]);
      }
    }
  }

  lemma PieceBack(p: Piece)
    requires PieceFits(p)
    ensures BodyOk(PieceBody(p)) && BodyPiece(PieceBody(p)) == p
  {
    hide ExportColumns, BodyGrid, KindFromId, KindId;
    PieceGridBack(p);
    var b := PieceBody(p);
    assert b[0] == KindId(p.kind) && b[1] == p.x && b[2] == p.y && b[3] == p.color && b[4] == p.rot
      && b[5] == p.orientation && b[6] == p.orientations && b[7] == p.state;
    assert AsWord(p.rot) == p.rot;
    KindBack(p.kind);
  }

  lemma KindBack(k: PieceKind)
    ensures KindFromId(KindId(k)) == Some(k)
  {}

  // ----- the arsenal -----

  lemma {:induction false} ArsenalAt(a: Arsenal, n: nat, i: nat)
    requires i < n <= 10
    ensures ExportArsenal(a, n)[2 * i] == (if a.rep[i].Some? then a.rep[i].value else -1)
    ensures ExportArsenal(a, n)[2 * i + 1] == a.quantity[i]
  { if i < n - 1 { ArsenalAt(a, n - 1, i); } }

  lemma ArsenalBack(a: Arsenal)
    requires Tidy(a) && forall i :: 0 <= i < 10 ==> a.quantity[i] <= 65535
    ensures ImportArsenal(All32(ExportArsenal(a, 10))) == a
  {
    var d := All32(ExportArsenal(a, 10));
    forall i: nat | i < 10
      ensures ImportSlot(d[2 * i], d[2 * i + 1]) == (a.rep[i], a.quantity[i])
    { ArsenalAt(a, 10, i); }
    hide ExportArsenal, ImportSlot;
    assert ImportArsenal(d).rep == a.rep;
    assert ImportArsenal(d).quantity == a.quantity;
  }

  // ----- the head and the tail -----

  lemma HeadParts(s: Saved)
    ensures var h := Head(s);
      && h[0] == KEYFRAME_VERSION && h[1..23] == Scalars(s.g) && h[23..29] == Scores(s)
      && h[29] == Signed(s.g.rng) && h[30..49] == SignedAll(s.g.pieces.keep)
      && h[49] == s.g.pieces.hapOn && h[50] == Bit(s.g.pieces.broken) && h[51] == s.g.pieces.oldPiece
      && h[52..86] == s.g.curses.active && h[86..120] == s.g.curses.remaining
      && h[120..140] == ExportArsenal(s.g.arsenal, 10)
  {
    hide Scalars, Scores, Signed, SignedAll, ExportArsenal;
    var a := [KEYFRAME_VERSION] + Scalars(s.g);
    var b := a + Scores(s);
    var c := b + [Signed(s.g.rng)] + SignedAll(s.g.pieces.keep);
    var e := c + [s.g.pieces.hapOn, Bit(s.g.pieces.broken), s.g.pieces.oldPiece];
    assert Head(s) == e + s.g.curses.active + s.g.curses.remaining + ExportArsenal(s.g.arsenal, 10);
  }

  lemma KeepBack(k: KeepTable)
    ensures AllWords(SignedAll(k)) == k
  { hide Signed; }

  lemma TailParts(g: RawSim)
    requires 0 <= g.lockSeq < MOD64
    ensures var t := Tail(g);
      && t[..34] == g.board.active && t[34] == Bit(g.board.upside) && t[35] == Bit(g.board.computer)
      && t[36] == Bit(g.board.idiot) && t[37] == g.board.reason && t[38] == Signed(g.lockSeq) && t[39] == g.lockHash
  { hide Signed; }

  // ----- the whole keyframe -----

  // The pieces of a snapshot, in order.
  lemma Layout(s: Saved)
    requires 0 <= s.g.lockSeq < MOD64
    ensures var d := Snapshot(s);
      var p, n := PieceBlock(s.g.motion.current), s.g.curses.pending;
      var w, e, t := SwapBlock(s.g.curses.swap), ExportBoard(s.g.board), Tail(s.g);
      var o1 := 140 + |p|; var o2 := o1 + 1 + |n|; var o3 := o2 + |w|;
      && |d| == o3 + 1160
      && Slice(d, 0, 140) == Head(s)
      && (forall k :: 0 <= k < |p| ==> Peek(d, 140 + k) == p[k])
      && Peek(d, o1) == |n| && (forall k :: 0 <= k < |n| ==> Peek(d, o1 + 1 + k) == n[k])
      && (forall k :: 0 <= k < |w| ==> Peek(d, o2 + k) == w[k])
      && Slice(d, o3, 1120) == e && Slice(d, o3 + 1120, 40) == t
  {
    hide Head, PieceBlock, SwapBlock, ExportBoard, Tail, Slice, Peek;
    var h, p, n := Head(s), PieceBlock(s.g.motion.current), s.g.curses.pending;
    var w, e, t := SwapBlock(s.g.curses.swap), ExportBoard(s.g.board), Tail(s.g);
    var d := Snapshot(s);
    assert d == [] + h + (p + [|n|] + n + w + e + t);
    Middle([], h, p + [|n|] + n + w + e + t);
    assert d == h + p + ([|n|] + n + w + e + t);
    Middle(h, p, [|n|] + n + w + e + t);
    assert d == (h + p) + [|n|] + (n + w + e + t);
    Middle(h + p, [|n|], n + w + e + t);
    assert Peek(d, |h + p| + 0) == [|n|][0];
    assert d == (h + p + [|n|]) + n + (w + e + t);
    Middle(h + p + [|n|], n, w + e + t);
    assert d == (h + p + [|n|] + n) + w + (e + t);
    Middle(h + p + [|n|] + n, w, e + t);
    assert d == (h + p + [|n|] + n + w) + e + t;
    Middle(h + p + [|n|] + n + w, e, t);
    assert d == (h + p + [|n|] + n + w + e) + t + [];
    Middle(h + p + [|n|] + n + w + e, t, []);
  }

  lemma SliceIs(d: seq<int>, o: nat, b: seq<int>)
    requires forall k :: 0 <= k < |b| ==> Peek(d, o + k) == b[k]
    ensures Slice(d, o, |b|) == b
  {}

  lemma BlockBehindFlag(d: seq<int>, o: nat, b: seq<int>)
    requires forall k :: 0 <= k < |b| + 1 ==> Peek(d, o + k) == ([1] + b)[k]
    ensures Peek(d, o) == 1 && Slice(d, o + 1, |b|) == b
  {
    hide Slice;
    assert Peek(d, o + 0) == ([1] + b)[0];
    forall k | 0 <= k < |b|
      ensures Peek(d, o + 1 + k) == b[k]
    { assert Peek(d, o + (k + 1)) == ([1] + b)[k + 1]; }
    SliceIs(d, o + 1, b);
  }

  lemma FlagOnly(d: seq<int>, o: nat)
    requires forall k :: 0 <= k < 1 ==> Peek(d, o + k) == [0][k]
    ensures Peek(d, o) == 0
  { assert Peek(d, o + 0) == [0][0]; }

  // The reader's cursor finds every block where the writer put it.
  lemma Found(s: Saved)
    requires 0 <= s.g.lockSeq < MOD64
    requires s.g.curses.swap.Some? ==> |s.g.curses.swap.value| == 1120
    ensures var d := Snapshot(s);
      var cur, pend, swap := s.g.motion.current, s.g.curses.pending, s.g.curses.swap;
      && Slice(d, 0, 140) == Head(s)
      && Peek(d, HEAD) == Bit(cur.Some?)
      && (cur.Some? ==> Slice(d, HEAD + 1, 264) == PieceBody(cur.value))
      && Peek(d, AfterPiece(d)) == |pend|
      && (forall k :: 0 <= k < |pend| ==> Peek(d, AfterPiece(d) + 1 + k) == pend[k])
      && Peek(d, AfterPending(d)) == Bit(swap.Some?)
      && (swap.Some? ==> Slice(d, AfterPending(d) + 1, 1120) == swap.value)
      && Slice(d, AfterSwap(d), 1120) == ExportBoard(s.g.board)
      && Slice(d, AfterSwap(d) + 1120, 40) == Tail(s.g)
      && EndOf(d) == |d|
  {
    hide Head, ExportBoard, Tail, Snapshot, PieceBody, Peek, Slice;
    Layout(s);
    var d := Snapshot(s);
    if s.g.motion.current.Some? {
      BlockBehindFlag(d, 140, PieceBody(s.g.motion.current.value));
    } else {
      FlagOnly(d, 140);
    }
    var o2 := 140 + |PieceBlock(s.g.motion.current)| + 1 + |s.g.curses.pending|;
    if s.g.curses.swap.Some? {
      BlockBehindFlag(d, o2, s.g.curses.swap.value);
    } else {
      FlagOnly(d, o2);
    }
  }

  lemma PendingBack(s: Saved)
    requires Representable(s)
    ensures var d := Snapshot(s);
      PendingOk(d, AfterPiece(d)) && RestoredPending(d, AfterPiece(d)) == s.g.curses.pending
  {
    Found(s);
    var d := Snapshot(s);
    var o := AfterPiece(d);
    hide Snapshot, AfterPiece, Peek;
    assert forall k :: 0 <= k < |s.g.curses.pending| ==> IndexAt(d, o, k) == s.g.curses.pending[k];
  }

  lemma BitBack(b: bool)
    ensures (Bit(b) != 0) == b && 0 <= Bit(b) <= 1
  {}

  lemma PhaseBack(p: Phase)
    ensures PhaseOf(PhaseCode(p)) == p && 0 <= PhaseCode(p) <= 2
  {}

  // The head's scalars, each where the reader expects it.
  lemma ScalarsBack(s: Saved)
    requires All32Fit(Scalars(s.g))
    ensures var h, m, f := Head(s), s.g.motion, s.g.frame;
      && h[12] == Bit(m.dropping) && h[14] == PhaseCode(m.phase) && h[17] == Bit(s.g.paused)
      && h[21] == Bit(s.g.tally.inBazaar)
      && Frame(As32(h[3]), As32(h[4]), As32(h[5]), As32(h[6]), As32(h[7]), As32(h[8]), As32(h[9])) == f
      && As32(h[1]) == m.x && As32(h[2]) == m.y && As32(h[10]) == m.dropTime && As32(h[11]) == m.slideTime
      && As32(h[13]) == m.sliding && As32(h[15]) == m.dropAccum && As32(h[16]) == m.slideAccum
      && As32(h[18]) == m.hatterAccum && As32(h[19]) == m.slickAccum && As32(h[20]) == m.slickDir
      && As32(h[22]) == s.g.tally.tilBazaar
      && h[23..29] == Scores(s)
  {
    HeadParts(s);
    hide Head, As32, PhaseCode;
    var h, v := Head(s), Scalars(s.g);
    assert forall k :: 0 <= k < 22 ==> h[1 + k] == h[1..23][k] == v[k];
    assert forall k :: 0 <= k < 22 ==> v[k] in v;
    assert h[1 + 0] == v[0] && h[1 + 1] == v[1] && h[1 + 2] == v[2] && h[1 + 3] == v[3] && h[1 + 4] == v[4];
    assert h[1 + 5] == v[5] && h[1 + 6] == v[6] && h[1 + 7] == v[7] && h[1 + 8] == v[8] && h[1 + 9] == v[9];
    assert h[1 + 10] == v[10] && h[1 + 11] == v[11] && h[1 + 12] == v[12] && h[1 + 13] == v[13] && h[1 + 14] == v[14];
    assert h[1 + 15] == v[15] && h[1 + 16] == v[16] && h[1 + 17] == v[17] && h[1 + 18] == v[18] && h[1 + 19] == v[19];
    assert h[1 + 20] == v[20] && h[1 + 21] == v[21];
  }

  lemma ScoresBack(s: Saved)
    ensures var h := Head(s);
      && h[23] == s.g.tally.score && h[24] == s.opScore && h[25] == s.g.tally.lines
      && h[26] == s.g.tally.opLines && h[27] == s.g.tally.funds && h[28] == s.opFunds
  {
    HeadParts(s);
    hide Head;
    var h, v := Head(s), Scores(s);
    assert forall k :: 0 <= k < 6 ==> h[23 + k] == h[23..29][k] == v[k];
    assert h[23 + 0] == v[0] && h[23 + 1] == v[1] && h[23 + 2] == v[2] && h[23 + 3] == v[3];
    assert h[23 + 4] == v[4] && h[23 + 5] == v[5];
  }

  lemma CursesBack(s: Saved)
    requires Representable(s)
    ensures var d := Snapshot(s);
      PendingOk(d, AfterPiece(d)) && RestoredCurses(d, Slice(d, 0, 140)) == s.g.curses
  {
    Found(s);
    PendingBack(s);
    HeadParts(s);
    hide Head, Snapshot, RestoredPending, AfterPiece, AfterPending, PendingOk, Slice;
    All32Is(s.g.curses.active);
    All32Is(s.g.curses.remaining);
    if s.g.curses.swap.Some? { All32Is(s.g.curses.swap.value); }
    hide All32;
  }

  lemma MotionBack(s: Saved)
    requires Representable(s)
    ensures var d := Snapshot(s);
      && (Peek(d, HEAD) != 0 ==> BodyOk(Slice(d, HEAD + 1, 264)))
      && RestoredMotion(d, Slice(d, 0, 140)) == s.g.motion
  {
    Found(s);
    ScalarsBack(s);
    PhaseBack(s.g.motion.phase);
    BitBack(s.g.motion.dropping);
    BitBack(s.g.motion.current.Some?);
    if s.g.motion.current.Some? { PieceBack(s.g.motion.current.value); }
    hide Head, Snapshot, Slice, BodyOk, BodyPiece, PieceBody, As32, PhaseOf, PhaseCode, Scalars;
  }

  lemma BoardBack(s: Saved)
    requires Representable(s)
    ensures var d := Snapshot(s);
      RestoredBoard(Slice(d, AfterSwap(d), 1120), Slice(d, AfterSwap(d) + 1120, 40)) == s.g.board
  {
    Found(s);
    TailParts(s.g);
    GridBack(s.g.board);
    All32Is(s.g.board.active);
    BitBack(s.g.board.upside);
    BitBack(s.g.board.computer);
    BitBack(s.g.board.idiot);
    hide Snapshot, Slice, AfterSwap, Tail, ExportBoard, ImportGrid, All32, As16;
    assert As16(s.g.board.reason) == s.g.board.reason;
  }

  lemma SnapshotRestorable(s: Saved)
    requires Representable(s)
    ensures Restorable(Snapshot(s))
  {
    Found(s);
    HeadParts(s);
    ScalarsBack(s);
    PhaseBack(s.g.motion.phase);
    PendingBack(s);
    MotionBack(s);
    BitBack(s.g.curses.swap.Some?);
    hide Head, Snapshot, Slice, BodyOk, PendingOk, AfterPiece, AfterPending, AfterSwap, RestoredMotion;
  }

  lemma StreamBack(s: Saved)
    requires Fits32(s.g.pieces.hapOn) && Fits32(s.g.pieces.oldPiece)
    ensures RestoredStream(Head(s)) == s.g.pieces
  {
    HeadParts(s);
    KeepBack(s.g.pieces.keep);
    BitBack(s.g.pieces.broken);
    hide Head, AllWords, SignedAll, As32;
    assert As32(s.g.pieces.hapOn) == s.g.pieces.hapOn && As32(s.g.pieces.oldPiece) == s.g.pieces.oldPiece;
  }

  lemma TallyBack(s: Saved)
    requires All32Fit(Scalars(s.g))
    ensures RestoredTally(Head(s)) == s.g.tally && RestoredFrame(Head(s)) == s.g.frame
  {
    ScalarsBack(s);
    ScoresBack(s);
    BitBack(s.g.tally.inBazaar);
    hide Head, Scalars, As32;
  }

  lemma RestoredIs(s: Saved)
    requires Representable(s)
    ensures Restorable(Snapshot(s)) && Restored(Snapshot(s)) == s
  {
    hide Head, Snapshot, Slice, Restorable, AfterSwap, Tail, RestoredMotion, RestoredBoard, RestoredCurses,
      RestoredStream, RestoredTally, RestoredFrame, ImportArsenal, ExportArsenal, All32, As32, Signed, AsWord,
      ExportBoard, PieceBody, Peek, BodyOk, PendingOk, AfterPiece, AfterPending, EndOf, PieceFits, GridFits,
        All32Fit, Tidy;
    SnapshotRestorable(s);
    Found(s);
    HeadParts(s);
    TailParts(s.g);
    StreamBack(s);
    TallyBack(s);
    ScoresBack(s);
    ScalarsBack(s);
    CursesBack(s);
    MotionBack(s);
    BoardBack(s);
    ArsenalBack(s.g.arsenal);
    BitBack(s.g.paused);
    assert AsWord(Signed(s.g.rng)) == s.g.rng && AsWord(Signed(s.g.lockSeq)) == s.g.lockSeq;
  }

  /** The keyframe codec: a snapshot is accepted and rebuilds every field. */
  lemma RoundTrip(s: Saved, other: Saved)
    requires Representable(s)
    ensures Restore(other, Snapshot(s)) == (s, true)
  {
    hide Restorable, Restored, Representable, Snapshot;
    RestoredIs(s);
  }

  // A longer queue is written, and its keyframe refused.
  lemma LongQueue(s: Saved, other: Saved)
    requires 0 <= s.g.lockSeq < MOD64 && |s.g.curses.pending| > 1024
    requires s.g.curses.swap.Some? ==> |s.g.curses.swap.value| == 1120
    ensures Restore(other, Snapshot(s)) == (other, false)
  {
    hide Snapshot, Slice, HeadOk, BodyOk, Restored;
    Found(s);
  }

  /** The codec's exact limit: it rebuilds every field if and only if at most 1024 weapons are
      pending, and otherwise refuses its own keyframe. */
  lemma RoundTripExactly(s: Saved, other: Saved)
    requires Shapely(s.g) && CountersFit(s)
    ensures Restore(other, Snapshot(s)) == if |s.g.curses.pending| <= 1024 then (s, true) else (other, false)
  {
    hide Restore, Snapshot;
    if |s.g.curses.pending| <= 1024 { RoundTrip(s, other); } else { LongQueue(s, other); }
  }

  // ----- where a keyframe ends -----

  lemma SamePrefix(d: seq<int>, e: seq<int>, i: nat)
    requires d <= e && i < |d|
    ensures Peek(e, i) == Peek(d, i)
  {}

  /** No proper prefix of an accepted keyframe and no proper extension of one is accepted. */
  lemma PrefixFree(d: seq<int>, e: seq<int>)
    requires d <= e && Restorable(d) && Restorable(e)
    ensures d == e
  {
    hide HeadOk, BodyOk, Slice;
    SamePrefix(d, e, HEAD);
    assert AfterPiece(d) == AfterPiece(e);
    SamePrefix(d, e, AfterPiece(d));
    assert AfterPending(d) == AfterPending(e);
    SamePrefix(d, e, AfterPending(d));
    assert EndOf(d) == EndOf(e);
  }
}
