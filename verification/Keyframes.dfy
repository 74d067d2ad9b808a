/** The full-state keyframe (rust/bt-core/src/game.rs:899-1179): a flat list of 64-bit values,
    and what reading one back yields. */
module Keyframes {
  import opened Wrappers
  import opened Cells
  import opened Weapons
  import opened Rng
  import opened Boards
  import opened Pieces
  import opened PieceStream
  import opened Arsenals
  import opened Engine

  const KEYFRAME_VERSION: int := 2

  // Everything a keyframe carries. A malformed one may hold a keep table from which no
  // piece can be drawn, so the game part is not yet a Sim.
  datatype Saved = Saved(g: RawSim, opScore: int, opFunds: int)

  // ----- integer widths -----

  function As32(v: int): (r: int)
    ensures Fits32(r)
    ensures Fits32(v) ==> r == v
  { (v + 0x8000_0000) % 0x1_0000_0000 - 0x8000_0000 }

  function As16(v: int): (r: int)
    ensures -0x8000 <= v < 0x8000 ==> r == v
  { (v + 0x8000) % 0x1_0000 - 0x8000 }

  function AsWord(v: int): Word { v % 0x1_0000_0000_0000_0000 }

  // A 64-bit word as the signed value with the same bits.
  function Signed(w: Word): (r: int)
    ensures AsWord(r) == w
  { if w < 0x8000_0000_0000_0000 then w else w - 0x1_0000_0000_0000_0000 }

  // ----- reading -----

  // A read past the end yields 0; the keyframe is refused in the end.
  function Peek(d: seq<int>, i: nat): int { if i < |d| then d[i] else 0 }

  function Slice(d: seq<int>, o: nat, n: nat): (r: seq<int>)
    ensures |r| == n
  { seq(n, k requires 0 <= k < n => Peek(d, o + k)) }

  function All32(d: seq<int>): (r: seq<int>)
    ensures |r| == |d|
  { seq(|d|, k requires 0 <= k < |d| => As32(d[k])) }

  function AllWords(d: seq<int>): (r: seq<Word>)
    ensures |r| == |d|
  { seq(|d|, k requires 0 <= k < |d| => AsWord(d[k])) }

  // ----- the head: 140 values -----

  function PhaseCode(p: Phase): int { match p case Falling => 0 case Sliding => 1 case Over => 2 }

  function PhaseOf(v: int): Phase { if v == 0 then Falling else if v == 1 then Sliding else Over }

  function Scalars(g: RawSim): (r: seq<int>)
    ensures |r| == 22
  {
    var m, f := g.motion, g.frame;
    [m.x, m.y, f.defX, f.defY, f.deltaY, f.leftX, f.rightX, f.baseDropTime, f.fastDropTime,
     m.dropTime, m.slideTime, Bit(m.dropping), m.sliding, PhaseCode(m.phase), m.dropAccum, m.slideAccum,
     Bit(g.paused), m.hatterAccum, m.slickAccum, m.slickDir, Bit(g.tally.inBazaar), g.tally.tilBazaar]
  }

  function Scores(s: Saved): (r: seq<int>)
    ensures |r| == 6
  { [s.g.tally.score, s.opScore, s.g.tally.lines, s.g.tally.opLines, s.g.tally.funds, s.opFunds] }

  function SignedAll(k: KeepTable): (r: seq<int>)
    ensures |r| == 19
  { seq(19, i requires 0 <= i < 19 => Signed(k[i])) }

  function Head(s: Saved): (r: seq<int>)
    ensures |r| == 140
  {
    [KEYFRAME_VERSION] + Scalars(s.g) + Scores(s) + [Signed(s.g.rng)] + SignedAll(s.g.pieces.keep)
    + [s.g.pieces.hapOn, Bit(s.g.pieces.broken), s.g.pieces.oldPiece]
    + s.g.curses.active + s.g.curses.remaining + ExportArsenal(s.g.arsenal, 10)
  }

  predicate HeadOk(h: seq<int>)
    requires |h| == 140
  { h[0] == KEYFRAME_VERSION && 0 <= h[14] <= 2 }

  // Slot by slot; nothing, or nothing of it, empties the slot.
  function ImportSlot(token: int, qty: int): (Option<WeaponToken>, nat)
  {
    var q := if qty < 0 then 0 else if qty > 65535 then 65535 else qty;
    if FromIndex(token).None? || q == 0 then (None, 0) else (FromIndex(token), q)
  }

  function ImportArsenal(d: seq<int>): Arsenal
    requires |d| == 20
  {
    Arsenal(seq(10, i requires 0 <= i < 10 => ImportSlot(d[2 * i], d[2 * i + 1]).0),
            seq(10, i requires 0 <= i < 10 => ImportSlot(d[2 * i], d[2 * i + 1]).1))
  }

  // ----- the falling piece: a flag and 264 values -----

  function ExportColumn(c: PieceColumn, n: nat): (q: seq<int>)
    requires n <= 8
    ensures |q| == 4 * n
  { if n == 0 then [] else ExportColumn(c, n - 1) + EncodeSquare(c[n - 1]) }

  function ExportColumns(g: PieceGrid, n: nat): (q: seq<int>)
    requires n <= 8
    ensures |q| == 32 * n
  { if n == 0 then [] else ExportColumns(g, n - 1) + ExportColumn(g[n - 1], 8) }

  function PieceBody(p: Piece): (r: seq<int>)
    ensures |r| == 264
  {
    [KindId(p.kind), p.x, p.y, p.color, p.rot, p.orientation, p.orientations, p.state] + ExportColumns(p.cells, 8)
  }

  function PieceBlock(p: Option<Piece>): seq<int>
  { if p.Some? then [1] + PieceBody(p.value) else [0] }

  predicate RotOk(rot: int) { rot == 0 || rot == 3 || rot == 4 || rot == 8 }

  // The geometry a later rotation relies on.
  predicate BodyOk(b: seq<int>)
    requires |b| == 264
  {
    && KindFromId(As32(b[0])).Some?
    && RotOk(AsWord(b[4]))
    && As32(b[6]) > 0 && 0 <= As32(b[5]) < As32(b[6])
  }

  function BodySquare(b: seq<int>, i: int, j: int): Square
    requires |b| == 264 && 0 <= i < 8 && 0 <= j < 8
  {
    var k := 8 + 32 * i + 4 * j;
    DecodeSquare(As32(b[k]), As32(b[k + 1]), As32(b[k + 2]), As32(b[k + 3]))
  }

  function BodyColumn(b: seq<int>, i: int): PieceColumn
    requires |b| == 264 && 0 <= i < 8
  { seq(8, j requires 0 <= j < 8 => BodySquare(b, i, j)) }

  function BodyGrid(b: seq<int>): PieceGrid
    requires |b| == 264
  { seq(8, i requires 0 <= i < 8 => BodyColumn(b, i)) }

  function BodyPiece(b: seq<int>): Piece
    requires |b| == 264 && BodyOk(b)
  {
    Piece(KindFromId(As32(b[0])).value, As32(b[1]), As32(b[2]), As32(b[3]), AsWord(b[4]),
          As32(b[5]), As32(b[6]), As32(b[7]), BodyGrid(b))
  }

  // ----- the board's own state: 40 values -----

  function Tail(g: RawSim): (r: seq<int>)
    requires 0 <= g.lockSeq < MOD64
    ensures |r| == 40
  {
    g.board.active
    + [Bit(g.board.upside), Bit(g.board.computer), Bit(g.board.idiot), g.board.reason, Signed(g.lockSeq), g.lockHash]
  }

  function SwapBlock(s: Option<seq<int>>): seq<int>
  { if s.Some? then [1] + s.value else [0] }

  function Snapshot(s: Saved): seq<int>
    requires 0 <= s.g.lockSeq < MOD64
  {
    Head(s) + PieceBlock(s.g.motion.current) + [|s.g.curses.pending|] + s.g.curses.pending
    + SwapBlock(s.g.curses.swap) + ExportBoard(s.g.board) + Tail(s.g)
  }

  // ----- restoring -----

  const HEAD: nat := 140

  function AfterPiece(d: seq<int>): nat { if Peek(d, HEAD) != 0 then HEAD + 265 else HEAD + 1 }

  function IndexAt(d: seq<int>, o: nat, k: nat): int { As32(Peek(d, o + 1 + k)) }

  // A list of weapon indices behind its length.
  predicate PendingOk(d: seq<int>, o: nat)
  { 0 <= Peek(d, o) <= 1024 && forall k :: 0 <= k < Peek(d, o) ==> FromIndex(IndexAt(d, o, k)).Some? }

  function PendingAt(d: seq<int>, o: nat, k: nat): WeaponToken
    requires PendingOk(d, o) && k < Peek(d, o)
  { IndexAt(d, o, k) }

  function AfterPending(d: seq<int>): nat
  { var o := AfterPiece(d); o + 1 + Max(Peek(d, o), 0) }

  function AfterSwap(d: seq<int>): nat
  { var o := AfterPending(d); if Peek(d, o) == 1 then o + 1121 else o + 1 }

  // Where a keyframe that begins like d ends.
  function EndOf(d: seq<int>): nat { AfterSwap(d) + 1160 }

  predicate Restorable(d: seq<int>)
  {
    && HeadOk(Slice(d, 0, 140))
    && (Peek(d, HEAD) != 0 ==> BodyOk(Slice(d, HEAD + 1, 264)))
    && PendingOk(d, AfterPiece(d))
    && 0 <= Peek(d, AfterPending(d)) <= 1
    && EndOf(d) == |d|
  }

  function RestoredPending(d: seq<int>, o: nat): seq<WeaponToken>
    requires PendingOk(d, o)
  { seq(Peek(d, o), k requires 0 <= k < Peek(d, o) => PendingAt(d, o, k)) }

  function RestoredCurses(d: seq<int>, h: seq<int>): Curses
    requires |h| == 140 && PendingOk(d, AfterPiece(d))
  {
    Curses(All32(h[52..86]), All32(h[86..120]), RestoredPending(d, AfterPiece(d)),
           if Peek(d, AfterPending(d)) == 1 then Some(All32(Slice(d, AfterPending(d) + 1, 1120))) else None)
  }

  function MotionFrom(h: seq<int>, piece: Option<Piece>): Motion
    requires |h| == 140
  {
    Motion(piece, As32(h[1]), As32(h[2]), As32(h[10]), As32(h[11]), h[12] != 0, As32(h[13]), PhaseOf(h[14]),
           As32(h[15]), As32(h[16]), As32(h[18]), As32(h[19]), As32(h[20]))
  }

  function RestoredMotion(d: seq<int>, h: seq<int>): Motion
    requires |h| == 140 && (Peek(d, HEAD) != 0 ==> BodyOk(Slice(d, HEAD + 1, 264)))
  { MotionFrom(h, if Peek(d, HEAD) != 0 then Some(BodyPiece(Slice(d, HEAD + 1, 264))) else None) }

  function RestoredBoard(cells: seq<int>, t: seq<int>): Board
    requires |cells| == 1120 && |t| == 40
  { Board(ImportGrid(All32(cells)), All32(t[..34]), t[34] != 0, t[35] != 0, t[36] != 0, As16(t[37])) }

  function RestoredStream(h: seq<int>): Stream
    requires |h| == 140
  { Stream(AllWords(h[30..49]), As32(h[49]), h[50] != 0, As32(h[51])) }

  function RestoredTally(h: seq<int>): Tally
    requires |h| == 140
  { Tally(h[23], h[25], h[26], h[27], h[21] != 0, As32(h[22])) }

  function RestoredFrame(h: seq<int>): Frame
    requires |h| == 140
  { Frame(As32(h[3]), As32(h[4]), As32(h[5]), As32(h[6]), As32(h[7]), As32(h[8]), As32(h[9])) }

  function Restored(d: seq<int>): Saved
    requires Restorable(d)
  {
    var h, t := Slice(d, 0, 140), Slice(d, AfterSwap(d) + 1120, 40);
    Saved(
      Sim(RestoredBoard(Slice(d, AfterSwap(d), 1120), t),
          RestoredStream(h), AsWord(h[29]), RestoredTally(h), RestoredMotion(d, h), RestoredFrame(h),
          RestoredCurses(d, h),
          ImportArsenal(All32(h[120..140])),
          h[17] != 0, AsWord(t[38]), t[39] % 0x1_0000_0000),
      h[24], h[28])
  }

  // A keyframe that is refused, wherever it is wrong, changes nothing.
  function Restore(s: Saved, d: seq<int>): (Saved, bool)
  { if Restorable(d) then (Restored(d), true) else (s, false) }
}
