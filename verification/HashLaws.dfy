/** Which fields the lock hash covers (rust/bt-core/src/game.rs:191-199, 296-326): what is fed to
    it determines them, and they determine it. */
module HashLaws {
  import opened Wrappers
  import opened Cells
  import opened Weapons
  import opened Rng
  import opened Boards
  import opened Arsenals
  import opened Engine
  import opened KeyframeLaws
  import opened Keyframes
  import Hash

  // ----- bytes -----

  function Pow256(n: nat): (p: int)
    ensures p > 0
  { if n == 0 then 1 else 256 * Pow256(n - 1) }

  // Two signed values, or two words, of n bytes with the same bytes are the same.
  lemma {:induction false} BytesTell(v: int, w: int, n: nat)
    requires Hash.Bytes(v, n) == Hash.Bytes(w, n)
    requires -Pow256(n) < v - w < Pow256(n)
    ensures v == w
    decreases n
  {
    if n > 0 {
      var a, b := (v - v % 256) / 256, (w - w % 256) / 256;
      FirstByte(v, n);
      FirstByte(w, n);
      assert Pow256(n) == 256 * Pow256(n - 1) && v - w == 256 * (a - b);
      hide Hash.Bytes, Pow256;
      BytesTell(a, b, n - 1);
    }
  }

  lemma FirstByte(v: int, n: nat)
    requires n > 0
    ensures Hash.Bytes(v, n)[0] == v % 256 && Hash.Bytes(v, n)[1..] == Hash.Bytes((v - v % 256) / 256, n - 1)
    ensures v == 256 * ((v - v % 256) / 256) + v % 256
  {}

  lemma Pow256Of4()
    ensures Pow256(4) == 0x1_0000_0000
  { assert Pow256(2) == 0x1_0000; }

  lemma Pow256Of8()
    ensures Pow256(8) == 0x1_0000_0000_0000_0000
  {
    Pow256Of4();
    assert Pow256(6) == 0x1_0000_0000_0000;
  }

  lemma Cut(a: seq<int>, b: seq<int>, c: seq<int>, d: seq<int>)
    requires a + b == c + d && |a| == |c|
    ensures a == c && b == d
  {
    assert a == (a + b)[..|a|] && c == (c + d)[..|a|];
    assert b == (a + b)[|a|..] && d == (c + d)[|a|..];
  }

  lemma FirstWord(vs: seq<int>)
    requires vs != [] && All32Fit(vs)
    ensures Hash.Words(vs, 4) == Hash.Bytes(vs[0], 4) + Hash.Words(vs[1..], 4)
    ensures All32Fit(vs[1..]) && Fits32(vs[0])
  {}

  lemma {:induction false} WordsTell(vs: seq<int>, ws: seq<int>)
    requires |vs| == |ws| && All32Fit(vs) && All32Fit(ws) && Hash.Words(vs, 4) == Hash.Words(ws, 4)
    ensures vs == ws
    decreases |vs|
  {
    if vs != [] {
      FirstWord(vs);
      FirstWord(ws);
      Pow256Of4();
      hide Hash.Words, Hash.Bytes, All32Fit, Pow256;
      Cut(Hash.Bytes(vs[0], 4), Hash.Words(vs[1..], 4), Hash.Bytes(ws[0], 4), Hash.Words(ws[1..], 4));
      BytesTell(vs[0], ws[0], 4);
      WordsTell(vs[1..], ws[1..]);
      assert vs == [vs[0]] + vs[1..] && ws == [ws[0]] + ws[1..];
    }
  }

  // ----- what is hashed -----

  predicate Fits64(v: int) { -0x8000_0000_0000_0000 <= v < 0x8000_0000_0000_0000 }

  predicate SwapFits(s: Option<seq<int>>) { s.Some? ==> |s.value| == 1120 && All32Fit(s.value) }

  // Every hashed field within its width, and a queue no longer than a board's worth of values.
  predicate Hashable(g: Sim)
  {
    && GridFits(g.board.cells) && Fits64(g.tally.score) && Fits64(g.tally.lines)
    && Tidy(g.arsenal) && (forall i :: 0 <= i < 10 ==> g.arsenal.quantity[i] <= 65535)
    && All32Fit(g.curses.active) && All32Fit(g.curses.remaining)
    && |g.curses.pending| < 1120 && SwapFits(g.curses.swap)
  }

  predicate SameFields(g: Sim, h: Sim)
  {
    && h.board.cells == g.board.cells && h.tally.score == g.tally.score && h.tally.lines == g.tally.lines
    && h.arsenal == g.arsenal && h.curses == g.curses && h.rng == g.rng
  }

  lemma LongTells(v: int, w: int)
    requires Hash.Bytes(v, 8) == Hash.Bytes(w, 8)
    requires (Fits64(v) && Fits64(w)) || (0 <= v < MOD64 && 0 <= w < MOD64)
    ensures v == w
  {
    Pow256Of8();
    BytesTell(v, w, 8);
  }

  // ----- the board and the arsenal -----

  lemma BoardTells(a: Board, b: Board)
    requires GridFits(a.cells) && GridFits(b.cells)
    requires Hash.Words(ExportBoard(a), 4) == Hash.Words(ExportBoard(b), 4)
    ensures a.cells == b.cells
  {
    ExportFits(a.cells, 28);
    ExportFits(b.cells, 28);
    hide Hash.Words, ExportCells, ImportGrid, All32, GridFits;
    WordsTell(ExportBoard(a), ExportBoard(b));
    GridBack(a);
    GridBack(b);
  }

  lemma {:induction false} ArsenalFits(a: Arsenal, n: nat)
    requires n <= 10 && forall i :: 0 <= i < 10 ==> a.quantity[i] <= 65535
    ensures All32Fit(ExportArsenal(a, n))
  { if n > 0 { ArsenalFits(a, n - 1); } }

  lemma ArsenalTells(a: Arsenal, b: Arsenal)
    requires Tidy(a) && forall i :: 0 <= i < 10 ==> a.quantity[i] <= 65535
    requires Tidy(b) && forall i :: 0 <= i < 10 ==> b.quantity[i] <= 65535
    requires Hash.Words(ExportArsenal(a, 10), 4) == Hash.Words(ExportArsenal(b, 10), 4)
    ensures a == b
  {
    ArsenalFits(a, 10);
    ArsenalFits(b, 10);
    hide Hash.Words, ExportArsenal, ImportArsenal, All32;
    WordsTell(ExportArsenal(a, 10), ExportArsenal(b, 10));
    ArsenalBack(a);
    ArsenalBack(b);
  }

  // ----- the tail, whose length varies -----

  function SwapBytes(s: Option<seq<int>>): seq<Hash.Byte>
  { if s.Some? then [1] + Hash.Words(s.value, 4) else [0] }

  lemma SwapTells(s: Option<seq<int>>, t: Option<seq<int>>)
    requires SwapFits(s) && SwapFits(t) && SwapBytes(s) == SwapBytes(t)
    ensures s == t
  {
    assert SwapBytes(s)[0] == SwapBytes(t)[0];
    if s.Some? {
      assert SwapBytes(s)[1..] == Hash.Words(s.value, 4) && SwapBytes(t)[1..] == Hash.Words(t.value, 4);
      WordsTell(s.value, t.value);
    }
  }

  // The whole length tells how many weapons wait and whether a board does.
  lemma TailTells(p: seq<WeaponToken>, q: seq<WeaponToken>, s: Option<seq<int>>, t: Option<seq<int>>, a: Word, b: Word)
    requires |p| < 1120 && |q| < 1120 && SwapFits(s) && SwapFits(t)
    requires Hash.Words(p, 4) + (SwapBytes(s) + Hash.Bytes(a, 8))
      == Hash.Words(q, 4) + (SwapBytes(t) + Hash.Bytes(b, 8))
    ensures p == q && s == t && a == b
  {
    hide Hash.Words, Hash.Bytes;
    assert 4 * |p| + |SwapBytes(s)| == 4 * |q| + |SwapBytes(t)|;
    Cut(Hash.Words(p, 4), SwapBytes(s) + Hash.Bytes(a, 8), Hash.Words(q, 4), SwapBytes(t) + Hash.Bytes(b, 8));
    Cut(SwapBytes(s), Hash.Bytes(a, 8), SwapBytes(t), Hash.Bytes(b, 8));
    WordsTell(p, q);
    SwapTells(s, t);
    LongTells(a, b);
  }

  function HashedTail(g: Sim): seq<Hash.Byte>
  { Hash.Words(g.curses.pending, 4) + (SwapBytes(g.curses.swap) + Hash.Bytes(g.rng, 8)) }

  function HashedMiddle(g: Sim): (r: seq<Hash.Byte>)
    ensures |r| == 352
  {
    Hash.Words(ExportArsenal(g.arsenal, 10), 4) + (Hash.Words(g.curses.active, 4)
    + Hash.Words(g.curses.remaining, 4))
  }

  lemma Nested(g: Sim)
    ensures HashedBytes(g) == Hash.Words(ExportBoard(g.board), 4)
      + (Hash.Bytes(g.tally.score, 8) + (Hash.Bytes(g.tally.lines, 8) + (HashedMiddle(g) + HashedTail(g))))
  { hide Hash.Words, Hash.Bytes, ExportArsenal, ExportBoard; }

  lemma MiddleTells(g: Sim, h: Sim)
    requires Hashable(g) && Hashable(h) && HashedMiddle(g) == HashedMiddle(h)
    ensures g.arsenal == h.arsenal && g.curses.active == h.curses.active && g.curses.remaining == h.curses.remaining
  {
    hide Hash.Words, ExportArsenal;
    var a, b := Hash.Words(ExportArsenal(g.arsenal, 10), 4), Hash.Words(ExportArsenal(h.arsenal, 10), 4);
    var c, d := Hash.Words(g.curses.active, 4), Hash.Words(h.curses.active, 4);
    var e, f := Hash.Words(g.curses.remaining, 4), Hash.Words(h.curses.remaining, 4);
    Cut(a, c + e, b, d + f);
    Cut(c, e, d, f);
    ArsenalTells(g.arsenal, h.arsenal);
    WordsTell(g.curses.active, h.curses.active);
    WordsTell(g.curses.remaining, h.curses.remaining);
  }

  /** The hash is fed the board, the score, the lines, the arsenal, the weapon state and the
      generator, and nothing else: two games feed it the same bytes if and only if they agree on
      all of these. */
  lemma HashCovers(g: Sim, h: Sim)
    requires Hashable(g) && Hashable(h)
    ensures HashedBytes(g) == HashedBytes(h) <==> SameFields(g, h)
  {
    hide Hash.Words, Hash.Bytes, ExportArsenal, ExportBoard, HashedMiddle, HashedTail;
    if HashedBytes(g) == HashedBytes(h) {
      Nested(g);
      Nested(h);
      hide HashedBytes;
      Peeled(g, h);
      BoardTells(g.board, h.board);
      LongTells(g.tally.score, h.tally.score);
      LongTells(g.tally.lines, h.tally.lines);
      MiddleTells(g, h);
      TailOf(g, h);
    }
    if SameFields(g, h) { SameBoard(g.board, h.board); }
  }

  lemma SameBoard(a: Board, b: Board)
    requires a.cells == b.cells
    ensures ExportBoard(a) == ExportBoard(b)
  {}

  lemma TailOf(g: Sim, h: Sim)
    requires Hashable(g) && Hashable(h) && HashedTail(g) == HashedTail(h)
    ensures g.curses.pending == h.curses.pending && g.curses.swap == h.curses.swap && g.rng == h.rng
  {
    hide Hash.Words, Hash.Bytes, SwapBytes;
    TailTells(g.curses.pending, h.curses.pending, g.curses.swap, h.curses.swap, g.rng, h.rng);
  }

  // The bytes of two games that hash alike, part by part.
  lemma Peeled(g: Sim, h: Sim)
    requires Hash.Words(ExportBoard(g.board), 4)
      + (Hash.Bytes(g.tally.score, 8) + (Hash.Bytes(g.tally.lines, 8) + (HashedMiddle(g) + HashedTail(g))))
      == Hash.Words(ExportBoard(h.board), 4)
      + (Hash.Bytes(h.tally.score, 8) + (Hash.Bytes(h.tally.lines, 8) + (HashedMiddle(h) + HashedTail(h))))
    ensures Hash.Words(ExportBoard(g.board), 4) == Hash.Words(ExportBoard(h.board), 4)
    ensures Hash.Bytes(g.tally.score, 8) == Hash.Bytes(h.tally.score, 8)
    ensures Hash.Bytes(g.tally.lines, 8) == Hash.Bytes(h.tally.lines, 8)
    ensures HashedMiddle(g) == HashedMiddle(h) && HashedTail(g) == HashedTail(h)
  {
    hide Hash.Words, Hash.Bytes, ExportBoard, HashedMiddle, HashedTail;
    var mg, mh := HashedMiddle(g) + HashedTail(g), HashedMiddle(h) + HashedTail(h);
    var lg, lh := Hash.Bytes(g.tally.lines, 8) + mg, Hash.Bytes(h.tally.lines, 8) + mh;
    var sg, sh := Hash.Bytes(g.tally.score, 8) + lg, Hash.Bytes(h.tally.score, 8) + lh;
    Cut(Hash.Words(ExportBoard(g.board), 4), sg, Hash.Words(ExportBoard(h.board), 4), sh);
    Cut(Hash.Bytes(g.tally.score, 8), lg, Hash.Bytes(h.tally.score, 8), lh);
    Cut(Hash.Bytes(g.tally.lines, 8), mg, Hash.Bytes(h.tally.lines, 8), mh);
    Cut(HashedMiddle(g), HashedTail(g), HashedMiddle(h), HashedTail(h));
  }

  // ----- what the hash itself tells apart -----

  lemma PrimeTells(v: int, w: int)
    requires 0 <= v < 0x1_0000_0000 && 0 <= w < 0x1_0000_0000
    requires (v * 0x0100_0193) % 0x1_0000_0000 == (w * 0x0100_0193) % 0x1_0000_0000
    ensures v == w
  {
    var a, b := (v * 0x0100_0193) / 0x1_0000_0000, (w * 0x0100_0193) / 0x1_0000_0000;
    var d, k := v - w, a - b;
    assert d * 0x0100_0193 == k * 0x1_0000_0000;
    InverseTells(d, k);
  }

  // 0x359c449b is the inverse of the prime.
  lemma InverseTells(d: int, k: int)
    requires d * 0x0100_0193 == k * 0x1_0000_0000 && -0x1_0000_0000 < d < 0x1_0000_0000
    ensures d == 0
  {
    assert 0x0100_0193 * 0x359c_449b == 3513497 * 0x1_0000_0000 + 1;
    assert d == 0x1_0000_0000 * (k * 0x359c_449b - 3513497 * d);
  }

  function Pow2(n: nat): (p: nat) { if n == 0 then 1 else 2 * Pow2(n - 1) }

  lemma {:induction false} XorBelow(a: nat, b: nat, n: nat)
    ensures Hash.Xor(a, b, n) < Pow2(n)
    decreases n
  { if n > 0 { XorBelow(a / 2, b / 2, n - 1); } }

  // Exclusive or loses nothing of either side.
  lemma {:induction false} XorTells(a: nat, b: nat, x: nat, y: nat, n: nat)
    requires a < Pow2(n) && b < Pow2(n) && x < Pow2(n) && y < Pow2(n)
    requires Hash.Xor(a, x, n) == Hash.Xor(b, y, n)
    ensures a == b <==> x == y
    decreases n
  {
    if n > 0 {
      var r, q := Hash.Xor(a / 2, x / 2, n - 1), Hash.Xor(b / 2, y / 2, n - 1);
      assert r == q && (a + x) % 2 == (b + y) % 2;
      XorTells(a / 2, b / 2, x / 2, y / 2, n - 1);
      Parities(a, b, x, y);
    }
  }

  lemma Parities(a: nat, b: nat, x: nat, y: nat)
    requires (a + x) % 2 == (b + y) % 2
    ensures a % 2 == b % 2 <==> x % 2 == y % 2
    ensures a == 2 * (a / 2) + a % 2 && b == 2 * (b / 2) + b % 2
    ensures x == 2 * (x / 2) + x % 2 && y == 2 * (y / 2) + y % 2
  {}

  lemma Pow2Of32()
    ensures Pow2(32) == 0x1_0000_0000
  { assert Pow2(8) == 256; assert Pow2(16) == 0x1_0000; assert Pow2(24) == 0x100_0000; }

  // A step loses nothing either: it is one to one in the hash so far and in the byte.
  lemma StepTells(h: nat, k: nat, x: nat, y: nat)
    requires h < 0x1_0000_0000 && k < 0x1_0000_0000 && x < 256 && y < 256 && Hash.Fed(h, x) == Hash.Fed(k, y)
    ensures h == k <==> x == y
  {
    Pow2Of32();
    XorBelow(h, x, 32);
    XorBelow(k, y, 32);
    PrimeTells(Hash.Xor(h, x, 32), Hash.Xor(k, y, 32));
    XorTells(h, k, x, y, 32);
  }

  lemma {:induction false} FeedTells(h: nat, k: nat, b: seq<Hash.Byte>)
    requires h < 0x1_0000_0000 && k < 0x1_0000_0000
    requires Hash.Fnv(h, b) == Hash.Fnv(k, b)
    ensures h == k
    decreases |b|
  {
    if b != [] {
      hide Hash.Fed;
      FedIn(h, b[0]);
      FedIn(k, b[0]);
      FeedTells(Hash.Fed(h, b[0]), Hash.Fed(k, b[0]), b[1..]);
      StepTells(h, k, b[0], b[0]);
    }
  }

  lemma FedIn(h: nat, x: nat)
    ensures Hash.Fed(h, x) < 0x1_0000_0000
  {}

  // Bytes that differ in one place only never hash alike, from any state.
  lemma {:induction false} OneByteFed(h: nat, a: seq<Hash.Byte>, b: seq<Hash.Byte>, k: nat)
    requires h < 0x1_0000_0000 && |a| == |b| && k < |a| && a[k] != b[k]
    requires forall j :: 0 <= j < |a| && j != k ==> a[j] == b[j]
    ensures Hash.Fnv(h, a) != Hash.Fnv(h, b)
    decreases |a|
  {
    hide Hash.Fed;
    FedIn(h, a[0]);
    FedIn(h, b[0]);
    if k > 0 {
      OneByteFed(Hash.Fed(h, a[0]), a[1..], b[1..], k - 1);
    } else {
      assert a[1..] == b[1..];
      if Hash.Fnv(h, a) == Hash.Fnv(h, b) {
        FeedTells(Hash.Fed(h, a[0]), Hash.Fed(h, b[0]), a[1..]);
        StepTells(h, h, a[0], b[0]);
      }
    }
  }

  /** Two games that feed the hash bytes differing in one place only never share a hash. */
  lemma OneByteShows(g: Sim, h: Sim, k: nat)
    requires |HashedBytes(g)| == |HashedBytes(h)| && k < |HashedBytes(g)| && HashedBytes(g)[k] != HashedBytes(h)[k]
    requires forall j :: 0 <= j < |HashedBytes(g)| && j != k ==> HashedBytes(g)[j] == HashedBytes(h)[j]
    ensures HashOf(g) != HashOf(h)
  {
    hide HashedBytes;
    OneByteFed(Hash.OFFSET, HashedBytes(g), HashedBytes(h), k);
  }
}
