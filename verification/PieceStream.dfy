/** Which piece comes next (rust/bt-core/src/piece_manager.rs). */
module PieceStream {
  import opened Weapons
  import opened Rng
  import opened Pieces

  // Keep weights are IEEE 754 doubles; the table holds their bit patterns.
  const WEIGHT_ZERO: Word := 0
  const WEIGHT_DEFAULT: Word := 0x3fca_e147_ae14_7ae1   // 0.21
  const WEIGHT_EXOTIC: Word := 0x3f94_7ae1_47ae_147b    // 0.02
  const WEIGHT_DIE: Word := 0x3ff0_0000_0000_0000       // 1.0

  // x / 2^48 < w, where w is the double with these bits. The 48-bit numerator is exact
  // in a double, so the comparison is one of exact rationals.
  predicate DrawnBelow(x: State48, bits: Word)
  {
    var e, m := bits / 0x10_0000_0000_0000, bits % 0x10_0000_0000_0000;
    if e >= 2047 then e == 2047 && m == 0   // +inf; negative numbers and NaN are never above
    else if e == 0 then x * Pow2(1026) < m
    else if e <= 1027 then x * Pow2(1027 - e) < m + 0x10_0000_0000_0000
    else x < (m + 0x10_0000_0000_0000) * Pow2(e - 1027)
  }

  // Indexed by piece id; entry 0 is unused.
  type KeepTable = k: seq<Word> | |k| == 19 witness seq(19, _ => 0)

  function DefaultWeight(id: int): Word
  {
    if 1 <= id <= 7 then WEIGHT_DEFAULT
    else if id == 8 then WEIGHT_DIE
    else if id == 9 || id == 18 then WEIGHT_EXOTIC
    else WEIGHT_ZERO
  }

  function DefaultTable(): KeepTable
  { seq(19, id requires 0 <= id < 19 => DefaultWeight(id)) }

  datatype Stream = Stream(keep: KeepTable, hapOn: int, broken: bool, oldPiece: int)

  function NewStream(): Stream { Stream(DefaultTable(), 0, false, 0) }

  // The smiley and the long dong are never weighted out.
  predicate Live(k: KeepTable) { k[9] == WEIGHT_EXOTIC && k[18] == WEIGHT_EXOTIC }

  // ----- the rejection loop -----

  // A draw word that selects the smiley and keeps it, for either parity.
  function SmileWord(p: int): State48 { if p == 0 then 62390272 else 62390273 }

  lemma SmileWordAccepted(p: int)
    requires 0 <= p < 2
    ensures SmileWord(p) % 2 == p
    ensures Below(SmileWord(p), 18) + 1 == 9
    ensures DrawnBelow(Next(SmileWord(p)), WEIGHT_EXOTIC)
  {
    assert Pow2(10) == 1024 by { assert Pow2(5) == 32; Pow2Add(5, 5); }
    if p == 0 {
      assert Next(62390272) == 1068999639051;
    } else {
      assert Next(62390273) == 1094214542968;
    }
  }

  ghost function RoundsToSmile(s: Word): nat { RoundsTo(s, SmileWord((s + 1) % 2)) }

  lemma PickCloser(keep: KeepTable, s: Word)
    requires Live(keep)
    requires !DrawnBelow(Next(Next(s)), keep[Below(Next(s), 18) + 1])
    ensures RoundsToSmile(Next(Next(s))) < RoundsToSmile(s)
  {
    var p := (s + 1) % 2;
    SmileWordAccepted(p);
    NextParity(s);
    NextParity(Next(s));
    hide Next, DrawnBelow, Below, SmileWord, RoundsTo, Live;
    TwoFlipsBack(s, Next(s), Next(Next(s)));
    assert Next(s) != SmileWord(p) by { NotTheSmile(keep, s, p); }
    RoundCloser(s, SmileWord(p));
  }

  lemma TwoFlipsBack(s: int, t: int, u: int)
    requires t % 2 == (s + 1) % 2 && u % 2 == (t + 1) % 2
    ensures (u + 1) % 2 == (s + 1) % 2
  {}

  lemma NotTheSmile(keep: KeepTable, s: Word, p: int)
    requires Live(keep) && 0 <= p < 2
    requires !DrawnBelow(Next(Next(s)), keep[Below(Next(s), 18) + 1])
    ensures Next(s) != SmileWord(p)
  {
    SmileWordAccepted(p);
    hide Next, DrawnBelow, Below, SmileWord;
  }

  // Roll an id and keep it with its weight, until one is kept.
  function Pick(keep: KeepTable, s: Word): (r: (int, State48))
    requires Live(keep)
    ensures 1 <= r.0 <= 18
    decreases RoundsToSmile(s)
  {
    var id, t := Below(Next(s), 18) + 1, Next(Next(s));
    if DrawnBelow(t, keep[id]) then (id, t) else PickCloser(keep, s); Pick(keep, t)
  }

  datatype Choice = Choice(id: int, m: Stream, rng: Word)

  // Broken Record draws its gate first; a forced smiley draws nothing.
  function Choose(m: Stream, s: Word): (r: Choice)
    requires Live(m.keep)
  {
    if m.hapOn == 0 then
      if !m.broken then
        var k := Pick(m.keep, s); Choice(k.0, m.(oldPiece := k.0), k.1)
      else if Top31(Next(s)) % 10 == 0 then
        var k := Pick(m.keep, Next(s)); Choice(k.0, m.(oldPiece := k.0), k.1)
      else
        var id := if m.oldPiece != 0 then m.oldPiece else 1;
        Choice(id, m.(oldPiece := id), Next(s))
    else Choice(9, m.(hapOn := m.hapOn - 1, oldPiece := 9), s)
  }

  datatype Made = Made(p: Piece, m: Stream, rng: Word)

  // An id outside 1..18 stops the original with a panic, and El stands in for it here; in
  // play it never arises (RunLaws.NextPieceKnown).
  function Create(m: Stream, s: Word, x: int, y: int): (r: Made)
    requires Live(m.keep)
    ensures r.m.keep == m.keep && r.m.broken == m.broken
  {
    var c := Choose(m, s);
    var kind := if 1 <= c.id <= 18 then KindFromId(c.id).value else El;
    if kind == DieKind then
      Made(Construct(kind, x, y, Below(Next(c.rng), 6) + 1), c.m, Next(c.rng))
    else Made(Construct(kind, x, y, 1), c.m, c.rng)
  }

  // ----- the stream weapons -----

  // Entries lo..hi rewritten to w.
  function SetRange(k: KeepTable, lo: int, hi: int, w: Word): KeepTable
  { seq(19, i requires 0 <= i < 19 => if lo <= i <= hi then w else k[i]) }

  function StreamOn(m: Stream, t: WeaponToken): (r: Stream)
    ensures Live(m.keep) ==> Live(r.keep)
  {
    if t == FEARED_WEIRD then
      m.(keep := SetRange(SetRange(m.keep, 1, 7, WEIGHT_ZERO), 10, 16, WEIGHT_DEFAULT))
    else if t == FOUR_BY_FOUR then m.(keep := m.keep[7 := WEIGHT_ZERO][17 := WEIGHT_DEFAULT])
    else if t == BROKEN then m.(broken := true)
    else if t == NO_DICE then m.(keep := m.keep[8 := WEIGHT_ZERO])
    else if t == SO_LONG then m.(keep := m.keep[5 := WEIGHT_ZERO])
    else if t == NICE_DAY then m.(hapOn := m.hapOn + 1)
    else m
  }

  function StreamOff(m: Stream, t: WeaponToken): (r: Stream)
    ensures Live(m.keep) ==> Live(r.keep)
  {
    if t == FEARED_WEIRD then
      m.(keep := SetRange(SetRange(m.keep, 1, 7, WEIGHT_DEFAULT), 10, 16, WEIGHT_ZERO))
    else if t == FOUR_BY_FOUR then m.(keep := m.keep[7 := WEIGHT_DEFAULT][17 := WEIGHT_ZERO])
    else if t == NO_DICE then m.(keep := m.keep[8 := WEIGHT_DIE])
    else if t == SO_LONG then m.(keep := m.keep[5 := WEIGHT_DEFAULT])
    else if t == BROKEN then m.(broken := false)
    else m
  }
}
