/** What is drawn (rust/bt-core/src/rng.rs:42-99, rust/bt-core/src/piece_manager.rs:120-161). */
module DrawLaws {
  import opened Weapons
  import opened Rng
  import opened PieceStream

  lemma FirstSeed() ensures Seeded(1) == 0x1330e {}
  lemma FirstState() ensures Next(0x1330e) == 0xaa849495101 {}
  lemma SecondState() ensures Next(0xaa849495101) == 0x74599dea6378 {}
  lemma ThirdState() ensures Next(0x74599dea6378) == 0xd5b694ca2a23 {}

  /** The generator of IEEE Std 1003.1: srand48(1) is followed by these lrand48 values. */
  lemma KnownDraws()
    ensures var s1 := Next(Seeded(1));
      var s2 := Next(s1);
      Top31(s1) == 89400484 && Top31(s2) == 976015093 && Top31(Next(s2)) == 1792756325
  {
    hide Next, Seeded;
    FirstSeed();
    FirstState();
    SecondState();
    ThirdState();
  }

  /** A draw below a bound is the remainder of the generator's top 31 bits. */
  lemma DrawsRemainder(s: State48, n: int)
    requires n > 0
    ensures Below(s, n) == (s / 0x2_0000) % n
  {}

  // ----- the kept roll -----

  // The state before the k-th roll: each takes two draws.
  function Before(s: Word, k: nat): Word
  { if k == 0 then s else Next(Next(Before(s, k - 1))) }

  predicate Kept(keep: KeepTable, t: Word) { DrawnBelow(Next(Next(t)), keep[Below(Next(t), 18) + 1]) }

  lemma {:induction false} LaterRoll(s: Word, k: nat)
    ensures Before(Next(Next(s)), k) == Before(s, k + 1)
    decreases k
  {
    hide Next;
    if k > 0 { LaterRoll(s, k - 1); }
  }

  /** The id chosen is that of the first roll kept: every earlier one was rejected by its own
      weight, and each cost two draws. */
  lemma {:induction false} FirstKept(keep: KeepTable, s: Word) returns (n: nat)
    requires Live(keep)
    ensures forall k: nat :: k < n ==> !Kept(keep, Before(s, k))
    ensures Kept(keep, Before(s, n))
    ensures Pick(keep, s) == (Below(Next(Before(s, n)), 18) + 1, Before(s, n + 1))
    decreases RoundsToSmile(s)
  {
    hide Next, Below, DrawnBelow, RoundsToSmile, Live;
    if Kept(keep, s) {
      n := 0;
      PickNow(keep, s);
      assert Before(s, 1) == Next(Next(Before(s, 0)));
    } else {
      PickCloser(keep, s);
      var m := FirstKept(keep, Next(Next(s)));
      PickOn(keep, s);
      n := m + 1;
      LaterRoll(s, m);
      LaterRoll(s, m + 1);
      forall k: nat | k < n
        ensures !Kept(keep, Before(s, k))
      { if k > 0 { LaterRoll(s, k - 1); } }
    }
  }

  lemma PickNow(keep: KeepTable, s: Word)
    requires Live(keep) && Kept(keep, s)
    ensures Pick(keep, s) == (Below(Next(s), 18) + 1, Next(Next(s)))
  { hide Next, Below, DrawnBelow; }

  lemma PickOn(keep: KeepTable, s: Word)
    requires Live(keep) && !Kept(keep, s)
    ensures Pick(keep, s) == Pick(keep, Next(Next(s)))
  { hide Next, Below, DrawnBelow; }

  /** What the weights mean: a draw of 48 bits is kept below 21 and 2 hundredths, always, or
      never. */
  lemma WeightsMean(x: State48)
    ensures DrawnBelow(x, WEIGHT_DEFAULT) <==> 100 * x < 21 * 0x1_0000_0000_0000
    ensures DrawnBelow(x, WEIGHT_EXOTIC) <==> 100 * x < 2 * 0x1_0000_0000_0000
    ensures DrawnBelow(x, WEIGHT_DIE) && !DrawnBelow(x, WEIGHT_ZERO)
  {
    assert Pow2(4) == 16 && Pow2(7) == 128 && Pow2(10) == 1024;
    assert WEIGHT_DEFAULT / 0x10_0000_0000_0000 == 1020 && WEIGHT_EXOTIC / 0x10_0000_0000_0000 == 1017;
    assert x * Pow2(1026) >= 0;
  }

  // ----- the stream weapons -----

  lemma NeverWeightless(keep: KeepTable, s: Word)
    requires Live(keep)
    ensures keep[Pick(keep, s).0] != WEIGHT_ZERO
  {
    hide DrawnBelow, Next, Below;
    var n := FirstKept(keep, s);
    var t := Next(Next(Before(s, n)));
    NothingBelowZero(t);
  }

  lemma NothingBelowZero(x: State48)
    ensures !DrawnBelow(x, WEIGHT_ZERO)
  { assert x * Pow2(1026) >= 0; }

  /** While a stream weapon is on: No Dice keeps the die away, So Long the long piece, Four By Four
      the box, which the big frame stands in for, Feared Weird all seven ordinary pieces, for
      seven odd ones. A Nice Day's next piece is the smiley, drawn without a roll. */
  lemma StreamWeaponsBite(m: Stream, s: Word)
    requires Live(m.keep) && m.hapOn >= 0
    ensures Pick(StreamOn(m, NO_DICE).keep, s).0 != 8 && Pick(StreamOn(m, SO_LONG).keep, s).0 != 5
    ensures var k := StreamOn(m, FOUR_BY_FOUR).keep; Pick(k, s).0 != 7 && k[17] == WEIGHT_DEFAULT
    ensures var k := StreamOn(m, FEARED_WEIRD).keep;
      Pick(k, s).0 > 7 && forall id :: 10 <= id <= 16 ==> k[id] == WEIGHT_DEFAULT
    ensures var c := Choose(StreamOn(m, NICE_DAY), s); c.id == 9 && c.rng == s && c.m.hapOn == m.hapOn
  {
    hide Pick, Live;
    NeverWeightless(StreamOn(m, NO_DICE).keep, s);
    NeverWeightless(StreamOn(m, SO_LONG).keep, s);
    NeverWeightless(StreamOn(m, FOUR_BY_FOUR).keep, s);
    NeverWeightless(StreamOn(m, FEARED_WEIRD).keep, s);
  }

  /** A Broken Record repeats the last piece nine times in ten, for one draw. */
  lemma RecordSticks(m: Stream, s: Word)
    requires Live(m.keep) && m.hapOn == 0 && m.oldPiece != 0 && Top31(Next(s)) % 10 != 0
    ensures var c := Choose(StreamOn(m, BROKEN), s);
      c.id == m.oldPiece && c.m.oldPiece == m.oldPiece && c.rng == Next(s)
  { hide Pick, Next; }
}
