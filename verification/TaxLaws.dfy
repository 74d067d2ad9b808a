/** What the Mondale tax leaves of a clear (rust/bt-core/src/game.rs:1231-1245): exactly when
    the truncated double product is the documented floor of seventy percent. */
module TaxLaws {
  import opened Weapons
  import opened Rng
  import opened Engine

  const ONE: int := 0x20_0000_0000_0000     // 2^53
  const SHARE: int := 6305039478318694      // 0.7 in units of 2^-53, short of it by 0.4

  // A multiple of ten, with a power of two between seven and eight tenths of it.
  ghost predicate FallsShort(c: int)
  { c % 10 == 0 && exists j: nat :: 7 * (c / 10) < Pow2(j) < 8 * (c / 10) }

  // ----- powers of two -----

  lemma {:induction false} NoMultipleOfSeven(j: nat, k: int)
    ensures Pow2(j) != 7 * k
  {
    if j > 0 && Pow2(j) == 7 * k {
      assert k % 2 == 0;
      NoMultipleOfSeven(j - 1, k / 2);
    }
  }

  lemma TwiceApart(i: nat, j: nat)
    requires Pow2(i) < Pow2(j)
    ensures 2 * Pow2(i) <= Pow2(j)
  {
    if i < j { Grows(i + 1, j); } else { Grows(j, i); }
  }

  lemma {:induction false} Grows(i: nat, j: nat)
    requires i <= j
    ensures Pow2(i) <= Pow2(j)
  { if i < j { Grows(i, j - 1); } }

  // A power of two below 2^32 divides 2^53, an even number of times.
  lemma DividesOne(j: nat) returns (v: int)
    requires Pow2(j) < 0x1_0000_0000
    ensures ONE == Pow2(j) * (2 * v)
  {
    PowerOf32();
    if j >= 32 { Grows(32, j); }
    Pow2Add(j, 52 - j);
    v := Pow2(52 - j);
    PowerOf52();
    TwiceProduct(Pow2(j), v);
  }

  lemma TwiceProduct(u: int, v: int)
    ensures u * (2 * v) == 2 * (u * v)
  {}

  lemma PowerOf32()
    ensures Pow2(32) == 0x1_0000_0000
  {
    assert Pow2(8) == 256;
    Pow2Add(8, 8);
    Pow2Add(16, 16);
  }

  lemma PowerOf52()
    ensures Pow2(52) == 0x10_0000_0000_0000
  {
    Pow2Of48();
    assert Pow2(4) == 16;
    Pow2Add(48, 4);
  }

  // ----- rounding to 53 bits -----

  // The unit in the last place: the least power of two with at most 53 bits above it.
  lemma {:induction false} UlpSpans(p: nat) returns (j: nat)
    ensures Ulp(p) == Pow2(j)
    ensures p < ONE * Ulp(p) && (Ulp(p) == 1 || ONE * Ulp(p) <= 2 * p)
    decreases p
  {
    if p < ONE {
      j := 0;
    } else {
      j := UlpSpans(p / 2);
      j := j + 1;
    }
  }

  lemma SplitBy(p: int, u: int)
    requires u > 0
    ensures p == (p / u) * u + p % u
  {}

  lemma QuotientOf(p: int, u: int, q: int, r: int)
    requires 0 <= r < u && p == q * u + r
    ensures p / u == q && p % u == r
  {
    SplitBy(p, u);
    if q < p / u { OneBelow(q, p / u, u); }
    if p / u < q { OneBelow(p / u, q, u); }
  }

  // Rounding moves a value by at most half a unit.
  lemma HalfUnit(p: nat)
    ensures -Ulp(p) <= 2 * (Rounded53(p) - p) <= Ulp(p)
  {
    hide Ulp;
    var u := Ulp(p);
    SplitBy(p, u);
    assert (p / u + 1) * u == (p / u) * u + u;
  }

  // A value at most half a unit below an even multiple rounds up to it.
  lemma RoundsUp(p: nat, n: int, d: int)
    requires 0 < 2 * d <= Ulp(p) && p == (2 * n) * Ulp(p) - d
    ensures Rounded53(p) == (2 * n) * Ulp(p)
  {
    hide Ulp;
    var u := Ulp(p);
    assert (2 * n - 1) * u + u == (2 * n) * u;
    QuotientOf(p, u, 2 * n - 1, u - d);
  }

  // A value at or above a multiple rounds to no less than it.
  lemma StaysAbove(p: nat, n: int)
    requires n * Ulp(p) <= p
    ensures n * Ulp(p) <= Rounded53(p)
  {
    hide Ulp;
    var u := Ulp(p);
    SplitBy(p, u);
    if p / u < n { OneBelow(p / u, n, u); }
    AtLeast(n, p / u, u);
    AtLeast(p / u, p / u + 1, u);
  }

  lemma OneBelow(q: int, n: int, u: int)
    requires q < n && u > 0
    ensures q * u + u <= n * u
  {
    AtLeast(q + 1, n, u);
    assert (q + 1) * u == q * u + u;
  }

  lemma AtLeast(n: int, q: int, u: int)
    requires n <= q && u > 0
    ensures n * u <= q * u
  { assert (q - n) * u >= 0; }

  // ----- the share -----

  // The unit of a taxed clear, well below the 53 bits it leaves.
  lemma UnitOf(c: int) returns (j: nat, v: int)
    requires 0 <= c < 0x8000_0000
    ensures Ulp(c * SHARE) == Pow2(j) && 0 < Pow2(j) < 0x1_0000_0000
    ensures c * SHARE < ONE * Pow2(j) && (Pow2(j) == 1 || ONE * Pow2(j) <= 2 * (c * SHARE))
    ensures ONE == Pow2(j) * (2 * v)
  {
    hide Ulp, Pow2;
    j := UlpSpans(c * SHARE);
    v := DividesOne(j);
  }

  // Between two tenths the product is too far from a whole number to be rounded onto it.
  lemma InBetween(c: int)
    requires 0 <= c < 0x8000_0000 && 7 * c % 10 != 0
    ensures MondaleKept(c) == 7 * c / 10
  {
    hide Ulp, Pow2, Rounded53;
    var p, f := c * SHARE, 7 * c / 10;
    var j, v := UnitOf(c);
    HalfUnit(p);
    assert (2 * v * f) * Pow2(j) == ONE * f;
    StaysAbove(p, 2 * v * f);
    QuotientOf(Rounded53(p), ONE, f, Rounded53(p) - ONE * f);
  }

  // On a tenth it is four units of 2^-53 short per ten, which must round up.
  lemma OnTenth(k: int, j: nat, v: int)
    requires 0 < k && 10 * k < 0x8000_0000
    requires Ulp(10 * k * SHARE) == Pow2(j) && 0 < Pow2(j) < 0x1_0000_0000 && ONE == Pow2(j) * (2 * v)
    ensures MondaleKept(10 * k) == if 8 * k <= Pow2(j) then 7 * k else 7 * k - 1
  {
    hide Ulp, Pow2, Rounded53;
    var p, u := 10 * k * SHARE, Pow2(j);
    assert p == ONE * (7 * k) - 4 * k;
    var n := v * (7 * k);
    assert (2 * n) * u == ONE * (7 * k);
    if 8 * k <= u {
      RoundsUp(p, n, 4 * k);
      QuotientOf(Rounded53(p), ONE, 7 * k, 0);
    } else {
      HalfUnit(p);
      QuotientOf(Rounded53(p), ONE, 7 * k - 1, Rounded53(p) - ONE * (7 * k - 1));
    }
  }

  lemma AroundTenth(k: int, u: int)
    requires 0 < k && 10 * k < 0x8000_0000
    requires 10 * k * 6305039478318694 < 0x20_0000_0000_0000 * u
    requires u == 1 || 0x20_0000_0000_0000 * u <= 2 * (10 * k * 6305039478318694)
    ensures 7 * k <= u < 14 * k
  {}

  // The unit is the least power of two above seven tenths.
  lemma UnitOfTenth(k: int, j: nat)
    requires 0 < k && 10 * k < 0x8000_0000 && 10 * k * SHARE < ONE * Pow2(j)
    requires Pow2(j) == 1 || ONE * Pow2(j) <= 2 * (10 * k * SHARE)
    ensures 8 * k <= Pow2(j) <==> !FallsShort(10 * k)
  {
    hide Pow2;
    NoMultipleOfSeven(j, k);
    AroundTenth(k, Pow2(j));
    if i: nat :| 7 * k < Pow2(i) < 8 * k {
      if Pow2(i) < Pow2(j) { TwiceApart(i, j); }
      if Pow2(j) < Pow2(i) { TwiceApart(j, i); }
    }
  }

  /** What a taxed clear leaves the player: the floor of seventy percent, or one less. It is
      one less if and only if the clear is a multiple of ten and some power of two lies
      strictly between seven and eight tenths of it. */
  lemma KeptShare(c: int)
    requires 0 <= c < 0x8000_0000
    ensures MondaleKept(c) == 7 * c / 10 - (if FallsShort(c) then 1 else 0)
  {
    hide MondaleKept, Ulp, Pow2;
    if 7 * c % 10 != 0 {
      InBetween(c);
    } else if c > 0 {
      var k := c / 10;
      assert c == 10 * k;
      var j, v := UnitOf(c);
      OnTenth(k, j, v);
      UnitOfTenth(k, j);
    } else {
      NothingKept();
    }
  }

  lemma NothingKept()
    ensures MondaleKept(0) == 0
  {}

  // A taxed clear is split between the player and the opponent accordingly.
  lemma TaxedClear(g: Sim, c: int)
    requires On(g, MONDALE) && 0 <= c < 0x8000_0000
    ensures var kept := 7 * c / 10 - (if FallsShort(c) then 1 else 0);
      CreditClear(g, c) == Step(g.(tally := g.tally.(funds := g.tally.funds + kept)),
                                if c == kept then [] else [FundsStolen(c - kept)])
  {
    hide MondaleKept, FallsShort;
    KeptShare(c);
  }

  // A clear that falls short.
  lemma MondaleCanKeepLess()
    ensures MondaleKept(90) == 62 && 90 * 7 / 10 == 63
  {
    hide MondaleKept;
    assert Pow2(6) == 64;
    KeptShare(90);
  }
}
