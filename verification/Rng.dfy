/** The 48-bit linear congruential generator behind every random draw
    (rust/bt-core/src/rng.rs), and the proof that it walks one single cycle
    through all of its states. */
module Rng {

  const MULT: int := 0x5DEECE66D
  const INC: int := 0xB
  const MOD48: int := 0x1_0000_0000_0000
  const MOD64: int := 0x1_0000_0000_0000_0000

  // The state field is a 64-bit word; every step leaves it below 2^48.
  type Word = s: int | 0 <= s < MOD64
  type State48 = s: int | 0 <= s < MOD48

  // Wrapping a 64-bit product and then masking to 48 bits is reduction modulo 2^48.
  function Next(s: Word): State48 { (0x5DEECE66D * s + 0xB) % 0x1_0000_0000_0000 }

  function Seeded(seed: Word): State48
    // The high half of the state is the low half of the seed.
    ensures Seeded(seed % 0x1_0000_0000) == Seeded(seed)
  { (seed % 0x1_0000_0000) * 0x1_0000 + 0x330E }

  // The top 31 bits, as rand() and lrand48() return them.
  function Top31(s: State48): (r: int)
    ensures 0 <= r <= 0x7fff_ffff
  { s / 0x2_0000 }

  // rand() % n
  function Below(s: State48, n: int): (r: int)
    requires n > 0
    ensures 0 <= r < n
  { Top31(s) % n }

  /** The generator object: each draw overwrites the one state word. */
  class Generator {
    var state: Word

    constructor (seed: Word)
      ensures state == Seeded(seed)
    { state := Seeded(seed); }

    method NextState() returns (r: State48)
      modifies this
      ensures state == r == Next(old(state))
    {
      state := (MULT * state + INC) % MOD48;
      r := state;
    }

    method Rand() returns (r: int)
      modifies this
      ensures state == Next(old(state)) && r == Top31(Next(old(state)))
      ensures 0 <= r <= 0x7fff_ffff
    {
      var x := NextState();
      r := x / 0x2_0000;
    }

    method RandBelow(n: int) returns (r: int)
      requires n > 0
      modifies this
      ensures state == Next(old(state)) && r == Below(Next(old(state)), n)
    {
      var v := Rand();
      r := v % n;
    }

    // The numerator of drand48(): the fraction is this value over 2^48.
    method Drand48() returns (r: State48)
      modifies this
      ensures state == r == Next(old(state))
    { r := NextState(); }
  }

  // ----- powers of two -----

  function Pow2(k: nat): (p: int)
    ensures p > 0
  { if k == 0 then 1 else 2 * Pow2(k - 1) }

  lemma {:induction false} Pow2Add(j: nat, k: nat)
    ensures Pow2(j + k) == Pow2(j) * Pow2(k)
  {
    if j == 0 {
    } else {
      Pow2Add(j - 1, k);
      assert Pow2(j + k) == 2 * Pow2(j - 1 + k);
      assert (2 * Pow2(j - 1)) * Pow2(k) == 2 * (Pow2(j - 1) * Pow2(k));
    }
  }

  lemma Pow2Of48()
    ensures Pow2(48) == MOD48
  {
    assert Pow2(8) == 256;
    Pow2Add(8, 8);
    Pow2Add(16, 16);
    Pow2Add(32, 16);
  }

  // ----- the recurrence before any reduction -----

  // n unreduced steps from s. Reducing at the end gives the same state as reducing at
  // every step (IterIsReducedSteps).
  ghost function Steps(n: nat, s: int): int
    decreases n
  { if n == 0 then s else Steps(n - 1, MULT * s + INC) }

  ghost function Iter(n: nat, s: State48): State48
    decreases n
  { if n == 0 then s else Iter(n - 1, Next(s)) }

  lemma {:induction false} StepsAdd(m: nat, n: nat, s: int)
    ensures Steps(m + n, s) == Steps(n, Steps(m, s))
    decreases m
  {
    if m == 0 {
    } else {
      StepsAdd(m - 1, n, MULT * s + INC);
      assert m + n - 1 == (m - 1) + n;
    }
  }

  lemma {:induction false} StepsMod(n: nat, s: int, t: int, q: int)
    requires s - t == q * MOD48
    ensures exists v: int :: Steps(n, s) - Steps(n, t) == v * MOD48
    decreases n
  {
    if n == 0 {
    } else {
      assert (MULT * s + INC) - (MULT * t + INC) == (MULT * q) * MOD48 by {
        assert MULT * (s - t) == MULT * (q * MOD48) == (MULT * q) * MOD48;
      }
      StepsMod(n - 1, MULT * s + INC, MULT * t + INC, MULT * q);
    }
  }

  lemma {:induction false} IterIsReducedSteps(n: nat, s: State48)
    ensures exists v: int :: Steps(n, s) - Iter(n, s) == v * MOD48
    decreases n
  {
    if n == 0 {
      assert Steps(0, s) - Iter(0, s) == 0 * MOD48;
    } else {
      var full := MULT * s + INC;
      var q := full / MOD48;
      assert full - Next(s) == q * MOD48;
      StepsMod(n - 1, full, Next(s), q);
      IterIsReducedSteps(n - 1, Next(s));
      var u: int :| Steps(n - 1, full) - Steps(n - 1, Next(s)) == u * MOD48;
      var w: int :| Steps(n - 1, Next(s)) - Iter(n - 1, Next(s)) == w * MOD48;
      assert Steps(n, s) - Iter(n, s) == (u + w) * MOD48;
    }
  }

  // ----- a jump of 2^k steps -----

  ghost function Affine(p: int, a: int, c: int, s: int): int
  { (1 + 4 * p * a) * s + p * (2 * c + 1) }

  // 2^k steps are the affine map s -> (1 + 4 * 2^k * a) * s + 2^k * (2 * c + 1).
  ghost function JumpA(k: nat): int
  { if k == 0 then (MULT - 1) / 4 else var a := JumpA(k - 1); a + 2 * Pow2(k - 1) * a * a }

  ghost function JumpC(k: nat): int
  {
    if k == 0 then (INC - 1) / 2
    else var a, c := JumpA(k - 1), JumpC(k - 1); c + Pow2(k - 1) * a * (2 * c + 1)
  }

  lemma DoubleJump(p: int, a: int, c: int, s: int, p2: int, a2: int, c2: int)
    requires p2 == 2 * p && a2 == a + 2 * p * a * a && c2 == c + p * a * (2 * c + 1)
    ensures Affine(p, a, c, Affine(p, a, c, s)) == Affine(p2, a2, c2, s)
  {
    var m, d, pa := 1 + 4 * p * a, p * (2 * c + 1), p * a;
    SquareOf(pa);
    assert p * (p * a * a) == pa * pa;
    assert p * (pa * (2 * c + 1)) == pa * d;
    assert m * d + d == (2 + 4 * pa) * d;
    ApplyTwice(m, d, s);
  }

  lemma SquareOf(x: int)
    ensures (1 + 4 * x) * (1 + 4 * x) == 1 + 8 * x + 16 * (x * x)
  {}

  lemma ApplyTwice(m: int, d: int, s: int)
    ensures m * (m * s + d) + d == (m * m) * s + (m * d + d)
  {
    assert m * (m * s + d) == m * (m * s) + m * d;
    assert m * (m * s) == (m * m) * s;
  }

  lemma {:induction false} Jump(k: nat, s: int)
    ensures Steps(Pow2(k), s) == Affine(Pow2(k), JumpA(k), JumpC(k), s)
    decreases k
  {
    if k == 0 {
      assert Steps(1, s) == MULT * s + INC by { assert Steps(1, s) == Steps(0, MULT * s + INC); }
    } else {
      var p, a, c := Pow2(k - 1), JumpA(k - 1), JumpC(k - 1);
      var mid := Affine(p, a, c, s);
      hide Steps, Affine;
      Jump(k - 1, s);
      Jump(k - 1, mid);
      StepsAdd(p, p, s);
      DoubleJump(p, a, c, s, Pow2(k), JumpA(k), JumpC(k));
    }
  }

  // So a jump of 2^k steps moves the state by an odd multiple of 2^k.
  lemma OddJump(k: nat, s: int) returns (u: int)
    ensures Steps(Pow2(k), s) == s + Pow2(k) * (2 * u + 1)
  {
    hide Pow2, JumpA, JumpC, Steps;
    Jump(k, s);
    u := 2 * (JumpA(k) * s) + JumpC(k);
    Spread(Pow2(k), JumpA(k), JumpC(k), s);
  }

  lemma Spread(p: int, a: int, c: int, s: int)
    ensures Affine(p, a, c, s) == s + p * (2 * (2 * (a * s) + c) + 1)
  {
    var t := a * s;
    assert (4 * p * a) * s == 4 * (p * t);
    assert p * (2 * (2 * t + c) + 1) == 4 * (p * t) + p * (2 * c + 1);
  }

  // ----- every state is reached -----

  lemma HalfOf(p: int, q: int, o: int, r: int)
    requires q - o == 2 * r
    ensures p * q - p * o == (2 * p) * r
  {
    assert p * q - p * o == p * (q - o);
    assert p * (2 * r) == (2 * p) * r;
  }

  // Some n < 2^k steps take s to a value congruent to y modulo 2^k.
  lemma {:induction false} ReachModulo(k: nat, s: int, y: int) returns (n: nat, q: int)
    ensures n < Pow2(k)
    ensures y - Steps(n, s) == Pow2(k) * q
    decreases k
  {
    if k == 0 {
      n, q := 0, y - s;
    } else {
      hide Steps;
      var p := Pow2(k - 1);
      n, q := ReachModulo(k - 1, s, y);
      if q % 2 == 0 {
        q := q / 2;
        HalfOf(p, 2 * q, 0, q);
      } else {
        var u := OddJump(k - 1, Steps(n, s));
        StepsAdd(n, p, s);
        var r := (q - (2 * u + 1)) / 2;
        HalfOf(p, q, 2 * u + 1, r);
        n, q := n + p, r;
      }
    }
  }

  lemma CongruentStatesEqual(x: State48, y: State48, q: int)
    requires x - y == q * MOD48
    ensures x == y
  {}

  // ----- no shorter cycle -----

  // m jumps of 2^j steps move the state by 2^j * (2v + m).
  lemma {:induction false} ManyJumps(j: nat, m: nat, s: int) returns (v: int)
    ensures m * Pow2(j) >= 0
    ensures Steps(m * Pow2(j), s) == s + Pow2(j) * (2 * v + m)
    decreases m
  {
    var p := Pow2(j);
    if m == 0 {
      v := 0;
    } else {
      var u := OddJump(j, s);
      var w := ManyJumps(j, m - 1, s + p * (2 * u + 1));
      assert m * p == p + (m - 1) * p;
      StepsAdd(p, (m - 1) * p, s);
      v := u + w;
      assert p * (2 * u + 1) + p * (2 * w + (m - 1)) == p * (2 * v + m);
    }
  }

  lemma {:induction false} OddPart(n: nat) returns (j: nat, m: nat)
    requires n > 0
    ensures m % 2 == 1
    ensures n == m * Pow2(j)
    decreases n
  {
    if n % 2 == 1 {
      j, m := 0, n;
    } else {
      var i, o := OddPart(n / 2);
      j, m := i + 1, o;
      assert o * (2 * Pow2(i)) == 2 * (o * Pow2(i));
    }
  }

  lemma EvenIfDivisible(j: nat, x: int, q: int)
    requires j < 48 && Pow2(j) * x == q * MOD48
    ensures x % 2 == 0
  {
    Pow2Of48();
    Pow2Add(j, 48 - j);
    Halved(Pow2(j), Pow2(47 - j), x, q);
  }

  lemma Halved(p: int, h: int, x: int, q: int)
    requires p > 0 && p * x == q * (p * (2 * h))
    ensures x % 2 == 0
  {
    var t := h * q;
    assert q * (p * (2 * h)) == p * (2 * t);
    CancelFactor(p, x, 2 * t);
  }

  lemma MulStrict(p: int, x: int, y: int)
    requires p > 0 && x < y
    ensures p * x < p * y
  {}

  lemma CancelFactor(p: int, x: int, y: int)
    requires p > 0 && p * x == p * y
    ensures x == y
  {
    if x < y { MulStrict(p, x, y); }
    if x > y { MulStrict(p, y, x); }
  }

  lemma BigExponent(j: nat, m: nat)
    requires m >= 1 && j >= 48
    ensures m * Pow2(j) >= MOD48
  {
    Pow2Of48();
    Pow2Add(48, j - 48);
    ProductAtLeast(m, MOD48 * Pow2(j - 48));
  }

  lemma ProductAtLeast(m: int, x: int)
    requires m >= 1 && x >= 0
    ensures m * x >= x
  {
    assert (m - 1) * x >= 0;
  }

  /** The generator is one cycle of length 2^48: from any state every state is reached in
      fewer than 2^48 steps, and no state recurs earlier. */
  lemma SingleCycle(s: State48, y: State48) returns (n: nat)
    ensures n < MOD48 && Iter(n, s) == y
    ensures forall m: nat :: m < MOD48 && Iter(m, s) == y ==> m == n
  {
    Pow2Of48();
    var q;
    n, q := ReachModulo(48, s, y);
    IterIsReducedSteps(n, s);
    var v: int :| Steps(n, s) - Iter(n, s) == v * MOD48;
    assert y - Iter(n, s) == (q + v) * MOD48;
    CongruentStatesEqual(y, Iter(n, s), q + v);
    forall m: nat | m < MOD48 && Iter(m, s) == y
      ensures m == n
    {
      if m < n { NoEarlyReturn(m, n, s); }
      if n < m { NoEarlyReturn(n, m, s); }
    }
  }

  lemma {:induction false} IterAdd(m: nat, n: nat, s: State48)
    ensures Iter(m + n, s) == Iter(n, Iter(m, s))
    decreases m
  {
    if m == 0 {
    } else {
      IterAdd(m - 1, n, Next(s));
      assert m + n - 1 == (m - 1) + n;
    }
  }

  lemma NoEarlyReturn(m: nat, n: nat, s: State48)
    requires m < n < MOD48
    ensures Iter(m, s) != Iter(n, s)
  {
    hide Iter;
    IterAdd(m, n - m, s);
    NotBack(n - m, Iter(m, s));
  }

  lemma NotBack(d: nat, t: State48)
    requires 0 < d < MOD48
    ensures Iter(d, t) != t
  {
    hide Iter, Steps, Pow2, Next;
    var j, o := OddPart(d);
    if j >= 48 { BigExponent(j, o); }
    var v := ManyJumps(j, o, t);
    IterIsReducedSteps(d, t);
    var w: int :| Steps(d, t) - Iter(d, t) == w * MOD48;
    if Iter(d, t) == t {
      EvenIfDivisible(j, 2 * v + o, w);
      SameParity(2 * v + o, o, v);
    }
  }

  // ----- the distance to a state, a measure for rejection loops -----

  ghost function Distance(s: State48, w: State48): (n: nat)
    ensures n < MOD48 && Iter(n, s) == w
  {
    assert exists n: nat :: n < MOD48 && Iter(n, s) == w by {
      var n := SingleCycle(s, w);
    }
    var n: nat :| n < MOD48 && Iter(n, s) == w;
    n
  }

  lemma DistanceUnique(s: State48, w: State48, n: nat)
    requires n < MOD48 && Iter(n, s) == w
    ensures Distance(s, w) == n
  { var k := SingleCycle(s, w); }

  lemma SameParity(x: int, y: int, k: int)
    requires x - y == 2 * k
    ensures x % 2 == y % 2
  {}

  lemma AddParity(x: int, y: int, n: int)
    requires x % 2 == y % 2
    ensures (x + n) % 2 == (y + n) % 2
  {}

  lemma NextParity(s: Word)
    ensures Next(s) % 2 == (s + 1) % 2
  {
    var full := 0x5DEECE66D * s + 0xB;
    Divided(full);
    ParityOf(s, full / 0x1_0000_0000_0000, Next(s));
  }

  lemma Divided(x: int)
    ensures x == (x / 0x1_0000_0000_0000) * 0x1_0000_0000_0000 + x % 0x1_0000_0000_0000
  {}

  lemma ParityOf(s: int, q: int, r: int)
    requires 0x5DEECE66D * s + 0xB == q * 0x1_0000_0000_0000 + r
    ensures r % 2 == (s + 1) % 2
  { SameParity(r, s + 1, 0x2EF767336 * s + 5 - 0x8000_0000_0000 * q); }

  // Each step flips the low bit, so the parity of the distance is known.
  lemma {:induction false} ParityFlips(n: nat, s: State48)
    ensures Iter(n, s) % 2 == (s + n) % 2
    decreases n
  {
    if n == 0 {
    } else {
      hide Next;
      NextParity(s);
      ParityFlips(n - 1, Next(s));
      AddParity(Next(s), s + 1, n - 1);
    }
  }

  // The same stream from a 64-bit word: only its low 48 bits matter.
  lemma NextOfLow(s: Word)
    ensures Next(s) == Next(s % MOD48)
  {
    var q := s / MOD48;
    assert MULT * s + INC == MULT * (s % MOD48) + INC + (MULT * q) * MOD48;
    ModShift(MULT * (s % MOD48) + INC, MULT * q);
  }

  lemma ModShift(x: int, q: int)
    ensures (x + q * MOD48) % MOD48 == x % MOD48
  {
    var a, b := x / MOD48, (x + q * MOD48) / MOD48;
    var r := (x + q * MOD48) % MOD48 - x % MOD48;
    assert r == (q + a - b) * MOD48;
    CongruentStatesEqual((x + q * MOD48) % MOD48, x % MOD48, q + a - b);
  }

  // A rejection loop that draws twice per round, and has not yet hit w with its first
  // draw, is two steps closer to w after the round.
  ghost function RoundsTo(s: Word, w: State48): nat
  { Distance(s % MOD48, w) }

  lemma RoundCloser(s: Word, w: State48)
    requires w % 2 == (s + 1) % 2
    requires Next(s) != w
    ensures RoundsTo(Next(Next(s)), w) < RoundsTo(s, w)
  {
    hide Next, Distance;
    NextOfLow(s);
    LowParity(s);
    AddParity(s % MOD48, s, 1);
    LowOfState(Next(Next(s)));
    TwoCloser(s % MOD48, w);
  }

  lemma LowParity(s: Word)
    ensures (s % MOD48) % 2 == s % 2
  { SameParity(s, s % MOD48, (MOD48 / 2) * (s / MOD48)); }

  lemma LowOfState(s: State48)
    ensures s % MOD48 == s
  {}

  lemma TwoCloser(t: State48, w: State48)
    requires w % 2 == (t + 1) % 2
    requires Next(t) != w
    ensures Distance(Next(Next(t)), w) < Distance(t, w)
  {
    hide Next;
    var d := Distance(t, w);
    ParityFlips(d, t);
    assert Iter(1, t) == Iter(0, Next(t)) == Next(t);
    IterAdd(2, d - 2, t);
    assert Iter(2, t) == Iter(1, Next(t)) == Iter(0, Next(Next(t)));
    DistanceUnique(Next(Next(t)), w, d - 2);
  }
}
