/** The TrueSkill 2 match update (rust/bt-trueskill/src/ts2.rs:138-201,
    rust/bt-trueskill/src/lib.rs:137-201) over the reals. The truncated-Gaussian factors, the
    square root and the inverse normal are given by the facts the update rests on. */
module Ratings {

  // A belief about a skill: mean and variance (the original stores the deviation).
  datatype Rating = Rating(mu: real, variance: real)

  datatype Params = Params(beta: real, tau: real, margin: real, perfLambda: real, linesObsVar: real)

  // The special functions of the original, as far as the update uses them.
  datatype Special = Special(
    sqrt: real -> real,
    vWin: (real, real) -> real, wWin: (real, real) -> real,
    vDraw: (real, real) -> real, wDraw: (real, real) -> real)

  ghost predicate Lawful(f: Special)
  {
    && (forall x: real :: x > 0.0 ==> f.sqrt(x) > 0.0 && f.sqrt(x) * f.sqrt(x) == x)
    && (forall t: real, e: real :: 0.0 <= f.wWin(t, e) <= 1.0)
    && (forall t: real, e: real :: 0.0 <= f.wDraw(t, e) <= 1.0 && f.wDraw(-t, e) == f.wDraw(t, e))
    && (forall t: real, e: real :: f.vDraw(-t, e) == -f.vDraw(t, e))
    // A win speaks for the winner, a draw for the one who was behind; and the better a side
    // was expected to do, the higher it stands after a win.
    && (forall t: real, e: real :: f.vWin(t, e) > 0.0)
    && (forall t: real, e: real :: t > 0.0 && e > 0.0 ==> f.vDraw(t, e) < 0.0)
    && (forall t: real, u: real, e: real :: t < u ==> t + f.vWin(t, e) < u + f.vWin(u, e))
  }

  const FLOOR: real := 0.000000001

  function MaxReal(a: real, b: real): (m: real)
    ensures m >= a && m >= b && (m == a || m == b)
  { if a < b then b else a }

  predicate Sane(r: Rating) { r.variance > 0.0 }
  predicate SaneParams(p: Params) { p.beta > 0.0 }

  // Variance inflated by the dynamics term.
  function Inflated(r: Rating, p: Params): real { r.variance + p.tau * p.tau }

  // The spread of the performance margin.
  function Spread(w: Rating, l: Rating, p: Params): real
  { Inflated(w, p) + Inflated(l, p) + 2.0 * p.beta * p.beta }

  lemma SpreadExceeds(w: Rating, l: Rating, p: Params)
    requires Sane(w) && Sane(l) && SaneParams(p)
    ensures 0.0 < Inflated(w, p) < Spread(w, l, p) && 0.0 < Inflated(l, p) < Spread(w, l, p)
  {
    Square(p.tau);
    Square(p.beta);
  }

  lemma Square(x: real)
    ensures x * x >= 0.0 && (x != 0.0 ==> x * x > 0.0)
  {}

  // ----- the classic update -----

  function ClassicShift(variance: real, c: real, v: real, sign: real): real
    requires c > 0.0
  { sign * (variance / c) * v }

  function ClassicVariance(variance: real, c: real, w: real): real
    requires c > 0.0
  { variance * (1.0 - variance / (c * c) * w) }

  // Mean and variance before the numerical floor.
  function UpdateRaw(mu: real, variance: real, c: real, v: real, w: real, sign: real): Rating
    requires c > 0.0
  { Rating(mu + ClassicShift(variance, c, v, sign), ClassicVariance(variance, c, w)) }

  function Floored(r: Rating): Rating
  { if r.variance < FLOOR then r.(variance := FLOOR) else r }

  // The root of both players' spread and the performance noise.
  function Root(a: Rating, b: Rating, p: Params, f: Special): real
  { f.sqrt(2.0 * p.beta * p.beta + Inflated(a, p) + Inflated(b, p)) }

  function RateClassicRaw(w: Rating, l: Rating, p: Params, f: Special): (Rating, Rating)
    requires Root(w, l, p, f) > 0.0
  {
    var c := Root(w, l, p, f);
    var t, e := (w.mu - l.mu) / c, p.margin / c;
    (UpdateRaw(w.mu, Inflated(w, p), c, f.vWin(t, e), f.wWin(t, e), 1.0),
     UpdateRaw(l.mu, Inflated(l, p), c, f.vWin(t, e), f.wWin(t, e), -1.0))
  }

  function RateDrawRaw(a: Rating, b: Rating, p: Params, f: Special): (Rating, Rating)
    requires Root(a, b, p, f) > 0.0
  {
    var c := Root(a, b, p, f);
    var t, e := (a.mu - b.mu) / c, p.margin / c;
    (UpdateRaw(a.mu, Inflated(a, p), c, f.vDraw(t, e), f.wDraw(t, e), 1.0),
     UpdateRaw(b.mu, Inflated(b, p), c, f.vDraw(t, e), f.wDraw(t, e), -1.0))
  }

  // ----- the decisive update with the line margin z -----

  function ObsVar(p: Params): (r: real)
    ensures r > 0.0
  { MaxReal(p.linesObsVar, FLOOR) }

  function Denominator(c: real, p: Params): real { p.perfLambda * p.perfLambda * c + ObsVar(p) }

  // The spread left after the measurement.
  function Measured(c: real, p: Params): real
    requires Denominator(c, p) != 0.0
  { c * ObsVar(p) / Denominator(c, p) }

  // What the line margin and the result say together, the same for both sides: the gain of
  // the measurement, its denominator, the spread before and its root after, and the factors.
  datatype Evidence = Evidence(gain: real, d: real, c: real, sc: real, v: real, w: real)

  function Weigh(w: Rating, l: Rating, z: real, p: Params, f: Special): (e: Evidence)
    requires var c := Spread(w, l, p);
      Denominator(c, p) != 0.0 && Measured(c, p) != 0.0 && f.sqrt(Measured(c, p)) > 0.0
    ensures e.c == Spread(w, l, p) && e.d == Denominator(e.c, p) != 0.0 && e.sc == f.sqrt(Measured(e.c, p)) > 0.0
    ensures e.c * ObsVar(p) / e.d != 0.0
  {
    var c := Spread(w, l, p);
    var d := Denominator(c, p);
    var muD := w.mu - l.mu;
    var g := p.perfLambda * (z - p.perfLambda * muD) / d;
    var sc := f.sqrt(Measured(c, p));
    var t := Standing(muD, c, g, sc);
    Evidence(g, d, c, sc, f.vWin(t, p.margin / sc), f.wWin(t, p.margin / sc))
  }

  // The margin's mean after the measurement, on the scale of its root.
  function Standing(m: real, c: real, gain: real, sc: real): real
    requires sc != 0.0
  { (m + c * gain) / sc }

  // What the line measurement and then the win take off a side's variance.
  function MeasureLoss(k: real, e: Evidence, p: Params): real
    requires e.d != 0.0
  { k * k * p.perfLambda * p.perfLambda / e.d }

  function WinLoss(k: real, e: Evidence, p: Params): real
    requires e.d != 0.0 && e.c * ObsVar(p) / e.d != 0.0
  { Leverage(k, e.c, e.d, ObsVar(p)) * e.w }

  // A side's measured share, squared, over the measured spread.
  function Leverage(k: real, c: real, d: real, r: real): real
    requires d != 0.0 && c * r / d != 0.0
  { (k * r / d) * (k * r / d) / (c * r / d) }

  // How far a side's mean moves.
  function Shift(k: real, e: Evidence, p: Params): real
    requires e.d != 0.0 && e.sc != 0.0
  { k * e.gain + (k * ObsVar(p) / e.d / e.sc) * e.v }

  // One side: k is its share of the spread, positive for the winner.
  function SideRaw(mu: real, variance: real, k: real, e: Evidence, p: Params): Rating
    requires e.d != 0.0 && e.sc != 0.0 && e.c * ObsVar(p) / e.d != 0.0
  {
    Rating(mu + Shift(k, e, p), variance - MeasureLoss(k, e, p) - WinLoss(k, e, p))
  }

  function RateDecisiveRaw(w: Rating, l: Rating, z: real, p: Params, f: Special): (Rating, Rating)
    requires var c := Spread(w, l, p);
      Denominator(c, p) != 0.0 && Measured(c, p) != 0.0 && f.sqrt(Measured(c, p)) > 0.0
  {
    var e := Weigh(w, l, z, p, f);
    (SideRaw(w.mu, Inflated(w, p), Inflated(w, p), e, p), SideRaw(l.mu, Inflated(l, p), -Inflated(l, p), e, p))
  }

  function RateDecisive(w: Rating, l: Rating, z: real, p: Params, f: Special): (Rating, Rating)
    requires var c := Spread(w, l, p);
      Denominator(c, p) != 0.0 && Measured(c, p) != 0.0 && f.sqrt(Measured(c, p)) > 0.0
  { var r := RateDecisiveRaw(w, l, z, p, f); (Floored(r.0), Floored(r.1)) }

  function RateClassic(w: Rating, l: Rating, p: Params, f: Special): (Rating, Rating)
    requires Root(w, l, p, f) > 0.0
  { var r := RateClassicRaw(w, l, p, f); (Floored(r.0), Floored(r.1)) }

  // ----- algebra -----

  lemma DivPositive(a: real, b: real)
    requires a > 0.0 && b > 0.0
    ensures a / b > 0.0
  {}

  lemma MulPositive(a: real, b: real)
    requires a > 0.0 && b > 0.0
    ensures a * b > 0.0
  {}

  lemma DenominatorPositive(c: real, p: Params)
    requires c > 0.0
    ensures Denominator(c, p) >= ObsVar(p) > 0.0
    ensures Measured(c, p) > 0.0
  {
    Square(p.perfLambda);
    assert p.perfLambda * p.perfLambda * c >= 0.0;
    MulPositive(c, ObsVar(p));
    DivPositive(c * ObsVar(p), Denominator(c, p));
  }

  lemma CallableDecisive(w: Rating, l: Rating, p: Params, f: Special)
    requires Lawful(f) && Sane(w) && Sane(l) && SaneParams(p)
    ensures var c := Spread(w, l, p);
      Denominator(c, p) > 0.0 && Measured(c, p) > 0.0 && f.sqrt(Measured(c, p)) > 0.0
  {
    SpreadExceeds(w, l, p);
    DenominatorPositive(Spread(w, l, p), p);
  }

  lemma ScaledDown(a: real, s: real, w: real, top: real)
    requires a >= 0.0 && s >= 0.0 && 0.0 <= w <= 1.0 && a + s == top
    ensures 0.0 <= a + s * w <= top
  {
    assert s * w >= 0.0;
    assert s * (1.0 - w) >= 0.0;
  }

  lemma NotNegative(a: real, b: real)
    requires a >= 0.0 && b >= 0.0
    ensures a * b >= 0.0
  {}

  lemma NotNegativeOver(a: real, d: real)
    requires a >= 0.0 && d > 0.0
    ensures a / d >= 0.0
  {}

  lemma GainIs(k: real, c: real, d: real, r: real)
    requires c > 0.0 && r > 0.0 && d > 0.0 && c * r / d != 0.0
    ensures Leverage(k, c, d, r) == k * k * (r / (d * c))
  {
    var x := r / d;
    assert k * r / d == k * x && c * r / d == c * x;
    assert x > 0.0;
    assert (k * x) * (k * x) == (k * k * x) * x;
    assert (k * k * x) * x / (c * x) == k * k * x / c;
    assert x / c == r / (d * c);
  }

  lemma Parts(kk: real, ll: real, c: real, d: real, r: real)
    requires c > 0.0 && d > 0.0 && d == ll * c + r
    ensures kk * ll / d + kk * (r / (d * c)) == kk / c
  {
    assert r / (d * c) == (r / d) / c;
    assert kk * ll / d == kk * (ll / d);
    assert ll / d + (r / d) / c == (ll * c / d + r / d) / c;
    assert ll * c / d + r / d == (ll * c + r) / d == 1.0;
  }

  lemma LessThanWhole(x: real, c: real)
    requires 0.0 < x < c
    ensures x * x / c < x
  {
    assert x * x < x * c;
    assert x * x / c < x * c / c == x;
  }

  lemma Combine(x: real, a: real, b: real, top: real)
    requires 0.0 <= a + b <= top && top < x
    ensures 0.0 < x - a - b <= x
  {}

  lemma SameSquare(x: real, k: real)
    requires k == x || k == -x
    ensures k * k == x * x
  {}

  lemma SideVariance(mu: real, x: real, k: real, e: Evidence, p: Params)
    requires e.d == Denominator(e.c, p) && e.d > 0.0 && e.sc > 0.0 && e.c * ObsVar(p) / e.d != 0.0
    requires 0.0 < x < e.c && (k == x || k == -x) && 0.0 <= e.w <= 1.0
    ensures 0.0 < SideRaw(mu, x, k, e, p).variance <= x
  {
    Losses(k, e, p);
    LessThanWhole(x, e.c);
    SameSquare(x, k);
    hide MeasureLoss, WinLoss;
    Combine(x, MeasureLoss(k, e, p), WinLoss(k, e, p), x * x / e.c);
  }

  // The measurement and the win together take at most k²/c off the variance.
  lemma Losses(k: real, e: Evidence, p: Params)
    requires e.d == Denominator(e.c, p) && e.d > 0.0 && e.c > 0.0 && e.c * ObsVar(p) / e.d != 0.0
    requires 0.0 <= e.w <= 1.0
    ensures 0.0 <= MeasureLoss(k, e, p) + WinLoss(k, e, p) <= k * k / e.c
  {
    var r, lam := ObsVar(p), p.perfLambda;
    var kk, ll := k * k, lam * lam;
    var s := kk * (r / (e.d * e.c));
    Square(k);
    Square(lam);
    LossIs(k, lam, e.d);
    GainIs(k, e.c, e.d, r);
    Parts(kk, ll, e.c, e.d, r);
    MulPositive(e.d, e.c);
    DivPositive(r, e.d * e.c);
    NotNegative(kk, r / (e.d * e.c));
    NotNegative(kk, ll);
    NotNegativeOver(kk * ll, e.d);
    ScaledDown(kk * ll / e.d, s, e.w, kk / e.c);
    assert MeasureLoss(k, e, p) == kk * ll / e.d;
    WinLossIs(k, e, p);
  }

  lemma WinLossIs(k: real, e: Evidence, p: Params)
    requires e.d > 0.0 && e.c > 0.0 && e.c * ObsVar(p) / e.d != 0.0
    ensures WinLoss(k, e, p) == (k * k * (ObsVar(p) / (e.d * e.c))) * e.w
  {
    GainIs(k, e.c, e.d, ObsVar(p));
    hide Leverage, ObsVar;
  }

  lemma LossIs(k: real, lam: real, d: real)
    requires d != 0.0
    ensures k * k * lam * lam / d == (k * k) * (lam * lam) / d
  { assert k * k * lam * lam == (k * k) * (lam * lam); }

  /** Before the numerical floor, both posterior variances stay strictly positive and at most
      the prior variance plus the dynamics term. */
  lemma VariancesStay(w: Rating, l: Rating, z: real, p: Params, f: Special)
    requires Lawful(f) && Sane(w) && Sane(l) && SaneParams(p)
    requires var c := Spread(w, l, p);
      Denominator(c, p) != 0.0 && Measured(c, p) != 0.0 && f.sqrt(Measured(c, p)) > 0.0
    ensures var r := RateDecisiveRaw(w, l, z, p, f);
      && 0.0 < r.0.variance <= Inflated(w, p) && 0.0 < r.1.variance <= Inflated(l, p)
    ensures var r := RateDecisive(w, l, z, p, f);
      && FLOOR <= r.0.variance <= MaxReal(Inflated(w, p), FLOOR)
      && FLOOR <= r.1.variance <= MaxReal(Inflated(l, p), FLOOR)
  {
    CallableDecisive(w, l, p, f);
    SpreadExceeds(w, l, p);
    FactorInRange(w, l, z, p, f);
    hide SideRaw, Denominator, Lawful, Weigh, Inflated, Spread, Measured;
    var e := Weigh(w, l, z, p, f);
    SideVariance(w.mu, Inflated(w, p), Inflated(w, p), e, p);
    SideVariance(l.mu, Inflated(l, p), -Inflated(l, p), e, p);
  }

  lemma FactorInRange(w: Rating, l: Rating, z: real, p: Params, f: Special)
    requires Lawful(f)
    requires var c := Spread(w, l, p);
      Denominator(c, p) != 0.0 && Measured(c, p) != 0.0 && f.sqrt(Measured(c, p)) > 0.0
    ensures 0.0 <= Weigh(w, l, z, p, f).w <= 1.0
  { hide Spread, Denominator, Measured; }

  // ----- the means -----

  // A side's mean moves by its share times one common amount.
  lemma SideShift(mu: real, x: real, k: real, e: Evidence, p: Params)
    requires e.d != 0.0 && e.sc != 0.0 && e.c * ObsVar(p) / e.d != 0.0
    ensures SideRaw(mu, x, k, e, p).mu - mu == k * (e.gain + ObsVar(p) / e.d / e.sc * e.v)
  {
    hide ObsVar, MeasureLoss, WinLoss;
    DivOut(k, ObsVar(p), e.d);
    Regroup(k, ObsVar(p) / e.d, e.sc, e.v, e.gain);
  }

  lemma DivOut(k: real, q: real, s: real)
    requires s != 0.0
    ensures k * q / s == k * (q / s)
  {}

  lemma MulOut(k: real, x: real, v: real)
    ensures (k * x) * v == k * (x * v)
  {}

  lemma Regroup(k: real, q: real, s: real, v: real, g: real)
    requires s != 0.0
    ensures k * g + (k * q / s) * v == k * (g + q / s * v)
  {
    DivOut(k, q, s);
    MulOut(k, q / s, v);
  }

  /** The two mean shifts cancel when each is weighted by the inverse of its inflated
      variance: the winner's gain and the loser's loss are one and the same evidence. */
  lemma ShiftsCancel(w: Rating, l: Rating, z: real, p: Params, f: Special)
    requires Sane(w) && Sane(l)
    requires var c := Spread(w, l, p);
      Denominator(c, p) != 0.0 && Measured(c, p) != 0.0 && f.sqrt(Measured(c, p)) > 0.0
    requires Inflated(w, p) > 0.0 && Inflated(l, p) > 0.0
    ensures var r := RateDecisiveRaw(w, l, z, p, f);
      (r.0.mu - w.mu) / Inflated(w, p) + (r.1.mu - l.mu) / Inflated(l, p) == 0.0
  {
    hide SideRaw, Denominator, Weigh, Inflated, Spread, Measured;
    var e := Weigh(w, l, z, p, f);
    var q := e.gain + ObsVar(p) / e.d / e.sc * e.v;
    SideShift(w.mu, Inflated(w, p), Inflated(w, p), e, p);
    SideShift(l.mu, Inflated(l, p), -Inflated(l, p), e, p);
    Opposite(Inflated(w, p), Inflated(l, p), q);
  }

  lemma Opposite(x: real, y: real, q: real)
    requires x > 0.0 && y > 0.0
    ensures x * q / x + (-y) * q / y == 0.0
  {
    assert x * q / x == q;
    assert (-y) * q / y == -q;
  }

  // ----- no lines signal -----

  lemma WithoutSignal(c: real, p: Params)
    requires p.perfLambda == 0.0 && c > 0.0
    ensures Denominator(c, p) == ObsVar(p) && Measured(c, p) == c
  { assert c * ObsVar(p) / ObsVar(p) == c; }

  lemma SideWithoutSignal(mu: real, x: real, sign: real, e: Evidence, p: Params)
    requires p.perfLambda == 0.0 && e.c > 0.0 && e.sc > 0.0 && e.sc * e.sc == e.c && (sign == 1.0 || sign == -1.0)
    requires e.d == ObsVar(p) && e.gain == 0.0 && e.c * ObsVar(p) / e.d != 0.0
    ensures SideRaw(mu, x, sign * x, e, p) == UpdateRaw(mu, x, e.sc, e.v, e.w, sign)
  {
    hide MeasureLoss, WinLoss, ObsVar, Shift, ClassicShift, ClassicVariance;
    SignedShare(x, sign);
    LossesWithoutSignal(x, sign * x, e, p);
    MeanWithoutSignal(x, sign, e, p);
    VarianceWithoutSignal(x, sign, e, p);
  }

  lemma SignedShare(x: real, sign: real)
    requires sign == 1.0 || sign == -1.0
    ensures sign * x == x || sign * x == -x
  {}

  lemma VarianceWithoutSignal(x: real, sign: real, e: Evidence, p: Params)
    requires e.c > 0.0 && e.sc > 0.0 && e.sc * e.sc == e.c && e.d != 0.0 && e.c * ObsVar(p) / e.d != 0.0
    requires MeasureLoss(sign * x, e, p) == 0.0 && WinLoss(sign * x, e, p) == (x * x / e.c) * e.w
    ensures x - MeasureLoss(sign * x, e, p) - WinLoss(sign * x, e, p) == ClassicVariance(x, e.sc, e.w)
  {
    hide MeasureLoss, WinLoss, ObsVar;
    ShrinkClassic(x, e.c, e.w);
  }

  lemma LossesWithoutSignal(x: real, k: real, e: Evidence, p: Params)
    requires p.perfLambda == 0.0 && e.c > 0.0 && e.d == ObsVar(p) && e.c * ObsVar(p) / e.d != 0.0
    requires k == x || k == -x
    ensures MeasureLoss(k, e, p) == 0.0 && WinLoss(k, e, p) == (x * x / e.c) * e.w
  {
    OverItself(k, e.d);
    OverItself(e.c, e.d);
    SameSquare(x, k);
    assert k * k * p.perfLambda == 0.0;
  }

  lemma MeanWithoutSignal(x: real, sign: real, e: Evidence, p: Params)
    requires e.sc > 0.0 && e.d == ObsVar(p) && e.gain == 0.0
    ensures Shift(sign * x, e, p) == ClassicShift(x, e.sc, e.v, sign)
  {
    hide ObsVar;
    OverItself(sign * x, e.d);
    SignOut(sign, x, e.sc, e.v);
    assert (sign * x) * e.gain == 0.0;
  }

  lemma OverItself(a: real, r: real)
    requires r != 0.0
    ensures a * r / r == a
  {}

  lemma SignOut(sign: real, x: real, s: real, v: real)
    requires s != 0.0
    ensures (sign * x / s) * v == sign * (x / s) * v
  { assert sign * x / s == sign * (x / s); }

  lemma ShrinkClassic(x: real, c: real, w: real)
    requires c != 0.0
    ensures x - (x * x / c) * w == x * (1.0 - x / c * w)
  {
    assert x * x / c == x * (x / c);
    assert (x * (x / c)) * w == x * (x / c * w);
  }

  lemma WeighWithoutSignal(w: Rating, l: Rating, z: real, p: Params, f: Special)
    requires Lawful(f) && Sane(w) && Sane(l) && SaneParams(p) && p.perfLambda == 0.0
    requires var c := Spread(w, l, p);
      Denominator(c, p) != 0.0 && Measured(c, p) != 0.0 && f.sqrt(Measured(c, p)) > 0.0
    ensures var e, s := Weigh(w, l, z, p, f), f.sqrt(Spread(w, l, p));
      && e.d == ObsVar(p) && e.gain == 0.0 && e.sc == s > 0.0 && e.sc * e.sc == e.c > 0.0
      && e.v == f.vWin((w.mu - l.mu) / s, p.margin / s) && e.w == f.wWin((w.mu - l.mu) / s, p.margin / s)
  {
    var c := Spread(w, l, p);
    SpreadExceeds(w, l, p);
    WithoutSignal(c, p);
    RootOf(f, c);
    hide Denominator, Measured, Spread, Lawful, ObsVar;
    assert p.perfLambda * (z - p.perfLambda * (w.mu - l.mu)) / ObsVar(p) == 0.0;
    assert c * 0.0 == 0.0;
  }

  lemma RootOf(f: Special, x: real)
    requires Lawful(f) && x > 0.0
    ensures f.sqrt(x) > 0.0 && f.sqrt(x) * f.sqrt(x) == x
  {}

  /** With the line signal off, the update is exactly the classic one. */
  lemma NoSignalIsClassic(w: Rating, l: Rating, z: real, p: Params, f: Special)
    requires Lawful(f) && Sane(w) && Sane(l) && SaneParams(p) && p.perfLambda == 0.0
    requires var c := Spread(w, l, p);
      Denominator(c, p) != 0.0 && Measured(c, p) != 0.0 && f.sqrt(Measured(c, p)) > 0.0
    requires Root(w, l, p, f) > 0.0
    ensures RateDecisiveRaw(w, l, z, p, f) == RateClassicRaw(w, l, p, f)
    ensures RateDecisive(w, l, z, p, f) == RateClassic(w, l, p, f)
  {
    WeighWithoutSignal(w, l, z, p, f);
    assert Spread(w, l, p) == 2.0 * p.beta * p.beta + Inflated(w, p) + Inflated(l, p);
    hide SideRaw, UpdateRaw, Lawful, Weigh, Denominator, Measured, Spread, Inflated;
    var e := Weigh(w, l, z, p, f);
    SideWithoutSignal(w.mu, Inflated(w, p), 1.0, e, p);
    SideWithoutSignal(l.mu, Inflated(l, p), -1.0, e, p);
  }

  // ----- draws -----

  lemma RootSwaps(a: Rating, b: Rating, p: Params, f: Special)
    ensures Root(a, b, p, f) == Root(b, a, p, f)
  {
    hide Inflated;
    SumSwaps(p.beta, Inflated(a, p), Inflated(b, p));
  }

  lemma SumSwaps(b: real, x: real, y: real)
    ensures 2.0 * b * b + x + y == 2.0 * b * b + y + x
  {}

  /** A draw does not depend on which player is called first. */
  lemma DrawIsFair(a: Rating, b: Rating, p: Params, f: Special)
    requires Lawful(f) && Root(a, b, p, f) > 0.0 && Root(b, a, p, f) > 0.0
    ensures var r, s := RateDrawRaw(a, b, p, f), RateDrawRaw(b, a, p, f); r == (s.1, s.0)
  {
    hide Lawful, ClassicShift, ClassicVariance, Inflated, Root;
    RootSwaps(a, b, p, f);
    var c := Root(a, b, p, f);
    var t, e := (a.mu - b.mu) / c, p.margin / c;
    Negated(a.mu, b.mu, c);
    DrawFactors(f, t, e);
    Mirrored(Inflated(a, p), c, f.vDraw(t, e));
    Mirrored(Inflated(b, p), c, f.vDraw(t, e));
  }

  lemma Negated(a: real, b: real, c: real)
    requires c != 0.0
    ensures (b - a) / c == -((a - b) / c)
  {}

  lemma DrawFactors(f: Special, t: real, e: real)
    requires Lawful(f)
    ensures f.vDraw(-t, e) == -f.vDraw(t, e) && f.wDraw(-t, e) == f.wDraw(t, e)
  {}

  lemma Mirrored(x: real, c: real, v: real)
    requires c > 0.0
    ensures ClassicShift(x, c, -v, -1.0) == ClassicShift(x, c, v, 1.0)
    ensures ClassicShift(x, c, -v, 1.0) == ClassicShift(x, c, v, -1.0)
  { NegTwice(x / c, v); }

  lemma NegTwice(x: real, v: real)
    ensures -1.0 * x * -v == 1.0 * x * v && -1.0 * x * v == 1.0 * x * -v
  {}

  // ----- which way the means move -----

  lemma ScaledSign(k: real, c: real, x: real)
    requires k > 0.0 && c > 0.0 && x > 0.0
    ensures k / c * x > 0.0
  {
    DivPositive(k, c);
    MulPositive(k / c, x);
  }

  /** The classic update: the winner's mean rises and the loser's falls. */
  lemma WinnerRisesClassic(w: Rating, l: Rating, p: Params, f: Special)
    requires Lawful(f) && Sane(w) && Sane(l) && SaneParams(p) && Root(w, l, p, f) > 0.0
    ensures var r := RateClassic(w, l, p, f); r.0.mu > w.mu && r.1.mu < l.mu
  {
    var c := Root(w, l, p, f);
    var v := f.vWin((w.mu - l.mu) / c, p.margin / c);
    assert v > 0.0;
    SpreadExceeds(w, l, p);
    hide Root, Inflated, Lawful, ClassicVariance;
    ScaledSign(Inflated(w, p), c, v);
    ScaledSign(Inflated(l, p), c, v);
  }

  /** A draw pulls the two means towards each other. */
  lemma DrawPullsTogether(a: Rating, b: Rating, p: Params, f: Special)
    requires Lawful(f) && Sane(a) && Sane(b) && SaneParams(p) && Root(a, b, p, f) > 0.0
    requires p.margin > 0.0 && a.mu > b.mu
    ensures var r := RateDrawRaw(a, b, p, f); r.0.mu < a.mu && r.1.mu > b.mu
  {
    var c := Root(a, b, p, f);
    var t, e := (a.mu - b.mu) / c, p.margin / c;
    DivPositive(a.mu - b.mu, c);
    DivPositive(p.margin, c);
    var v := f.vDraw(t, e);
    assert v < 0.0;
    SpreadExceeds(a, b, p);
    hide Root, Inflated, Lawful, ClassicVariance;
    ScaledSign(Inflated(a, p), c, -v);
    ScaledSign(Inflated(b, p), c, -v);
    assert Inflated(a, p) / c * (-v) == -(Inflated(a, p) / c * v);
    assert Inflated(b, p) / c * (-v) == -(Inflated(b, p) / c * v);
  }

  // A mean moves by its share of what the margin's mean moves: the measurement's part and the
  // win's.
  function MarginMove(e: Evidence): real { e.c * e.gain + e.sc * e.v }

  lemma ShiftIs(k: real, e: Evidence, p: Params)
    requires e.c > 0.0 && e.d > 0.0 && e.sc > 0.0 && e.sc * e.sc == e.c * ObsVar(p) / e.d
    ensures Shift(k, e, p) == k / e.c * MarginMove(e)
  {
    var r, x := ObsVar(p), k / e.c;
    hide ObsVar;
    assert k == x * e.c;
    assert r / e.d == e.sc * e.sc / e.c by { OverTwice(e.c, r, e.d, e.sc * e.sc); }
    assert k * r / e.d == k * (r / e.d);
    assert k * (e.sc * e.sc / e.c) == x * (e.sc * e.sc);
    assert x * (e.sc * e.sc) / e.sc == x * e.sc by { Cancels(x * e.sc, e.sc); }
    assert k * e.gain == x * (e.c * e.gain);
    assert (x * e.sc) * e.v == x * (e.sc * e.v);
  }

  lemma Cancels(a: real, b: real)
    requires b > 0.0
    ensures a * b / b == a
  {}

  lemma OverTwice(c: real, r: real, d: real, y: real)
    requires c > 0.0 && d > 0.0 && y == c * r / d
    ensures r / d == y / c
  {
    assert c * r / d == c * (r / d);
    Cancels(r / d, c);
  }

  // The evidence, part by part.
  lemma WeighParts(w: Rating, l: Rating, z: real, p: Params, f: Special)
    requires var c := Spread(w, l, p);
      Denominator(c, p) != 0.0 && Measured(c, p) != 0.0 && f.sqrt(Measured(c, p)) > 0.0
    ensures var e := Weigh(w, l, z, p, f);
      && e.c == Spread(w, l, p) && e.d == Denominator(e.c, p) && e.sc == f.sqrt(Measured(e.c, p))
      && e.gain == p.perfLambda * (z - p.perfLambda * (w.mu - l.mu)) / e.d
      && e.v == f.vWin(Standing(w.mu - l.mu, e.c, e.gain, e.sc), p.margin / e.sc)
  { hide Spread, Denominator, Measured, ObsVar, Standing; }

  lemma MeasuredIs(c: real, p: Params)
    requires Denominator(c, p) != 0.0
    ensures Measured(c, p) == c * ObsVar(p) / Denominator(c, p)
  {}

  lemma WeighIs(w: Rating, l: Rating, z: real, p: Params, f: Special)
    requires Lawful(f) && Sane(w) && Sane(l) && SaneParams(p)
    requires var c := Spread(w, l, p);
      Denominator(c, p) != 0.0 && Measured(c, p) != 0.0 && f.sqrt(Measured(c, p)) > 0.0
    ensures var e := Weigh(w, l, z, p, f);
      && e.c > 0.0 && e.d > 0.0 && e.sc > 0.0 && e.sc * e.sc == e.c * ObsVar(p) / e.d && e.v > 0.0
      && e.gain == p.perfLambda * (z - p.perfLambda * (w.mu - l.mu)) / e.d
      && e.v == f.vWin(Standing(w.mu - l.mu, e.c, e.gain, e.sc), p.margin / e.sc)
  {
    hide Spread, Inflated, ObsVar, Denominator, Measured, Lawful, Weigh, Standing;
    CallableDecisive(w, l, p, f);
    SpreadExceeds(w, l, p);
    WeighParts(w, l, z, p, f);
    var e := Weigh(w, l, z, p, f);
    MeasuredIs(e.c, p);
    RootOf(f, Measured(e.c, p));
    WinsSpeak(f, Standing(w.mu - l.mu, e.c, e.gain, e.sc), p.margin / e.sc);
  }

  lemma WinsSpeak(f: Special, t: real, e: real)
    requires Lawful(f)
    ensures f.vWin(t, e) > 0.0
  {}

  /** The update with the line margin moves the winner's mean up and the loser's down if and only
      if it moves the margin's mean up. */
  lemma MeansFollowTheMargin(w: Rating, l: Rating, z: real, p: Params, f: Special)
    requires Lawful(f) && Sane(w) && Sane(l) && SaneParams(p)
    requires var c := Spread(w, l, p);
      Denominator(c, p) != 0.0 && Measured(c, p) != 0.0 && f.sqrt(Measured(c, p)) > 0.0
    ensures var r := RateDecisive(w, l, z, p, f);
      var up := MarginMove(Weigh(w, l, z, p, f)) > 0.0;
      (r.0.mu > w.mu <==> up) && (r.1.mu < l.mu <==> up)
  {
    hide Weigh, Lawful, Inflated, Spread, Shift, MarginMove, Denominator, Measured, ObsVar, MeasureLoss, WinLoss,
      Standing;
    WeighIs(w, l, z, p, f);
    SpreadExceeds(w, l, p);
    var e := Weigh(w, l, z, p, f);
    ShiftIs(Inflated(w, p), e, p);
    ShiftIs(-Inflated(l, p), e, p);
    SameSign(Inflated(w, p), e.c, MarginMove(e));
    SameSign(Inflated(l, p), e.c, MarginMove(e));
    SignOf(Inflated(l, p), e.c, MarginMove(e));
  }

  lemma SignOf(k: real, c: real, x: real)
    requires c > 0.0
    ensures -k / c * x == -(k / c * x)
  {}

  lemma SameSign(k: real, c: real, x: real)
    requires k > 0.0 && c > 0.0
    ensures k / c * x > 0.0 <==> x > 0.0
  {
    DivPositive(k, c);
    if x > 0.0 { MulPositive(k / c, x); } else { NotNegative(k / c, -x); }
  }

  /** So the winner rises and the loser falls whenever the winner's line margin was no smaller than
      their ratings made likely. */
  lemma WinnerRises(w: Rating, l: Rating, z: real, p: Params, f: Special)
    requires Lawful(f) && Sane(w) && Sane(l) && SaneParams(p)
    requires var c := Spread(w, l, p);
      Denominator(c, p) != 0.0 && Measured(c, p) != 0.0 && f.sqrt(Measured(c, p)) > 0.0
    requires p.perfLambda >= 0.0 && z >= p.perfLambda * (w.mu - l.mu)
    ensures var r := RateDecisive(w, l, z, p, f); r.0.mu > w.mu && r.1.mu < l.mu
  {
    WeighIs(w, l, z, p, f);
    MeansFollowTheMargin(w, l, z, p, f);
    var e := Weigh(w, l, z, p, f);
    hide Weigh, Lawful, RateDecisive, Spread, Denominator, Measured, ObsVar;
    NotNegative(p.perfLambda, z - p.perfLambda * (w.mu - l.mu));
    NotNegativeOver(p.perfLambda * (z - p.perfLambda * (w.mu - l.mu)), e.d);
    NotNegative(e.c, e.gain);
    MulPositive(e.sc, e.v);
  }

  /** Every line more between them lifts the winner and lowers the loser, when lines count. */
  lemma MoreLinesMore(w: Rating, l: Rating, z: real, more: real, p: Params, f: Special)
    requires Lawful(f) && Sane(w) && Sane(l) && SaneParams(p) && p.perfLambda > 0.0 && z < more
    requires var c := Spread(w, l, p);
      Denominator(c, p) != 0.0 && Measured(c, p) != 0.0 && f.sqrt(Measured(c, p)) > 0.0
    ensures var r, s := RateDecisive(w, l, z, p, f), RateDecisive(w, l, more, p, f);
      s.0.mu > r.0.mu && s.1.mu < r.1.mu
  {
    hide Weigh, Lawful, Inflated, Spread, Shift, MarginMove, Denominator, Measured, ObsVar, MeasureLoss, WinLoss,
      Standing;
    WeighIs(w, l, z, p, f);
    WeighIs(w, l, more, p, f);
    SpreadExceeds(w, l, p);
    var e, g := Weigh(w, l, z, p, f), Weigh(w, l, more, p, f);
    assert e.c == g.c && e.d == g.d && e.sc == g.sc;
    MarginGrows(w.mu - l.mu, z, more, e, g, p, f);
    SideGrows(Inflated(w, p), e, g, p);
    SideGrows(Inflated(l, p), e, g, p);
  }

  // More for one side's share is less for the other's.
  lemma SideGrows(k: real, e: Evidence, g: Evidence, p: Params)
    requires k > 0.0 && e.c == g.c > 0.0 && e.d == g.d > 0.0 && e.sc == g.sc > 0.0
    requires e.sc * e.sc == e.c * ObsVar(p) / e.d && g.sc * g.sc == g.c * ObsVar(p) / g.d
    requires MarginMove(e) < MarginMove(g)
    ensures Shift(k, e, p) < Shift(k, g, p) && Shift(-k, e, p) > Shift(-k, g, p)
  {
    hide Shift, MarginMove, ObsVar;
    ShiftIs(k, e, p);
    ShiftIs(k, g, p);
    ShiftIs(-k, e, p);
    ShiftIs(-k, g, p);
    LargerShare(k, e.c, MarginMove(e), MarginMove(g));
    SignOf(k, e.c, MarginMove(e));
    SignOf(k, e.c, MarginMove(g));
  }

  lemma LargerShare(k: real, c: real, x: real, y: real)
    requires k > 0.0 && c > 0.0 && x < y
    ensures k / c * x < k / c * y
  {
    ScaledSign(k, c, y - x);
    assert k / c * (y - x) == k / c * y - k / c * x;
  }

  lemma MarginGrows(m: real, z: real, more: real, e: Evidence, g: Evidence, p: Params, f: Special)
    requires Lawful(f) && p.perfLambda > 0.0 && z < more
    requires e.c == g.c > 0.0 && e.d == g.d > 0.0 && e.sc == g.sc > 0.0
    requires e.gain == p.perfLambda * (z - p.perfLambda * m) / e.d
    requires g.gain == p.perfLambda * (more - p.perfLambda * m) / e.d
    requires e.v == f.vWin(Standing(m, e.c, e.gain, e.sc), p.margin / e.sc)
    requires g.v == f.vWin(Standing(m, e.c, g.gain, e.sc), p.margin / e.sc)
    ensures MarginMove(e) < MarginMove(g)
  {
    hide Lawful, Standing;
    GainGrows(p.perfLambda, z - p.perfLambda * m, more - p.perfLambda * m, e.d);
    Ascends(m, e.c, e.gain, g.gain, e.sc);
    var t, u := Standing(m, e.c, e.gain, e.sc), Standing(m, e.c, g.gain, e.sc);
    StandsHigher(f, t, u, p.margin / e.sc);
    ScaledUp(e.sc, t + e.v, u + g.v);
    Spreads(e.sc, t, e.v);
    Spreads(e.sc, u, g.v);
  }

  lemma GainGrows(k: real, x: real, y: real, d: real)
    requires k > 0.0 && d > 0.0 && x < y
    ensures k * x / d < k * y / d
  {
    LargerShare(k, d, x, y);
    assert k * x / d == k / d * x && k * y / d == k / d * y;
  }

  lemma Ascends(m: real, c: real, g: real, h: real, sc: real)
    requires c > 0.0 && sc > 0.0 && g < h
    ensures Standing(m, c, g, sc) < Standing(m, c, h, sc)
    ensures sc * Standing(m, c, g, sc) == m + c * g && sc * Standing(m, c, h, sc) == m + c * h
  {
    ScaledUp(c, g, h);
    DivPositive((m + c * h) - (m + c * g), sc);
    assert ((m + c * h) - (m + c * g)) / sc == (m + c * h) / sc - (m + c * g) / sc;
  }

  lemma ScaledUp(k: real, x: real, y: real)
    requires k > 0.0 && x < y
    ensures k * x < k * y
  {
    MulPositive(k, y - x);
    assert k * (y - x) == k * y - k * x;
  }

  lemma Spreads(k: real, x: real, y: real)
    ensures k * (x + y) == k * x + k * y
  {}

  lemma StandsHigher(f: Special, t: real, u: real, e: real)
    requires Lawful(f) && t < u
    ensures t + f.vWin(t, e) < u + f.vWin(u, e)
  {}
}
