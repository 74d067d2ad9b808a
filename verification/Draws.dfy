/** Witness states for the rejection loops of the engine: for either parity of the state a
    round starts from, the one cycle of the generator contains a draw the loop accepts. */
module Draws {
  import opened Rng

  // A column and a band row are drawn by two successive rand() calls.
  predicate DrawsSquare(w: State48, i: int, j: int)
  { Below(w, 10) == i && Below(Next(w), 14) == j }

  lemma NextIs(w: State48, n: State48, k: int)
    requires 0x5DEECE66D * w + 0xB == k * 0x1_0000_0000_0000 + n
    ensures Next(w) == n
  {}

  // Adding m strides of 22810 to the drawn high part moves the next draw by exactly
  // m * 2837522, as long as nothing wraps.
  lemma Stride(w: State48, m: int, v: State48, n: State48)
    requires 0 <= m < 7
    requires v == w + m * 22810 * 0x2_0000
    requires n == Next(w) + m * 2837522 * 0x2_0000
    ensures Next(v) == n
    ensures Top31(v) == Top31(w) + m * 22810
    ensures Top31(n) == Top31(Next(w)) + m * 2837522
  {
    var k := (0x5DEECE66D * w + 0xB) / 0x1_0000_0000_0000;
    NextIs(v, n, k + m * 267826);
  }

  // A word whose first draw is i, of parity p, whose next draw has parity b.
  predicate Base(w: State48, i: int, p: int, b: int)
  {
    && w % 2 == p && Top31(w) == i
    && Top31(Next(w)) % 2 == b && Top31(Next(w)) < 0x7fff_ffff - 6 * 2837522
  }

  lemma CheckBase(w: State48, n: State48, k: int, i: int, p: int, b: int, h: int, l: int)
    requires 0x5DEECE66D * w + 0xB == k * 0x1_0000_0000_0000 + n
    requires n == h * 0x2_0000 + l && 0 <= l < 0x2_0000
    requires 0 <= h < 0x7fff_ffff - 6 * 2837522 && h % 2 == b
    requires 0 <= w - i * 0x2_0000 < 5 && (w - i * 0x2_0000) % 2 == p
    ensures Base(w, i, p, b)
  {
    NextIs(w, n, k);
    hide Next;
    HighPart(w, i, w - i * 0x2_0000);
    HighPart(n, h, l);
    SameParity(w, w - i * 0x2_0000, i * 0x1_0000);
  }

  lemma HighPart(s: State48, h: int, l: int)
    requires s == h * 0x2_0000 + l && 0 <= l < 0x2_0000
    ensures Top31(s) == h
  {}

  lemma Bases00(i: int) returns (w: State48)
    requires 0 <= i < 10
    ensures Base(w, i, 0, 0)
  {
    hide Base;
    match i {
      case 0 => w := 0; CheckBase(w, 11, 0, 0, 0, 0, 0, 11);
      case 1 => w := 131076; CheckBase(w, 208844002007487, 11, 1, 0, 0, 1593353286, 104895);
      case 2 => w := 262144; CheckBase(w, 136011308072971, 23, 2, 0, 0, 1037683930, 11);
      case 3 => w := 393220; CheckBase(w, 63380333369791, 35, 3, 0, 0, 483553568, 104895);
      case 4 => w := 524288; CheckBase(w, 272022616145931, 46, 4, 0, 0, 2075367860, 11);
      case 5 => w := 655364; CheckBase(w, 199391641442751, 58, 5, 0, 0, 1521237498, 104895);
      case 6 => w := 786432; CheckBase(w, 126558947508235, 70, 6, 0, 0, 965568142, 11);
      case 7 => w := 917508; CheckBase(w, 53927972805055, 82, 7, 0, 0, 411437780, 104895);
      case 8 => w := 1048576; CheckBase(w, 262570255581195, 93, 8, 0, 0, 2003252072, 11);
      case _ => w := 1179652; CheckBase(w, 189939280878015, 105, 9, 0, 0, 1449121710, 104895);
    }
  }

  lemma Bases01(i: int) returns (w: State48)
    requires 0 <= i < 10
    ensures Base(w, i, 0, 1)
  {
    hide Base;
    match i {
      case 0 => w := 4; CheckBase(w, 100859615679, 0, 0, 0, 1, 769497, 104895);
      case 1 => w := 131072; CheckBase(w, 208743142391819, 11, 1, 0, 1, 1592583789, 11);
      case 2 => w := 262148; CheckBase(w, 136112167688639, 23, 2, 0, 1, 1038453427, 104895);
      case 3 => w := 393216; CheckBase(w, 63279473754123, 35, 3, 0, 1, 482784071, 11);
      case 4 => w := 524292; CheckBase(w, 272123475761599, 46, 4, 0, 1, 2076137357, 104895);
      case 5 => w := 655360; CheckBase(w, 199290781827083, 58, 5, 0, 1, 1520468001, 11);
      case 6 => w := 786436; CheckBase(w, 126659807123903, 70, 6, 0, 1, 966337639, 104895);
      case 7 => w := 917504; CheckBase(w, 53827113189387, 82, 7, 0, 1, 410668283, 11);
      case 8 => w := 1048580; CheckBase(w, 262671115196863, 93, 8, 0, 1, 2004021569, 104895);
      case _ => w := 1179648; CheckBase(w, 189838421262347, 105, 9, 0, 1, 1448352213, 11);
    }
  }

  lemma Bases10(i: int) returns (w: State48)
    requires 0 <= i < 10
    ensures Base(w, i, 1, 0)
  {
    hide Base;
    match i {
      case 0 => w := 1; CheckBase(w, 25214903928, 0, 0, 1, 0, 192374, 59000);
      case 1 => w := 131075; CheckBase(w, 208818787103570, 11, 1, 1, 0, 1593160912, 45906);
      case 2 => w := 262145; CheckBase(w, 136036522976888, 23, 2, 1, 0, 1037876304, 59000);
      case 3 => w := 393219; CheckBase(w, 63355118465874, 35, 3, 1, 0, 483361194, 45906);
      case 4 => w := 524289; CheckBase(w, 272047831049848, 46, 4, 1, 0, 2075560234, 59000);
      case 5 => w := 655363; CheckBase(w, 199366426538834, 58, 5, 1, 0, 1521045124, 45906);
      case 6 => w := 786433; CheckBase(w, 126584162412152, 70, 6, 1, 0, 965760516, 59000);
      case 7 => w := 917507; CheckBase(w, 53902757901138, 82, 7, 1, 0, 411245406, 45906);
      case 8 => w := 1048577; CheckBase(w, 262595470485112, 93, 8, 1, 0, 2003444446, 59000);
      case _ => w := 1179651; CheckBase(w, 189914065974098, 105, 9, 1, 0, 1448929336, 45906);
    }
  }

  lemma Bases11(i: int) returns (w: State48)
    requires 0 <= i < 10
    ensures Base(w, i, 1, 1)
  {
    hide Base;
    match i {
      case 0 => w := 3; CheckBase(w, 75644711762, 0, 0, 1, 1, 577123, 45906);
      case 1 => w := 131073; CheckBase(w, 208768357295736, 11, 1, 1, 1, 1592776163, 59000);
      case 2 => w := 262147; CheckBase(w, 136086952784722, 23, 2, 1, 1, 1038261053, 45906);
      case 3 => w := 393217; CheckBase(w, 63304688658040, 35, 3, 1, 1, 482976445, 59000);
      case 4 => w := 524291; CheckBase(w, 272098260857682, 46, 4, 1, 1, 2075944983, 45906);
      case 5 => w := 655361; CheckBase(w, 199315996731000, 58, 5, 1, 1, 1520660375, 59000);
      case 6 => w := 786435; CheckBase(w, 126634592219986, 70, 6, 1, 1, 966145265, 45906);
      case 7 => w := 917505; CheckBase(w, 53852328093304, 82, 7, 1, 1, 410860657, 59000);
      case 8 => w := 1048579; CheckBase(w, 262645900292946, 93, 8, 1, 1, 2003829195, 45906);
      case _ => w := 1179649; CheckBase(w, 189863636166264, 105, 9, 1, 1, 1448544587, 59000);
    }
  }

  /** Every column, band row and parity has a word that draws it. */
  lemma SquareWord(i: int, j: int, p: int) returns (w: State48)
    requires 0 <= i < 10 && 0 <= j < 14 && 0 <= p < 2
    ensures w % 2 == p && DrawsSquare(w, i, j)
  {
    hide Next;
    var u: State48;
    if p == 0 {
      if j % 2 == 0 { u := Bases00(i); } else { u := Bases01(i); }
    } else {
      if j % 2 == 0 { u := Bases10(i); } else { u := Bases11(i); }
    }
    var t := Top31(Next(u));
    var m := ((j - t) % 14) / 2;
    w := u + m * 22810 * 0x2_0000;
    Stride(u, m, w, Next(u) + m * 2837522 * 0x2_0000);
    assert (t + m * 2837522) % 14 == j;
  }
}
