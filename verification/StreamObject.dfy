/** The piece source as the object the game carries (rust/bt-core/src/piece_manager.rs): a
    table of keep weights rewritten in place, and the rejection loop. */
module StreamObject {
  import opened Weapons
  import opened Rng
  import opened Pieces
  import opened PieceStream

  class PieceManager {
    const keep: array<Word>
    var hapOn: int
    var broken: bool
    var oldPiece: int

    ghost predicate Sized() { keep.Length == 19 }

    function Value(): Stream
      requires Sized()
      reads this, keep
    { Stream(keep[..], hapOn, broken, oldPiece) }

    ghost predicate Valid()
      reads this, keep
    { Sized() && Live(keep[..]) }

    constructor ()
      ensures Valid() && fresh(keep) && Value() == NewStream()
    {
      keep := new Word[19](_ => WEIGHT_ZERO);
      hapOn, broken, oldPiece := 0, false, 0;
      new;
      var i := 1;
      while i <= 7
        invariant 1 <= i <= 8 && hapOn == 0 && !broken && oldPiece == 0
        invariant forall k :: 0 <= k < 19 ==> keep[k] == if 1 <= k < i then WEIGHT_DEFAULT else WEIGHT_ZERO
      {
        keep[i] := WEIGHT_DEFAULT;
        i := i + 1;
      }
      keep[8] := WEIGHT_DIE;
      keep[9] := WEIGHT_EXOTIC;
      keep[18] := WEIGHT_EXOTIC;
      assert keep[..] == DefaultTable();
    }

    // Entries lo..hi rewritten.
    method Rewrite(lo: nat, hi: nat, w: Word)
      requires Sized() && lo <= hi + 1 && hi < 19
      modifies keep
      ensures keep[..] == SetRange(old(keep[..]), lo, hi, w)
    {
      var i := lo;
      while i <= hi
        invariant lo <= i <= hi + 1
        invariant forall k :: 0 <= k < 19 ==> keep[k] == if lo <= k < i then w else old(keep[k])
      {
        keep[i] := w;
        i := i + 1;
      }
    }

    // Roll an id and keep it with its weight, until one is kept.
    method Roll(rng: Generator) returns (id: int)
      requires Valid()
      modifies rng
      ensures (id, rng.state) == Pick(keep[..], old(rng.state))
    {
      while true
        invariant Valid()
        invariant Pick(keep[..], rng.state) == Pick(keep[..], old(rng.state))
        decreases RoundsToSmile(rng.state)
      {
        hide Next, Rng.Below, DrawnBelow, RoundsToSmile;
        ghost var s := rng.state;
        id := rng.RandBelow(18);
        id := id + 1;
        var x := rng.Drand48();
        if DrawnBelow(x, keep[id]) { return id; }
        PickCloser(keep[..], s);
      }
    }

    method Make(rng: Generator, x: int, y: int) returns (p: Piece)
      requires Valid()
      modifies this, rng
      ensures Valid()
      ensures Made(p, Value(), rng.state) == Create(old(Value()), old(rng.state), x, y)
    {
      hide Pick, Next, Rng.Below, Top31, Construct;
      var id: int;
      var standard := false;
      if hapOn == 0 {
        if !broken {
          standard := true;
        } else {
          var gate := rng.Rand();
          standard := gate % 10 == 0;
        }
      }
      if standard {
        id := Roll(rng);
      } else if hapOn == 0 && broken {
        id := if oldPiece != 0 then oldPiece else 1;
      } else {
        hapOn := hapOn - 1;
        id := 9;
      }
      oldPiece := id;
      var kind := if 1 <= id <= 18 then KindFromId(id).value else El;
      var pips := 1;
      if kind == DieKind {
        pips := rng.RandBelow(6);
        pips := pips + 1;
      }
      p := Construct(kind, x, y, pips);
    }

    method WeaponOn(t: WeaponToken)
      requires Valid()
      modifies this, keep
      ensures Valid() && Value() == StreamOn(old(Value()), t)
    {
      if t == FEARED_WEIRD {
        Rewrite(1, 7, WEIGHT_ZERO);
        Rewrite(10, 16, WEIGHT_DEFAULT);
      } else if t == FOUR_BY_FOUR {
        keep[7] := WEIGHT_ZERO;
        keep[17] := WEIGHT_DEFAULT;
      } else if t == BROKEN {
        broken := true;
      } else if t == NO_DICE {
        keep[8] := WEIGHT_ZERO;
      } else if t == SO_LONG {
        keep[5] := WEIGHT_ZERO;
      } else if t == NICE_DAY {
        hapOn := hapOn + 1;
      }
    }

    method WeaponOff(t: WeaponToken)
      requires Valid()
      modifies this, keep
      ensures Valid() && Value() == StreamOff(old(Value()), t)
    {
      if t == FEARED_WEIRD {
        Rewrite(1, 7, WEIGHT_DEFAULT);
        Rewrite(10, 16, WEIGHT_ZERO);
      } else if t == FOUR_BY_FOUR {
        keep[7] := WEIGHT_DEFAULT;
        keep[17] := WEIGHT_ZERO;
      } else if t == NO_DICE {
        keep[8] := WEIGHT_DIE;
      } else if t == SO_LONG {
        keep[5] := WEIGHT_DEFAULT;
      } else if t == BROKEN {
        broken := false;
      }
    }

    method SetRaw(table: KeepTable, hap: int, isBroken: bool, last: int)
      requires Sized()
      modifies this, keep
      ensures Value() == Stream(table, hap, isBroken, last)
    {
      var i := 0;
      while i < 19
        invariant 0 <= i <= 19
        invariant forall k :: 0 <= k < i ==> keep[k] == table[k]
      {
        keep[i] := table[i];
        i := i + 1;
      }
      hapOn, broken, oldPiece := hap, isBroken, last;
    }
  }
}
