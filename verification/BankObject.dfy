/** The arsenal as the object the game carries (rust/bt-core/src/arsenal.rs): two parallel
    arrays, searched and updated in place. */
module BankObject {
  import opened Wrappers
  import opened Weapons
  import opened Arsenals

  class Bank {
    const rep: array<Option<WeaponToken>>
    const quantity: array<nat>

    ghost predicate Valid() { rep.Length == 10 && quantity.Length == 10 }

    function Value(): Arsenal
      requires Valid()
      reads rep, quantity
    { Arsenal(rep[..], quantity[..]) }

    constructor ()
      ensures Valid() && fresh(rep) && fresh(quantity)
      ensures Value() == NewArsenal()
    {
      rep := new Option<WeaponToken>[10](_ => None);
      quantity := new nat[10](_ => 0);
    }

    // Stack onto a matching slot, else the first empty one.
    method BuyOne(w: WeaponToken) returns (bought: bool)
      requires Valid()
      modifies rep, quantity
      ensures (Value(), bought) == Buy(old(Value()), w)
    {
      var i := 0;
      while i < 10
        invariant 0 <= i <= 10 && Value() == old(Value())
        invariant BuySlot(Value(), w, i) == BuySlot(Value(), w, 0)
      {
        if rep[i] == Some(w) || rep[i].None? {
          rep[i], quantity[i] := Some(w), quantity[i] + 1;
          return true;
        }
        i := i + 1;
      }
      return false;
    }

    method Use(index: nat)
      requires Valid()
      modifies rep, quantity
      ensures Value() == UseSlot(old(Value()), index)
    {
      if index >= 10 || quantity[index] == 0 { return; }
      quantity[index] := quantity[index] - 1;
      if quantity[index] == 0 { rep[index] := None; }
    }

    method SellOne(w: WeaponToken) returns (sold: bool)
      requires Valid()
      modifies rep, quantity
      ensures (Value(), sold) == Sell(old(Value()), w)
    {
      var i := 0;
      while i < 10
        invariant 0 <= i <= 10 && Value() == old(Value())
        invariant SellSlot(Value(), w, i) == SellSlot(Value(), w, 0)
      {
        if rep[i] == Some(w) && quantity[i] > 0 {
          Use(i);
          return true;
        }
        i := i + 1;
      }
      return false;
    }

    // An exact slot, holes included; nothing of it, or no weapon, empties it.
    method SetSlot(index: nat, token: Option<WeaponToken>, qty: nat)
      requires Valid() && index < 10
      modifies rep, quantity
      ensures var empty := token.None? || qty == 0;
        Value() == Arsenal(old(rep[..])[index := if empty then None else token],
                           old(quantity[..])[index := if empty then 0 else qty])
    {
      if token.None? || qty == 0 {
        rep[index], quantity[index] := None, 0;
      } else {
        rep[index], quantity[index] := token, qty;
      }
    }

    method Token(index: nat) returns (t: Option<WeaponToken>)
      requires Valid()
      ensures t == TokenAt(Value(), index)
    { t := if index < 10 then rep[index] else None; }

    // Lazy Susan: the two banks trade contents.
    method Swap(other: Bank)
      requires Valid() && other.Valid() && rep != other.rep && quantity != other.quantity
      modifies rep, quantity, other.rep, other.quantity
      ensures Value() == old(other.Value()) && other.Value() == old(Value())
    {
      var i := 0;
      while i < 10
        invariant 0 <= i <= 10
        invariant forall k :: 0 <= k < i ==> rep[k] == old(other.rep[k]) && quantity[k] == old(other.quantity[k])
        invariant forall k :: 0 <= k < i ==> other.rep[k] == old(rep[k]) && other.quantity[k] == old(quantity[k])
        invariant forall k :: i <= k < 10 ==> rep[k] == old(rep[k]) && quantity[k] == old(quantity[k])
        invariant forall k :: i <= k < 10 ==>
          other.rep[k] == old(other.rep[k]) && other.quantity[k] == old(other.quantity[k])
      {
        rep[i], other.rep[i] := other.rep[i], rep[i];
        quantity[i], other.quantity[i] := other.quantity[i], quantity[i];
        i := i + 1;
      }
    }
  }
}
