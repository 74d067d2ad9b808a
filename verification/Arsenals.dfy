/** The ten weapon slots of a player (rust/bt-core/src/arsenal.rs). */
module Arsenals {
  import opened Wrappers
  import opened Weapons

  type Slots = r: seq<Option<WeaponToken>> | |r| == 10
    witness [None, None, None, None, None, None, None, None, None, None]
  type Quantities = q: seq<nat> | |q| == 10 witness [0, 0, 0, 0, 0, 0, 0, 0, 0, 0]

  datatype Arsenal = Arsenal(rep: Slots, quantity: Quantities)

  function NewArsenal(): Arsenal
  { Arsenal([None, None, None, None, None, None, None, None, None, None], [0, 0, 0, 0, 0, 0, 0, 0, 0, 0]) }

  // A slot holds a weapon exactly when it holds at least one of them.
  predicate Tidy(a: Arsenal)
  { forall i :: 0 <= i < 10 ==> (a.rep[i].Some? <==> a.quantity[i] > 0) }

  // The first slot from i on that holds w or is empty; 10 when there is none.
  function BuySlot(a: Arsenal, w: WeaponToken, i: nat): (k: nat)
    requires i <= 10
    ensures i <= k <= 10
    ensures k < 10 ==> a.rep[k] == Some(w) || a.rep[k].None?
    ensures forall j :: i <= j < k ==> a.rep[j].Some? && a.rep[j] != Some(w)
    decreases 10 - i
  {
    if i == 10 || a.rep[i] == Some(w) || a.rep[i].None? then i else BuySlot(a, w, i + 1)
  }

  function Buy(a: Arsenal, w: WeaponToken): (Arsenal, bool)
  {
    var k := BuySlot(a, w, 0);
    if k == 10 then (a, false)
    else (Arsenal(a.rep[k := Some(w)], a.quantity[k := a.quantity[k] + 1]), true)
  }

  // Consume one from a slot; a slot outside the bank, or an empty one, is left alone.
  function UseSlot(a: Arsenal, k: nat): Arsenal
  {
    if k >= 10 || a.quantity[k] == 0 then a
    else
      var left := a.quantity[k] - 1;
      Arsenal(if left == 0 then a.rep[k := None] else a.rep, a.quantity[k := left])
  }

  // The first slot from i on that holds some of w; 10 when there is none.
  function SellSlot(a: Arsenal, w: WeaponToken, i: nat): (k: nat)
    requires i <= 10
    ensures i <= k <= 10
    ensures k < 10 ==> a.rep[k] == Some(w) && a.quantity[k] > 0
    ensures forall j :: i <= j < k ==> !(a.rep[j] == Some(w) && a.quantity[j] > 0)
    decreases 10 - i
  {
    if i == 10 || (a.rep[i] == Some(w) && a.quantity[i] > 0) then i else SellSlot(a, w, i + 1)
  }

  function Sell(a: Arsenal, w: WeaponToken): (Arsenal, bool)
  {
    var k := SellSlot(a, w, 0);
    if k == 10 then (a, false) else (UseSlot(a, k), true)
  }

  function TokenAt(a: Arsenal, k: nat): Option<WeaponToken>
  { if k < 10 then a.rep[k] else None }

  // ----- the value of a bank at list prices -----

  function ValueUpTo(a: Arsenal, n: nat): nat
    requires n <= 10
  {
    if n == 0 then 0
    else ValueUpTo(a, n - 1) + (if a.rep[n - 1].Some? then a.quantity[n - 1] * Price(a.rep[n - 1].value) else 0)
  }

  function ListValue(a: Arsenal): nat { ValueUpTo(a, 10) }

  lemma {:induction false} ValueChange(a: Arsenal, b: Arsenal, k: nat, delta: int, n: nat)
    requires k < 10 && n <= 10
    requires forall i :: 0 <= i < 10 && i != k ==> a.rep[i] == b.rep[i] && a.quantity[i] == b.quantity[i]
    requires SlotValue(b, k) == SlotValue(a, k) + delta
    ensures ValueUpTo(b, n) == ValueUpTo(a, n) + (if k < n then delta else 0)
  { if n > 0 { ValueChange(a, b, k, delta, n - 1); } }

  function SlotValue(a: Arsenal, k: nat): nat
    requires k < 10
  { if a.rep[k].Some? then a.quantity[k] * Price(a.rep[k].value) else 0 }

  lemma OneMore(q: int, p: int)
    ensures (q + 1) * p == q * p + p
  {}

  /** A purchase adds the weapon's list price to the bank's value and keeps it tidy. */
  lemma BuyAddsPrice(a: Arsenal, w: WeaponToken)
    requires Tidy(a)
    ensures Tidy(Buy(a, w).0)
    ensures ListValue(Buy(a, w).0) == ListValue(a) + (if Buy(a, w).1 then Price(w) else 0)
    ensures !Buy(a, w).1 ==> Buy(a, w).0 == a
  {
    hide Price, ValueUpTo;
    var k := BuySlot(a, w, 0);
    if k < 10 {
      OneMore(a.quantity[k], Price(w));
      ValueChange(a, Buy(a, w).0, k, Price(w), 10);
    }
  }

  lemma UseKeepsTidy(a: Arsenal, k: nat)
    requires Tidy(a)
    ensures Tidy(UseSlot(a, k))
  {}

  lemma UseTakesPrice(a: Arsenal, k: nat, w: WeaponToken)
    requires k < 10 && a.rep[k] == Some(w) && a.quantity[k] > 0
    ensures SlotValue(UseSlot(a, k), k) == SlotValue(a, k) - Price(w)
  {
    hide Price;
    OneMore(a.quantity[k] - 1, Price(w));
  }

  /** A sale takes the list price off again. */
  lemma SellTakesPrice(a: Arsenal, w: WeaponToken)
    requires Tidy(a)
    ensures Tidy(Sell(a, w).0)
    ensures ListValue(Sell(a, w).0) == ListValue(a) - (if Sell(a, w).1 then Price(w) else 0)
    ensures !Sell(a, w).1 ==> Sell(a, w).0 == a
  {
    hide Price, ValueUpTo;
    var k := SellSlot(a, w, 0);
    UseKeepsTidy(a, k);
    if k < 10 {
      UseTakesPrice(a, k, w);
      ValueChange(a, UseSlot(a, k), k, 0 - Price(w), 10);
    }
  }
}
