/** Weapon tokens, the active flags, and the price and duration columns of the
    weapon table (rust/bt-core/src/weapons.rs). */
module Weapons {
  import opened Wrappers

  const MAX_WEAPONS: int := 34

  // A token is its discriminant: the index into every per-weapon array.
  type WeaponToken = i: int | 0 <= i < MAX_WEAPONS

  const FEARED_WEIRD: WeaponToken := 0
  const FOUR_BY_FOUR: WeaponToken := 1
  const HATTER: WeaponToken := 2
  const UPBYSIDE: WeaponToken := 3
  const FALL_OUT: WeaponToken := 4
  const SWAP: WeaponToken := 5
  const LAWYERS: WeaponToken := 6
  const RISE_UP: WeaponToken := 7
  const FLIP_OUT: WeaponToken := 8
  const SPEEDY: WeaponToken := 9
  const MISSING: WeaponToken := 10
  const PIECE_IT: WeaponToken := 11
  const BLIND: WeaponToken := 12
  const MONDALE: WeaponToken := 13
  const KEATING: WeaponToken := 14
  const CARTER: WeaponToken := 15
  const REAGAN: WeaponToken := 16
  const AMES: WeaponToken := 17
  const ACE: WeaponToken := 18
  const CONDOR: WeaponToken := 19
  const NICE_DAY: WeaponToken := 20
  const SO_LONG: WeaponToken := 21
  const NO_DICE: WeaponToken := 22
  const BUG: WeaponToken := 23
  const BOTTLE: WeaponToken := 24
  const NO_SLIDE: WeaponToken := 25
  const SUSAN: WeaponToken := 26
  const MEADOW: WeaponToken := 27
  const MIRROR: WeaponToken := 28
  const TWILIGHT: WeaponToken := 29
  const SLICK: WeaponToken := 30
  const BROKEN: WeaponToken := 31
  const FORCE: WeaponToken := 32
  const GIMP: WeaponToken := 33

  function FromIndex(i: int): (r: Option<WeaponToken>)
    ensures r.Some? <==> 0 <= i < MAX_WEAPONS
    ensures r.Some? ==> r.value == i
  { if 0 <= i < MAX_WEAPONS then Some(i) else None }

  function Price(t: WeaponToken): (p: nat)
    ensures 15 <= p <= 1200
  {
    match t
    case 0 => 400 case 1 => 425 case 2 => 375 case 3 => 125 case 4 => 250
    case 5 => 1200 case 6 => 350 case 7 => 75 case 8 => 15 case 9 => 275
    case 10 => 50 case 11 => 100 case 12 => 400 case 13 => 150 case 14 => 425
    case 15 => 250 case 16 => 425 case 17 => 50 case 18 => 100 case 19 => 225
    case 20 => 50 case 21 => 100 case 22 => 600 case 23 => 320 case 24 => 150
    case 25 => 125 case 26 => 600 case 27 => 475 case 28 => 500 case 29 => 450
    case 30 => 650 case 31 => 325 case 32 => 325 case _ => 25
  }

  // Lifetime in cleared lines; 0 marks a one-shot weapon.
  function Duration(t: WeaponToken): (d: nat)
    ensures d <= 50
  {
    match t
    case 0 => 3 case 1 => 10 case 2 => 5 case 3 => 10 case 4 => 10
    case 6 => 5 case 9 => 10 case 13 => 50 case 15 => 20
    case 17 => 20 case 18 => 30 case 19 => 40 case 21 => 10 case 22 => 35
    case 24 => 10 case 25 => 10 case 27 => 10 case 28 => 10
    case 30 => 3 case 31 => 5 case 32 => 5 case _ => 0
  }

  // The active flags: one count per token, nonzero meaning in force.
  type Flags = f: seq<int> | |f| == MAX_WEAPONS witness seq(MAX_WEAPONS, _ => 0)

  function NoFlags(): Flags { seq(MAX_WEAPONS, _ => 0) }

  predicate Active(f: Flags, t: WeaponToken) { f[t] != 0 }

  function SetFlag(f: Flags, t: WeaponToken, on: bool): Flags
  { f[t := if on then 1 else 0] }

  // Spies reveal the opponent to the launcher and are never delivered.
  predicate IsSpy(t: WeaponToken) { t == AMES || t == ACE || t == CONDOR }

  // Weapons that a mirror-cursed launcher fires to no effect.
  predicate MirrorNullifies(t: WeaponToken)
  {
    t in {SWAP, MONDALE, KEATING, AMES, ACE, CONDOR, NICE_DAY, SUSAN, MIRROR}
  }
}
