/**
 * The Terran Medivac: healing and boosting paid in energy, and a cargo hold
 * whose capacity is the `cargo_size` unit statistic. Carried units are
 * compared by identity, as Python's `in` and `list.remove` do for objects
 * without an `__eq__`, so a unit is its identity number here.
 */
module Medivac {
  import opened Common

  type UnitRef = nat

  /** Energy of one heal and of one boost. */
  const HealCost: real := 1.0
  const BoostCost: real := 50.0

  /** The cargo bound the class keeps: never more units than the capacity allows (none when it is negative). */
  predicate CargoFits(cargo: seq<UnitRef>, capacity: int)
  {
    |cargo| <= if capacity < 0 then 0 else capacity
  }

  class TerranMedivac {
    var energy: real
    var cargo: seq<UnitRef>
    /** `self.unit_stats.get("cargo_size", 0)`, a whole number of slots. */
    const capacity: int

    predicate Valid()
      reads this
    {
      energy >= 0.0 && CargoFits(cargo, capacity)
    }

    /** `_set_default_values`: no energy, an empty hold. */
    constructor (capacity: int)
      ensures energy == 0.0 && cargo == [] && this.capacity == capacity
      ensures Valid()
    {
      energy := 0.0;
      cargo := [];
      this.capacity := capacity;
    }

    /** `heal_unit`: costs one energy when at least one is left. */
    method HealUnit(target: UnitRef) returns (healed: bool)
      requires Valid()
      modifies this
      ensures Valid()
      ensures healed <==> old(energy) >= HealCost
      ensures energy == if healed then old(energy) - HealCost else old(energy)
      ensures cargo == old(cargo)
    {
      healed := energy >= HealCost;
      if healed {
        energy := energy - HealCost;
      }
    }

    /** `use_boost`: costs 50 energy when 50 are left. */
    method UseBoost() returns (boosted: bool)
      requires Valid()
      modifies this
      ensures Valid()
      ensures boosted <==> old(energy) >= BoostCost
      ensures energy == if boosted then old(energy) - BoostCost else old(energy)
      ensures cargo == old(cargo)
    {
      boosted := energy >= BoostCost;
      if boosted {
        energy := energy - BoostCost;
      }
    }

    /** `load_unit`: appends the unit while the hold is below its capacity. */
    method LoadUnit(u: UnitRef) returns (loaded: bool)
      requires Valid()
      modifies this
      ensures Valid()
      ensures loaded <==> |old(cargo)| < capacity
      ensures cargo == if loaded then old(cargo) + [u] else old(cargo)
      ensures energy == old(energy)
    {
      loaded := |cargo| < capacity;
      if loaded {
        cargo := cargo + [u];
      }
    }

    /** `unload_unit`: removes the first occurrence of the unit when it is aboard. */
    method UnloadUnit(u: UnitRef) returns (unloaded: bool)
      requires Valid()
      modifies this
      ensures Valid()
      ensures unloaded <==> u in old(cargo)
      ensures cargo == if unloaded then RemoveFirst(old(cargo), u) else old(cargo)
      ensures energy == old(energy)
    {
      unloaded := u in cargo;
      if unloaded {
        RemoveFirstLength(cargo, u);
        cargo := RemoveFirst(cargo, u);
      }
    }
  }

  /** Removing a unit that is aboard shortens the hold by exactly one. */
  lemma {:induction false} RemoveFirstLength(s: seq<UnitRef>, u: UnitRef)
    ensures u in s ==> |RemoveFirst(s, u)| == |s| - 1
    ensures u !in s ==> RemoveFirst(s, u) == s
  {
    if s != [] && s[0] != u {
      RemoveFirstLength(s[1..], u);
      assert u in s <==> u in s[1..];
      assert s == [s[0]] + s[1..];
    }
  }

  /** Loading then unloading the same unit gives back the hold it had, when that unit was not aboard before. */
  lemma {:induction false} LoadThenUnload(s: seq<UnitRef>, u: UnitRef)
    requires u !in s
    ensures RemoveFirst(s + [u], u) == s
  {
    if s != [] {
      assert (s + [u])[1..] == s[1..] + [u];
      LoadThenUnload(s[1..], u);
    }
  }

  /** Loading adds one copy of the unit and unloading takes one away; no other unit's count changes. */
  lemma CargoCounts(s: seq<UnitRef>, u: UnitRef, w: UnitRef)
    ensures Count(s + [u], w) == Count(s, w) + (if u == w then 1 else 0)
    ensures Count(RemoveFirst(s, u), w) == Count(s, w) - (if w == u && u in s then 1 else 0)
  {
    CountAppend(s, u, w);
    RemoveFirstCount(s, u, w);
  }
}
