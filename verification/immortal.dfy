/**
 * The Protoss Immortal's Barrier (a temporary shield with a cooldown that
 * also triggers itself on heavy hits), its damage mitigation, the report of
 * its attacks against armored units and the retreat advice while the
 * barrier recharges.
 */
module Immortal {
  import opened Common
  import opened UnitCommon

  /** The barrier fields of the unit. */
  datatype BarrierState = BarrierState(active: bool, cooldown: real)

  /** The result of `activate_barrier`. */
  datatype Activation =
    | Activated(shieldAmount: real, damageThreshold: real, cooldownApplied: real)
    | CoolingDown(remaining: real)

  /** `activate_barrier`: refused while the cooldown runs; otherwise raises the barrier and starts the cooldown (31 by default). */
  function ActivateBarrierStep(s: BarrierState, barrier: AbilityData): (Activation, BarrierState)
  {
    if s.cooldown > 0.0 then (CoolingDown(s.cooldown), s)
    else
      var cooldown := Setting(barrier, "cooldown", 31.0);
      (Activated(Setting(barrier, "shield_amount", 100.0), Setting(barrier, "damage_threshold", 10.0), cooldown),
       BarrierState(true, cooldown))
  }

  /** `_get_current_barrier_shield`. */
  function CurrentBarrierShield(s: BarrierState, barrier: AbilityData): real
  {
    if s.active then Setting(barrier, "shield_amount", 100.0) else 0.0
  }

  function Max0(x: real): real
  {
    if x > 0.0 then x else 0.0
  }

  /** The result of `take_high_damage`; `mitigated` is absent when no barrier was involved. */
  datatype DamageReport = DamageReport(
    triggered: bool, actualDamage: real, remainingShield: real, barrierUp: bool, mitigated: Option<real>)

  /** `take_high_damage`. */
  function HighDamageStep(s: BarrierState, barrier: AbilityData, damage: real): (DamageReport, BarrierState)
  {
    var threshold := Setting(barrier, "damage_threshold", 10.0);
    var shield := Setting(barrier, "shield_amount", 100.0);
    if damage > threshold && s.cooldown <= 0.0 then
      var actual := Max0(damage - shield);
      (DamageReport(true, actual, Max0(shield - damage), true, Some(damage - actual)),
       BarrierState(true, Setting(barrier, "cooldown", 31.0)))
    else if s.active then
      var actual := Max0(damage - CurrentBarrierShield(s, barrier));
      (DamageReport(false, actual, 0.0, true, Some(damage - actual)), s)
    else
      (DamageReport(false, damage, 0.0, false, None), s)
  }

  // ---------------------------------------------------------------- armored targets

  const ArmoredNames: seq<string> := ["siege tank", "roach", "stalker", "marauder", "thor", "lurker", "ultralisk"]

  const HighValueNames: seq<string> := ["siege tank", "thor", "ultralisk", "lurker"]

  /** `any(unit.lower() in target.lower() for unit in names)`. */
  predicate Mentions(target: string, names: seq<string>)
  {
    exists i :: 0 <= i < |names| && Contains(Lower(target), names[i])
  }

  predicate IsArmoredTarget(target: string)
  {
    Mentions(target, ArmoredNames)
  }

  /** High value is only asked of an armored target. */
  predicate IsHighValueTarget(target: string)
  {
    IsArmoredTarget(target) && Mentions(target, HighValueNames)
  }

  function Attacked(targets: seq<string>): seq<string>
  {
    if targets == [] then []
    else
      var init := Attacked(targets[..|targets| - 1]);
      if IsArmoredTarget(targets[|targets| - 1]) then init + [targets[|targets| - 1]] else init
  }

  function HighValue(targets: seq<string>): seq<string>
  {
    if targets == [] then []
    else
      var init := HighValue(targets[..|targets| - 1]);
      if IsHighValueTarget(targets[|targets| - 1]) then init + [targets[|targets| - 1]] else init
  }

  /** `damage_dealt`: each attacked target with the total damage; a repeated target keeps one entry. */
  function DamageDealt(targets: seq<string>, total: real): map<string, real>
  {
    if targets == [] then map[]
    else
      var init := DamageDealt(targets[..|targets| - 1], total);
      if IsArmoredTarget(targets[|targets| - 1]) then init[targets[|targets| - 1] := total] else init
  }

  datatype Rating = Poor | Medium | Good | Excellent

  function RatingRank(r: Rating): nat
  {
    match r
    case Poor => 0
    case Medium => 1
    case Good => 2
    case Excellent => 3
  }

  /** `effectiveness_rating` from the armored and high-value counts. */
  function RatingOf(armored: nat, highValue: nat): Rating
  {
    if armored >= 3 || highValue >= 2 then Excellent
    else if armored >= 2 || highValue >= 1 then Good
    else if armored >= 1 then Medium
    else Poor
  }

  datatype CounterReport = CounterReport(
    totalTargets: nat, attacked: seq<string>, damageDealt: map<string, real>,
    highValue: seq<string>, rating: Rating)

  /** `counter_armored_units` with base damage `base` and armored bonus `bonus`. */
  function CounterOf(targets: seq<string>, base: real, bonus: real): CounterReport
  {
    var attacked := Attacked(targets);
    var high := HighValue(targets);
    CounterReport(|targets|, attacked, DamageDealt(targets, base + bonus), high, RatingOf(|attacked|, |high|))
  }

  class ProtossImmortal {
    var barrierActive: bool
    var barrierCooldown: real
    /** `self.abilities.get("barrier", {})`. */
    var barrier: AbilityData
    /** The numeric entries of `self.attack`. */
    var attack: map<string, real>
    /** `self.attack.get("bonus_damage", {})`. */
    var bonusDamage: map<string, real>

    function Barrier(): BarrierState
      reads this
    {
      BarrierState(barrierActive, barrierCooldown)
    }

    constructor (barrier: AbilityData, attack: map<string, real>, bonusDamage: map<string, real>)
      ensures Barrier() == BarrierState(false, 0.0)
      ensures this.barrier == barrier && this.attack == attack && this.bonusDamage == bonusDamage
    {
      barrierActive := false;
      barrierCooldown := 0.0;
      this.barrier := barrier;
      this.attack := attack;
      this.bonusDamage := bonusDamage;
    }

    method ActivateBarrier() returns (r: Activation)
      modifies this
      ensures (r, Barrier()) == ActivateBarrierStep(old(Barrier()), barrier)
      ensures barrier == old(barrier) && attack == old(attack) && bonusDamage == old(bonusDamage)
    {
      if barrierCooldown > 0.0 {
        return CoolingDown(barrierCooldown);
      }
      barrierActive := true;
      barrierCooldown := Setting(barrier, "cooldown", 31.0);
      r := Activated(Setting(barrier, "shield_amount", 100.0), Setting(barrier, "damage_threshold", 10.0), barrierCooldown);
    }

    method TakeHighDamage(damage: real) returns (r: DamageReport)
      modifies this
      ensures (r, Barrier()) == HighDamageStep(old(Barrier()), barrier, damage)
      ensures barrier == old(barrier) && attack == old(attack) && bonusDamage == old(bonusDamage)
    {
      var threshold := Setting(barrier, "damage_threshold", 10.0);
      var shield := Setting(barrier, "shield_amount", 100.0);
      r := DamageReport(false, damage, 0.0, false, None);
      if damage > threshold && barrierCooldown <= 0.0 {
        barrierActive := true;
        barrierCooldown := Setting(barrier, "cooldown", 31.0);
        var actual := Max0(damage - shield);
        r := DamageReport(true, actual, Max0(shield - damage), true, Some(damage - actual));
      } else if barrierActive {
        var actual := Max0(damage - CurrentBarrierShield(Barrier(), barrier));
        r := r.(actualDamage := actual, barrierUp := true, mitigated := Some(damage - actual));
      }
    }

    /** `retreat_if_barrier_down`: retreat while the barrier recharges. */
    method RetreatIfBarrierDown() returns (barrierDown: bool)
      ensures barrierDown <==> barrierCooldown > 0.0
    {
      barrierDown := barrierCooldown > 0.0;
    }

    method CounterArmoredUnits(targets: seq<string>) returns (r: CounterReport)
      ensures r == CounterOf(targets, Setting(attack, "damage", 20.0), Setting(bonusDamage, "value", 30.0))
    {
      var base := Setting(attack, "damage", 20.0);
      var bonus := Setting(bonusDamage, "value", 30.0);
      var attacked: seq<string> := [];
      var high: seq<string> := [];
      var dealt: map<string, real> := map[];
      for i := 0 to |targets|
        invariant attacked == Attacked(targets[..i])
        invariant high == HighValue(targets[..i])
        invariant dealt == DamageDealt(targets[..i], base + bonus)
      {
        assert targets[..i + 1][..i] == targets[..i];
        var target := targets[i];
        if IsArmoredTarget(target) {
          attacked := attacked + [target];
          dealt := dealt[target := base + bonus];
          if Mentions(target, HighValueNames) {
            high := high + [target];
          }
        }
      }
      assert targets[..|targets|] == targets;
      r := CounterReport(|targets|, attacked, dealt, high, RatingOf(|attacked|, |high|));
    }
  }

  // ---------------------------------------------------------------- properties

  /** While the cooldown runs activation is refused and changes nothing; otherwise the barrier goes up with its cooldown. */
  lemma ActivateBarrierEffect(s: BarrierState, barrier: AbilityData)
    ensures var (r, t) := ActivateBarrierStep(s, barrier);
      (s.cooldown > 0.0 <==> r.CoolingDown?) &&
      (r.CoolingDown? ==> t == s) &&
      (r.Activated? ==> t.active && t.cooldown == Setting(barrier, "cooldown", 31.0))
  {
  }

  /** The retreat advice is exactly the condition under which activation is refused. */
  lemma RetreatMatchesRefusal(s: BarrierState, barrier: AbilityData)
    ensures ActivateBarrierStep(s, barrier).0.CoolingDown? <==> s.cooldown > 0.0
  {
  }

  /** A heavy hit raises the barrier exactly when it exceeds the threshold and no cooldown runs. */
  lemma HighDamageTrigger(s: BarrierState, barrier: AbilityData, damage: real)
    ensures var (r, t) := HighDamageStep(s, barrier, damage);
      (r.triggered <==> damage > Setting(barrier, "damage_threshold", 10.0) && s.cooldown <= 0.0) &&
      (!r.triggered ==> t == s) &&
      (r.triggered ==> t == BarrierState(true, Setting(barrier, "cooldown", 31.0)))
  {
  }

  /** Damage taken is the part the shield does not absorb, never negative, and with the mitigated part adds up to the hit. */
  lemma HighDamageMitigation(s: BarrierState, barrier: AbilityData, damage: real)
    ensures var (r, _) := HighDamageStep(s, barrier, damage); var shield := Setting(barrier, "shield_amount", 100.0);
      (r.triggered || s.active ==>
        r.actualDamage == Max0(damage - shield) && r.actualDamage >= 0.0 &&
        r.mitigated.Some? && r.mitigated.value + r.actualDamage == damage) &&
      (!r.triggered && !s.active ==> r.actualDamage == damage && r.mitigated.None?) &&
      (r.triggered ==> r.remainingShield == Max0(shield - damage))
  {
  }

  /** A barrier triggered by a hit with a positive cooldown refuses a manual activation right after. */
  lemma TriggeredThenRefused(s: BarrierState, barrier: AbilityData, damage: real)
    requires HighDamageStep(s, barrier, damage).0.triggered
    requires Setting(barrier, "cooldown", 31.0) > 0.0
    ensures ActivateBarrierStep(HighDamageStep(s, barrier, damage).1, barrier).0.CoolingDown?
  {
  }

  /** Every high-value name is an armored name, so the nested check asks nothing new of the name. */
  lemma HighValueNamesAreArmored(target: string)
    ensures Mentions(target, HighValueNames) ==> IsArmoredTarget(target)
  {
    if Mentions(target, HighValueNames) {
      var i :| 0 <= i < |HighValueNames| && Contains(Lower(target), HighValueNames[i]);
      var j := if i == 0 then 0 else if i == 1 then 4 else if i == 2 then 6 else 5;
      assert ArmoredNames[j] == HighValueNames[i];
    }
  }

  /** The attacked targets are exactly the armored ones; the high-value ones are among them. */
  lemma {:induction false} AttackedExact(targets: seq<string>, t: string)
    ensures t in Attacked(targets) <==> t in targets && IsArmoredTarget(t)
    ensures t in HighValue(targets) <==> t in targets && IsHighValueTarget(t)
    ensures t in DamageDealt(targets, 0.0) <==> t in Attacked(targets)
    ensures |HighValue(targets)| <= |Attacked(targets)| <= |targets|
    decreases |targets|
  {
    if targets != [] {
      var init := targets[..|targets| - 1];
      AttackedExact(init, t);
      assert targets == init + [targets[|targets| - 1]];
    }
  }

  /** More armored or more high-value targets never lower the rating. */
  lemma RatingMonotone(a: nat, h: nat, a2: nat, h2: nat)
    requires a <= a2 && h <= h2
    ensures RatingRank(RatingOf(a, h)) <= RatingRank(RatingOf(a2, h2))
  {
  }
}
