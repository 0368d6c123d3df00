/**
 * The Protoss Sentry's abilities: Force Field, Guardian Shield and
 * Hallucination, each guarded by its ability dictionary, the unit's energy
 * and the ability's remaining cooldown, and the low-energy retreat advice.
 *
 * Each ability is a function from the unit's state to an outcome and a new
 * state; the `ProtossSentry` class edits its fields in place and is proved
 * to follow those functions.
 */
module Sentry {
  import opened Common
  import opened UnitCommon

  /** `max_energy`, fixed at construction. */
  const MaxEnergy: real := 100.0

  /** What a sentry's abilities read and change. */
  datatype SentryState = SentryState(energy: real, position: Position, abilities: Abilities)

  /** Why an ability was refused (the `reason` of a failed result). */
  datatype Refusal = AbilityMissing | AlreadyActive | LowEnergy | OnCooldown | OutOfRange

  /** A result dictionary: what a successful cast spent and set, or why it failed. */
  datatype Outcome = Done(energyConsumed: real, cooldownApplied: real) | Refused(reason: Refusal)

  /** The checks every ability makes, in their order: the dictionary exists, energy suffices, no cooldown. */
  function ReadyCheck(s: SentryState, name: string, defaultCost: real): Option<Refusal>
  {
    var ability := AbilityOf(s.abilities, name);
    if ability == map[] then Some(AbilityMissing)
    else if s.energy < Setting(ability, "energy_cost", defaultCost) then Some(LowEnergy)
    else if Setting(ability, "cooldown_remaining", 0.0) > 0.0 then Some(OnCooldown)
    else None
  }

  /** Pay the energy and start the cooldown of ability `name`. */
  function Spend(s: SentryState, name: string, defaultCost: real, defaultCooldown: real): SentryState
  {
    var ability := AbilityOf(s.abilities, name);
    var cost := Setting(ability, "energy_cost", defaultCost);
    var cooldown := Setting(ability, "cooldown", defaultCooldown);
    s.(energy := s.energy - cost, abilities := s.abilities[name := ability["cooldown_remaining" := cooldown]])
  }

  function Spent(s: SentryState, name: string, defaultCost: real, defaultCooldown: real): Outcome
  {
    var ability := AbilityOf(s.abilities, name);
    Done(Setting(ability, "energy_cost", defaultCost), Setting(ability, "cooldown", defaultCooldown))
  }

  /** `create_force_field`: the common checks, then the range of 7 by default. */
  function ForceFieldRefusal(s: SentryState, target: Position): Option<Refusal>
  {
    var ready := ReadyCheck(s, "force_field", 25.0);
    if ready.Some? then ready
    else if Beyond(s.position, target, Setting(AbilityOf(s.abilities, "force_field"), "range", 7.0)) then Some(OutOfRange)
    else None
  }

  function ForceField(s: SentryState, target: Position): (Outcome, SentryState)
  {
    match ForceFieldRefusal(s, target)
    case Some(why) => (Refused(why), s)
    case None => (Spent(s, "force_field", 25.0, 10.0), Spend(s, "force_field", 25.0, 10.0))
  }

  /** `activate_guardian_shield`: refused while the shield is active, before any other check but existence. */
  function GuardianShieldRefusal(s: SentryState): Option<Refusal>
  {
    var gs := AbilityOf(s.abilities, "guardian_shield");
    if gs == map[] then Some(AbilityMissing)
    else if Flag(Setting(gs, "active", 0.0)) then Some(AlreadyActive)
    else ReadyCheck(s, "guardian_shield", 25.0)
  }

  function GuardianShield(s: SentryState): (Outcome, SentryState)
  {
    match GuardianShieldRefusal(s)
    case Some(why) => (Refused(why), s)
    case None =>
      var gs := AbilityOf(s.abilities, "guardian_shield");
      var cost := Setting(gs, "energy_cost", 25.0);
      var cooldown := Setting(gs, "cooldown", 45.0);
      var raised := gs["cooldown_remaining" := cooldown]["active" := 1.0]["activation_time" := 0.0];
      (Done(cost, cooldown), s.(energy := s.energy - cost, abilities := s.abilities["guardian_shield" := raised]))
  }

  /** `create_hallucination`. */
  function Hallucination(s: SentryState): (Outcome, SentryState)
  {
    match ReadyCheck(s, "hallucination", 100.0)
    case Some(why) => (Refused(why), s)
    case None => (Spent(s, "hallucination", 100.0, 30.0), Spend(s, "hallucination", 100.0, 30.0))
  }

  /** `energy / max_energy * 100`. */
  function EnergyPercentage(energy: real): real
  {
    energy / MaxEnergy * 100.0
  }

  class ProtossSentry {
    var energy: real
    var position: Position
    var abilities: Abilities

    function State(): SentryState
      reads this
    {
      SentryState(energy, position, abilities)
    }

    /** A new sentry at the origin with 50 energy and the given ability table. */
    constructor (abilities: Abilities)
      ensures State() == SentryState(50.0, Position(0.0, 0.0), abilities)
    {
      energy := 50.0;
      position := Position(0.0, 0.0);
      this.abilities := abilities;
    }

    method CreateForceField(target: Position) returns (r: Outcome)
      modifies this
      ensures (r, State()) == ForceField(old(State()), target)
    {
      var ff := AbilityOf(abilities, "force_field");
      if ff == map[] {
        return Refused(AbilityMissing);
      }
      var cost := Setting(ff, "energy_cost", 25.0);
      if energy < cost {
        return Refused(LowEnergy);
      }
      if Setting(ff, "cooldown_remaining", 0.0) > 0.0 {
        return Refused(OnCooldown);
      }
      if Beyond(position, target, Setting(ff, "range", 7.0)) {
        return Refused(OutOfRange);
      }
      energy := energy - cost;
      var cooldown := Setting(ff, "cooldown", 10.0);
      abilities := abilities["force_field" := ff["cooldown_remaining" := cooldown]];
      r := Done(cost, cooldown);
    }

    method ActivateGuardianShield() returns (r: Outcome)
      modifies this
      ensures (r, State()) == GuardianShield(old(State()))
    {
      var gs := AbilityOf(abilities, "guardian_shield");
      if gs == map[] {
        return Refused(AbilityMissing);
      }
      if Flag(Setting(gs, "active", 0.0)) {
        return Refused(AlreadyActive);
      }
      var cost := Setting(gs, "energy_cost", 25.0);
      if energy < cost {
        return Refused(LowEnergy);
      }
      if Setting(gs, "cooldown_remaining", 0.0) > 0.0 {
        return Refused(OnCooldown);
      }
      energy := energy - cost;
      var cooldown := Setting(gs, "cooldown", 45.0);
      abilities := abilities["guardian_shield" := gs["cooldown_remaining" := cooldown]["active" := 1.0]["activation_time" := 0.0]];
      r := Done(cost, cooldown);
    }

    method CreateHallucination() returns (r: Outcome)
      modifies this
      ensures (r, State()) == Hallucination(old(State()))
    {
      var h := AbilityOf(abilities, "hallucination");
      if h == map[] {
        return Refused(AbilityMissing);
      }
      var cost := Setting(h, "energy_cost", 100.0);
      if energy < cost {
        return Refused(LowEnergy);
      }
      if Setting(h, "cooldown_remaining", 0.0) > 0.0 {
        return Refused(OnCooldown);
      }
      energy := energy - cost;
      var cooldown := Setting(h, "cooldown", 30.0);
      abilities := abilities["hallucination" := h["cooldown_remaining" := cooldown]];
      r := Done(cost, cooldown);
    }

    /** `retreat_when_low_energy`: advises a retreat when the energy percentage is below `threshold`. */
    method RetreatWhenLowEnergy(threshold: real) returns (recommended: bool, percentage: real)
      ensures percentage == EnergyPercentage(energy)
      ensures recommended <==> percentage < threshold
      ensures recommended <==> energy < threshold
    {
      percentage := energy / MaxEnergy * 100.0;
      recommended := percentage < threshold;
      PercentageOfEnergy(energy, threshold);
    }
  }

  // ---------------------------------------------------------------- properties

  /** A refused ability changes nothing; a successful one pays exactly its cost and keeps energy non-negative. */
  lemma ForceFieldEffect(s: SentryState, target: Position)
    ensures var (r, t) := ForceField(s, target); var ff := AbilityOf(s.abilities, "force_field");
      (r.Refused? ==> t == s) &&
      (r.Done? ==>
        r.energyConsumed == Setting(ff, "energy_cost", 25.0) &&
        t.energy == s.energy - r.energyConsumed && t.energy >= 0.0 &&
        t.position == s.position &&
        t.abilities["force_field"] == ff["cooldown_remaining" := Setting(ff, "cooldown", 10.0)] &&
        forall n :: n in s.abilities && n != "force_field" ==> n in t.abilities && t.abilities[n] == s.abilities[n])
  {
  }

  /** Success happens exactly when the ability exists, energy covers the cost, no cooldown runs and the target is in range. */
  lemma ForceFieldSucceedsIff(s: SentryState, target: Position)
    ensures var ff := AbilityOf(s.abilities, "force_field");
      ForceField(s, target).0.Done? <==>
        ff != map[] && s.energy >= Setting(ff, "energy_cost", 25.0) &&
        Setting(ff, "cooldown_remaining", 0.0) <= 0.0 && !Beyond(s.position, target, Setting(ff, "range", 7.0))
  {
  }

  /** Right after a force field with a positive cooldown, a second one is refused for the cooldown. */
  lemma ForceFieldTwice(s: SentryState, a: Position, b: Position)
    requires ForceField(s, a).0.Done?
    requires Setting(AbilityOf(s.abilities, "force_field"), "cooldown", 10.0) > 0.0
    ensures ForceField(ForceField(s, a).1, b).0 == Refused(OnCooldown) ||
            ForceField(ForceField(s, a).1, b).0 == Refused(LowEnergy)
  {
    var t := ForceField(s, a).1;
    assert AbilityOf(t.abilities, "force_field") != map[] by {
      assert "cooldown_remaining" in AbilityOf(t.abilities, "force_field");
    }
  }

  /** A shield that is already up is refused and nothing changes; success raises it and pays its cost. */
  lemma GuardianShieldEffect(s: SentryState)
    ensures var (r, t) := GuardianShield(s); var gs := AbilityOf(s.abilities, "guardian_shield");
      (Flag(Setting(gs, "active", 0.0)) ==> r == Refused(AlreadyActive) || r == Refused(AbilityMissing)) &&
      (r.Refused? ==> t == s) &&
      (r.Done? ==>
        t.energy == s.energy - Setting(gs, "energy_cost", 25.0) && t.energy >= 0.0 &&
        Flag(Setting(t.abilities["guardian_shield"], "active", 0.0)) &&
        Setting(t.abilities["guardian_shield"], "cooldown_remaining", 0.0) == Setting(gs, "cooldown", 45.0))
  {
  }

  /** Activating the shield twice in a row: the second attempt is refused as already active. */
  lemma GuardianShieldTwice(s: SentryState)
    requires GuardianShield(s).0.Done?
    ensures GuardianShield(GuardianShield(s).1).0 == Refused(AlreadyActive)
  {
    var t := GuardianShield(s).1;
    var gs := AbilityOf(t.abilities, "guardian_shield");
    assert "active" in gs && gs["active"] == 1.0;
    assert gs != map[];
  }

  lemma HallucinationEffect(s: SentryState)
    ensures var (r, t) := Hallucination(s); var h := AbilityOf(s.abilities, "hallucination");
      (r.Refused? ==> t == s) &&
      (r.Done? ==> h != map[] && s.energy >= Setting(h, "energy_cost", 100.0) &&
                   t.energy == s.energy - Setting(h, "energy_cost", 100.0) && t.energy >= 0.0) &&
      (h != map[] && s.energy >= Setting(h, "energy_cost", 100.0) && Setting(h, "cooldown_remaining", 0.0) <= 0.0 ==> r.Done?)
  {
  }

  /** With `max_energy` 100 the percentage is the energy itself, so the advice compares energy with the threshold. */
  lemma PercentageOfEnergy(energy: real, threshold: real)
    ensures EnergyPercentage(energy) == energy
    ensures EnergyPercentage(energy) < threshold <==> energy < threshold
  {
  }

  /** Energy never goes negative: from a non-negative state every ability leaves it non-negative. */
  lemma EnergyStaysNonNegative(s: SentryState, target: Position)
    requires s.energy >= 0.0
    ensures ForceField(s, target).1.energy >= 0.0
    ensures GuardianShield(s).1.energy >= 0.0
    ensures Hallucination(s).1.energy >= 0.0
  {
    ForceFieldEffect(s, target);
    GuardianShieldEffect(s);
    HallucinationEffect(s);
  }

  /** No retreat advised at the force field's cost means the energy check of a force field passes. */
  lemma NoRetreatMeansEnoughEnergy(s: SentryState, target: Position)
    requires !(EnergyPercentage(s.energy) < Setting(AbilityOf(s.abilities, "force_field"), "energy_cost", 25.0))
    ensures ForceFieldRefusal(s, target) != Some(LowEnergy)
  {
  }
}
