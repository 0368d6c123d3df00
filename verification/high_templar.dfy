/**
 * The Protoss High Templar: Psionic Storm (only once researched), Feedback
 * (damage from the target's energy), the energy reservation check and energy
 * regeneration up to the unit's maximum.
 */
module HighTemplar {
  import opened Common
  import opened UnitCommon

  /** A result dictionary of a cast. */
  datatype Outcome =
    | StormCast(damage: real, energyRemaining: real)
    | FeedbackApplied(damageDealt: int, energyRemaining: real)
    | NotResearched
    | LowEnergy(required: real)
    | NoTargetEnergy

  /** `self.unit_stats.get("energy", {}).get("max", 200)`. */
  function MaxEnergy(energyStats: AbilityData): real
  {
    Setting(energyStats, "max", 200.0)
  }

  /** `cast_psionic_storm`: 75 energy by default, and only when `researched` (true when absent) holds. */
  function PsionicStorm(energy: real, abilities: Abilities): (Outcome, real)
  {
    var storm := AbilityOf(abilities, "psionic_storm");
    var cost := Setting(storm, "energy_cost", 75.0);
    var researched := Flag(Setting(storm, "researched", 1.0));
    if researched && energy >= cost then (StormCast(Setting(storm, "damage", 80.0), energy - cost), energy - cost)
    else if !researched then (NotResearched, energy)
    else (LowEnergy(cost), energy)
  }

  /**
   * `cast_feedback` on a target whose energy is `target` (`None` when it has
   * no `current_energy`): 50 energy by default; the damage is the target's
   * energy times the multiplier, truncated to a whole number.
   */
  function Feedback(energy: real, abilities: Abilities, target: Option<real>): (Outcome, real)
  {
    var feedback := AbilityOf(abilities, "feedback");
    var cost := Setting(feedback, "energy_cost", 50.0);
    if energy < cost then (LowEnergy(cost), energy)
    else if target.None? then (NoTargetEnergy, energy)
    else (FeedbackApplied(Truncate(target.value * Setting(feedback, "damage_multiplier", 1.0)), energy - cost), energy - cost)
  }

  /** `regen_energy`: gain `regen_rate` per second, never beyond the maximum. */
  function Regenerated(energy: real, energyStats: AbilityData, timePassed: real): real
  {
    var gained := Setting(energyStats, "regen_rate", 0.5625) * timePassed;
    if energy + gained < MaxEnergy(energyStats) then energy + gained else MaxEnergy(energyStats)
  }

  class ProtossHighTemplar {
    var currentEnergy: real
    var hasReserved: bool
    /** `self.unit_stats.get("energy", {})`. */
    const energyStats: AbilityData
    var abilities: Abilities

    /** The starting energy is the `start` statistic, 50 by default. */
    constructor (energyStats: AbilityData, abilities: Abilities)
      ensures currentEnergy == Setting(energyStats, "start", 50.0) && !hasReserved
      ensures this.energyStats == energyStats && this.abilities == abilities
    {
      currentEnergy := Setting(energyStats, "start", 50.0);
      hasReserved := false;
      this.energyStats := energyStats;
      this.abilities := abilities;
    }

    method CastPsionicStorm(target: Position) returns (r: Outcome)
      modifies this
      ensures (r, currentEnergy) == PsionicStorm(old(currentEnergy), abilities)
      ensures hasReserved == old(hasReserved) && abilities == old(abilities)
    {
      var storm := AbilityOf(abilities, "psionic_storm");
      var cost := Setting(storm, "energy_cost", 75.0);
      if Flag(Setting(storm, "researched", 1.0)) && currentEnergy >= cost {
        currentEnergy := currentEnergy - cost;
        r := StormCast(Setting(storm, "damage", 80.0), currentEnergy);
      } else if !Flag(Setting(storm, "researched", 1.0)) {
        r := NotResearched;
      } else {
        r := LowEnergy(cost);
      }
    }

    method CastFeedback(target: Option<real>) returns (r: Outcome)
      modifies this
      ensures (r, currentEnergy) == Feedback(old(currentEnergy), abilities, target)
      ensures hasReserved == old(hasReserved) && abilities == old(abilities)
    {
      var feedback := AbilityOf(abilities, "feedback");
      var cost := Setting(feedback, "energy_cost", 50.0);
      if currentEnergy < cost {
        return LowEnergy(cost);
      }
      match target
      case None =>
        r := NoTargetEnergy;
      case Some(e) =>
        var damage := Truncate(e * Setting(feedback, "damage_multiplier", 1.0));
        currentEnergy := currentEnergy - cost;
        r := FeedbackApplied(damage, currentEnergy);
    }

    /** `reserve_energy`: succeeds when the energy plus the amount stays within the maximum; spends nothing. */
    method ReserveEnergy(amount: real) returns (reserved: bool)
      modifies this
      ensures reserved <==> old(currentEnergy) + amount <= MaxEnergy(energyStats)
      ensures hasReserved == (old(hasReserved) || reserved)
      ensures currentEnergy == old(currentEnergy) && abilities == old(abilities)
    {
      reserved := currentEnergy + amount <= MaxEnergy(energyStats);
      if reserved {
        hasReserved := true;
      }
    }

    method RegenEnergy(timePassed: real) returns (energy: real)
      modifies this
      ensures energy == currentEnergy == Regenerated(old(currentEnergy), energyStats, timePassed)
      ensures hasReserved == old(hasReserved) && abilities == old(abilities)
    {
      var gained := Setting(energyStats, "regen_rate", 0.5625) * timePassed;
      currentEnergy := if currentEnergy + gained < MaxEnergy(energyStats) then currentEnergy + gained else MaxEnergy(energyStats);
      energy := currentEnergy;
    }
  }

  // ---------------------------------------------------------------- properties

  /** A storm spends its cost exactly when it is researched and affordable; otherwise the reason is reported and nothing is spent. */
  lemma StormSpendsOnlyWhenAllowed(energy: real, abilities: Abilities)
    ensures var storm := AbilityOf(abilities, "psionic_storm"); var cost := Setting(storm, "energy_cost", 75.0);
      var (r, e) := PsionicStorm(energy, abilities);
      (r.StormCast? <==> Flag(Setting(storm, "researched", 1.0)) && energy >= cost) &&
      (r.StormCast? ==> e == energy - cost && e >= 0.0) &&
      (!r.StormCast? ==> e == energy) &&
      (r.NotResearched? <==> !Flag(Setting(storm, "researched", 1.0)))
  {
  }

  /** Feedback fails, spending nothing, below its cost or on a target without energy; otherwise it spends its cost. */
  lemma FeedbackRefusals(energy: real, abilities: Abilities, target: Option<real>)
    ensures var cost := Setting(AbilityOf(abilities, "feedback"), "energy_cost", 50.0);
      var (r, e) := Feedback(energy, abilities, target);
      (r.FeedbackApplied? <==> energy >= cost && target.Some?) &&
      (r.FeedbackApplied? ==> e == energy - cost) &&
      (!r.FeedbackApplied? ==> e == energy)
  {
  }

  /** With the default multiplier of 1 the damage is the target's energy rounded toward zero. */
  lemma FeedbackDamage(energy: real, abilities: Abilities, e: real)
    requires "damage_multiplier" !in AbilityOf(abilities, "feedback")
    requires Feedback(energy, abilities, Some(e)).0.FeedbackApplied?
    requires e >= 0.0
    ensures var d := Feedback(energy, abilities, Some(e)).0.damageDealt;
      0 <= d && d as real <= e < d as real + 1.0
  {
  }

  /** Regeneration never goes beyond the maximum, and never lowers energy within the maximum when time passes forward. */
  lemma RegenBounded(energy: real, energyStats: AbilityData, timePassed: real)
    ensures Regenerated(energy, energyStats, timePassed) <= MaxEnergy(energyStats)
    ensures energy <= MaxEnergy(energyStats) && Setting(energyStats, "regen_rate", 0.5625) >= 0.0 && timePassed >= 0.0 ==>
      energy <= Regenerated(energy, energyStats, timePassed)
  {
    var rate := Setting(energyStats, "regen_rate", 0.5625);
    if rate >= 0.0 && timePassed >= 0.0 {
      assert rate * timePassed >= 0.0;
    }
  }
}
