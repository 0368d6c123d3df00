/**
 * The Protoss Oracle's energy-driven abilities: Revelation, the Pulsar Beam
 * that is switched on and off, Stasis Wards kept in a list, and energy
 * regeneration capped at 100.
 */
module Oracle {
  import opened UnitCommon

  /** `max_energy` of `regen_energy`. */
  const MaxEnergy: real := 100.0

  /** A deployed stasis ward (`ward_info`); the deploy time is always 0. */
  datatype Ward = Ward(position: Position, deployTime: real, activationDelay: real, duration: real, stasisDuration: real)

  datatype OracleState = OracleState(energy: real, beamActive: bool, wards: seq<Ward>)

  /** A result dictionary. */
  datatype Outcome =
    | Revealed(duration: real, detectionRange: real, remainingEnergy: real)
    | BeamOn(energyCost: real, energyPerSecond: real, remainingEnergy: real)
    | BeamOff
    | WardDeployed(ward: Ward, remainingEnergy: real, wardId: int)
    | NotEnoughEnergy(required: real, current: real)
    | BeamAlready(active: bool)

  function Cost(abilities: Abilities, name: string, default: real): real
  {
    Setting(AbilityOf(abilities, name), "energy_cost", default)
  }

  /** `cast_revelation`: 50 energy by default. */
  function Revelation(s: OracleState, abilities: Abilities): (Outcome, OracleState)
  {
    var rev := AbilityOf(abilities, "revelation");
    var cost := Cost(abilities, "revelation", 50.0);
    if s.energy < cost then (NotEnoughEnergy(cost, s.energy), s)
    else
      (Revealed(Setting(rev, "duration", 30.0), Setting(rev, "detection_range", 10.0), s.energy - cost),
       s.(energy := s.energy - cost))
  }

  /** `activate_pulsar_beam`: refused when already on, before the energy check (25 by default). */
  function ActivateBeam(s: OracleState, abilities: Abilities): (Outcome, OracleState)
  {
    var cost := Cost(abilities, "pulsar_beam", 25.0);
    if s.beamActive then (BeamAlready(true), s)
    else if s.energy < cost then (NotEnoughEnergy(cost, s.energy), s)
    else
      (BeamOn(cost, Setting(AbilityOf(abilities, "pulsar_beam"), "energy_per_second", 3.0), s.energy - cost),
       s.(energy := s.energy - cost, beamActive := true))
  }

  /** `deactivate_pulsar_beam`: refused when already off; costs nothing. */
  function DeactivateBeam(s: OracleState): (Outcome, OracleState)
  {
    if !s.beamActive then (BeamAlready(false), s)
    else (BeamOff, s.(beamActive := false))
  }

  /** The ward `deploy_stasis_ward` records at `target`. */
  function NewWard(abilities: Abilities, target: Position): Ward
  {
    var sw := AbilityOf(abilities, "stasis_ward");
    Ward(target, 0.0, Setting(sw, "activation_delay", 3.5), Setting(sw, "duration", 30.0), Setting(sw, "stasis_duration", 12.0))
  }

  /** `deploy_stasis_ward`: 75 energy by default; the ward's id is its index in the list. */
  function DeployWard(s: OracleState, abilities: Abilities, target: Position): (Outcome, OracleState)
  {
    var cost := Cost(abilities, "stasis_ward", 75.0);
    if s.energy < cost then (NotEnoughEnergy(cost, s.energy), s)
    else
      var ward := NewWard(abilities, target);
      (WardDeployed(ward, s.energy - cost, |s.wards + [ward]| - 1),
       s.(energy := s.energy - cost, wards := s.wards + [ward]))
  }

  /** `regen_energy`: the new energy, capped at 100. */
  function Regen(energy: real, amount: real): real
  {
    if energy + amount < MaxEnergy then energy + amount else MaxEnergy
  }

  class ProtossOracle {
    var energy: real
    var beamActive: bool
    var wards: seq<Ward>
    var abilities: Abilities

    function State(): OracleState
      reads this
    {
      OracleState(energy, beamActive, wards)
    }

    /** `_set_default_values`: 50 energy, the beam off, no wards. */
    constructor (abilities: Abilities)
      ensures State() == OracleState(50.0, false, []) && this.abilities == abilities
    {
      energy := 50.0;
      beamActive := false;
      wards := [];
      this.abilities := abilities;
    }

    method CastRevelation(target: Position) returns (r: Outcome)
      modifies this
      ensures (r, State()) == Revelation(old(State()), abilities)
      ensures abilities == old(abilities)
    {
      var cost := Cost(abilities, "revelation", 50.0);
      if energy < cost {
        return NotEnoughEnergy(cost, energy);
      }
      energy := energy - cost;
      var rev := AbilityOf(abilities, "revelation");
      r := Revealed(Setting(rev, "duration", 30.0), Setting(rev, "detection_range", 10.0), energy);
    }

    method ActivatePulsarBeam() returns (r: Outcome)
      modifies this
      ensures (r, State()) == ActivateBeam(old(State()), abilities)
      ensures abilities == old(abilities)
    {
      if beamActive {
        return BeamAlready(true);
      }
      var cost := Cost(abilities, "pulsar_beam", 25.0);
      if energy < cost {
        return NotEnoughEnergy(cost, energy);
      }
      energy := energy - cost;
      beamActive := true;
      r := BeamOn(cost, Setting(AbilityOf(abilities, "pulsar_beam"), "energy_per_second", 3.0), energy);
    }

    method DeactivatePulsarBeam() returns (r: Outcome)
      modifies this
      ensures (r, State()) == DeactivateBeam(old(State()))
      ensures abilities == old(abilities)
    {
      if !beamActive {
        return BeamAlready(false);
      }
      beamActive := false;
      r := BeamOff;
    }

    method DeployStasisWard(target: Position) returns (r: Outcome)
      modifies this
      ensures (r, State()) == DeployWard(old(State()), abilities, target)
      ensures abilities == old(abilities)
    {
      var cost := Cost(abilities, "stasis_ward", 75.0);
      if energy < cost {
        return NotEnoughEnergy(cost, energy);
      }
      energy := energy - cost;
      var ward := NewWard(abilities, target);
      wards := wards + [ward];
      r := WardDeployed(ward, energy, |wards| - 1);
    }

    method RegenEnergy(amount: real) returns (before: real, after: real, regenerated: real)
      modifies this
      ensures State() == old(State()).(energy := Regen(old(energy), amount))
      ensures before == old(energy) && after == energy && regenerated == after - before
      ensures abilities == old(abilities)
    {
      before := energy;
      energy := if MaxEnergy < energy + amount then MaxEnergy else energy + amount;
      after := energy;
      regenerated := energy - before;
    }
  }

  // ---------------------------------------------------------------- properties

  /** Revelation and a ward are refused exactly when the energy is below the cost, and then nothing changes. */
  lemma SpendingRefusals(s: OracleState, abilities: Abilities, target: Position)
    ensures var (r, t) := Revelation(s, abilities);
      (r.NotEnoughEnergy? <==> s.energy < Cost(abilities, "revelation", 50.0)) && (r.NotEnoughEnergy? ==> t == s) &&
      (r.Revealed? ==> t == s.(energy := s.energy - Cost(abilities, "revelation", 50.0)))
    ensures var (r, t) := DeployWard(s, abilities, target);
      (r.NotEnoughEnergy? <==> s.energy < Cost(abilities, "stasis_ward", 75.0)) && (r.NotEnoughEnergy? ==> t == s)
  {
  }

  /** Switching the beam on is refused while it is on, and switching it off while it is off; each success flips it. */
  lemma BeamToggle(s: OracleState, abilities: Abilities)
    ensures var (r, t) := ActivateBeam(s, abilities);
      (s.beamActive ==> r == BeamAlready(true) && t == s) &&
      (r.BeamOn? ==> !s.beamActive && t.beamActive && t.energy == s.energy - r.energyCost)
    ensures var (r, t) := DeactivateBeam(s);
      (!s.beamActive <==> r == BeamAlready(false)) && (r.BeamOff? ==> !t.beamActive && t.energy == s.energy) &&
      (r.BeamAlready? ==> t == s)
  {
  }

  /** Switching the beam on and then off again restores everything but the energy paid. */
  lemma BeamOnThenOff(s: OracleState, abilities: Abilities)
    requires ActivateBeam(s, abilities).0.BeamOn?
    ensures var t := ActivateBeam(s, abilities).1;
      DeactivateBeam(t).1 == s.(energy := s.energy - Cost(abilities, "pulsar_beam", 25.0))
  {
  }

  /** A deployed ward is appended at the end, its id is its index, and earlier wards are kept. */
  lemma WardAppended(s: OracleState, abilities: Abilities, target: Position)
    requires DeployWard(s, abilities, target).0.WardDeployed?
    ensures var (r, t) := DeployWard(s, abilities, target);
      |t.wards| == |s.wards| + 1 && t.wards[..|s.wards|] == s.wards &&
      0 <= r.wardId < |t.wards| && t.wards[r.wardId] == NewWard(abilities, target) &&
      r.wardId == |s.wards|
  {
  }

  /** Every cast that spends leaves non-negative energy, whatever the cost. */
  lemma SpendLeavesNonNegative(s: OracleState, abilities: Abilities, target: Position)
    ensures Revelation(s, abilities).0.Revealed? ==> Revelation(s, abilities).1.energy >= 0.0
    ensures ActivateBeam(s, abilities).0.BeamOn? ==> ActivateBeam(s, abilities).1.energy >= 0.0
    ensures DeployWard(s, abilities, target).0.WardDeployed? ==> DeployWard(s, abilities, target).1.energy >= 0.0
  {
  }

  /** Regeneration never goes above 100, adds exactly `amount` below the cap, and is idempotent at the cap. */
  lemma RegenCapped(energy: real, amount: real)
    ensures Regen(energy, amount) <= MaxEnergy
    ensures energy + amount <= MaxEnergy ==> Regen(energy, amount) - energy == amount
    ensures energy <= MaxEnergy && amount >= 0.0 ==> energy <= Regen(energy, amount)
    ensures Regen(Regen(energy, amount), 0.0) == Regen(energy, amount)
  {
  }
}
