/**
 * What the unit classes share: map positions, and the ability dictionaries
 * (`self.abilities[name]`) read through `dict.get(key, default)`. Only the
 * numeric entries of an ability dictionary are kept; Python's `True` and
 * `False` are the numbers 1 and 0, which is how the flags `active` and
 * `researched` behave under `if` and comparison.
 */
module UnitCommon {

  datatype Position = Position(x: real, y: real)

  type AbilityData = map<string, real>

  type Abilities = map<string, AbilityData>

  /** `self.abilities.get(name, {})`. */
  function AbilityOf(abilities: Abilities, name: string): AbilityData
  {
    if name in abilities then abilities[name] else map[]
  }

  /** `ability.get(key, default)`. */
  function Setting(ability: AbilityData, key: string, default: real): real
  {
    if key in ability then ability[key] else default
  }

  /** Truthiness of a number. */
  predicate Flag(x: real)
  {
    x != 0.0
  }

  /**
   * `distance(from, to) > range`, where the distance is the Euclidean one:
   * compared through squares, which is exact since a distance is never negative.
   */
  predicate Beyond(from: Position, to: Position, range: real)
  {
    var dx := from.x - to.x;
    var dy := from.y - to.y;
    range < 0.0 || dx * dx + dy * dy > range * range
  }

  /** `int(x)`: truncation toward zero. */
  function Truncate(x: real): (n: int)
    ensures 0.0 <= x ==> 0 <= n && n as real <= x < n as real + 1.0
    ensures x < 0.0 ==> n <= 0 && n as real - 1.0 < x <= n as real
  {
    if x >= 0.0 then x.Floor else -((-x).Floor)
  }
}
