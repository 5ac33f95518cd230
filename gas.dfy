/**
 * What the two gas-consumption calculators share: the gas constant, the
 * normal conditions they reduce volumes to, Python's division-by-zero
 * failure, and the pressure-ratio reduction to atmospheric pressure that
 * most of their formulas use.
 */
module GasLaw {
  /** Universal gas constant, J/(mol·K). */
  const R: real := 8.314462618
  /** Normal pressure, Pa. */
  const P0: real := 101325.0
  /** Normal temperature, K. */
  const T0: real := 293.15
  /** Atmospheric pressure, MPa, the divisor of the pressure-ratio formulas. */
  const AtmosphereMPa: real := 0.101325

  /** A formula's value, or the `ZeroDivisionError` Python raises when a divisor is zero. */
  datatype Outcome<T> = Ok(value: T) | ZeroDivisionError

  /**
   * A volume held at `pressure` MPa expressed at atmospheric pressure, as
   * `volume * (pressure / 0.101325)`: the pressure–volume product is kept
   * (Boyle's law).
   */
  function AtAtmosphere(volume: real, pressure: real): (r: real)
    ensures r * AtmosphereMPa == volume * pressure
  {
    volume * (pressure / AtmosphereMPa)
  }

  /** At atmospheric pressure the reduced volume is the volume itself. */
  lemma AtAtmosphereUnit(volume: real)
    ensures AtAtmosphere(volume, AtmosphereMPa) == volume
  {
  }

  /** The reduced volume is additive in the volume. */
  lemma AtAtmosphereAdditive(a: real, b: real, pressure: real)
    ensures AtAtmosphere(a + b, pressure) == AtAtmosphere(a, pressure) + AtAtmosphere(b, pressure)
  {
  }
}
