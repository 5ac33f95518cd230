/**
 * Gas consumption of a compressor station (KCCalculator in
 * modules/kc_calculations.py): unit start-up by the ideal-gas law, and the
 * pressure-ratio, product and share formulas for venting, purging,
 * degassing, enclosure heating and thermal oxidation.
 */
module Kc {
  import opened GasLaw
  import Grs

  /**
   * Normal volume used by `nStarts` start-ups of a gas-compressor unit whose
   * start-up line holds `pipelineVolume` m³ at `pressure` MPa and
   * `temperature` K with compressibility `z`.
   */
  function GpaStartup(pipelineVolume: real, pressure: real, temperature: real, z: real, nStarts: real): (r: Outcome<real>)
    ensures r.ZeroDivisionError? <==> z == 0.0 || temperature == 0.0
  {
    var pPa := pressure * 1000000.0;
    var denominator := z * R * temperature;
    if denominator == 0.0 then ZeroDivisionError
    else
      var n := (pPa * pipelineVolume) / denominator;
      var v0 := n * R * 293.15 / 101325.0;
      Ok(v0 * nStarts)
  }

  /**
   * A start-up is the separator blowdown formula of the distribution station
   * again: the same inputs give the same volume, which therefore adds up over
   * the number of start-ups and has the gas constant cancelled.
   */
  lemma GpaStartupIsBlowdown(pipelineVolume: real, pressure: real, temperature: real, z: real, nStarts: real)
    ensures GpaStartup(pipelineVolume, pressure, temperature, z, nStarts)
              == Grs.BlowdownSeparator(pipelineVolume, pressure, temperature, z, nStarts)
  {
    var g := GpaStartup(pipelineVolume, pressure, temperature, z, nStarts);
    var b := Grs.BlowdownSeparator(pipelineVolume, pressure, temperature, z, nStarts);
    if z != 0.0 && temperature != 0.0 {
      var n := (pressure * 1000000.0 * pipelineVolume) / (z * R * temperature);
      assert g.value == n * R * 293.15 / 101325.0 * nStarts;
      assert b.value == n * R * T0 / P0 * nStarts;
      assert T0 == 293.15 && P0 == 101325.0;
      assert g.value == b.value;
      assert g == Ok(g.value) && b == Ok(b.value);
    }
  }

  /** Start-up gas adds up over the number of start-ups. */
  lemma GpaStartupLinearInStarts(pipelineVolume: real, pressure: real, temperature: real, z: real, n1: real, n2: real)
    requires z != 0.0 && temperature != 0.0
    ensures GpaStartup(pipelineVolume, pressure, temperature, z, n1 + n2).value
              == GpaStartup(pipelineVolume, pressure, temperature, z, n1).value
               + GpaStartup(pipelineVolume, pressure, temperature, z, n2).value
  {
  }

  /** The vented share of the gas a compressor circuit holds, reduced to atmospheric pressure. */
  function CompressorVenting(circuitVolume: real, pressure: real, ventingPercentage: real): (r: real)
    ensures r == ventingPercentage * AtAtmosphere(circuitVolume, pressure)
  {
    var gasVolume := circuitVolume * (pressure / AtmosphereMPa);
    gasVolume * ventingPercentage
  }

  /** Displacing air takes three system volumes of gas per purge, reduced to atmospheric pressure. */
  function AirDisplacement(systemVolume: real, purgePressure: real, nPurges: real): (r: real)
    ensures r == nPurges * AtAtmosphere(3.0 * systemVolume, purgePressure)
    ensures r == 3.0 * nPurges * AtAtmosphere(systemVolume, purgePressure)
  {
    var gasVolume := 3.0 * systemVolume * (purgePressure / AtmosphereMPa);
    gasVolume * nPurges
  }

  /** Seal venting: the continuous venting over the running hours plus half the seal system's gas at shutdown. */
  function SealSystemVenting(sealVolume: real, pressure: real, ventingRate: real, hours: real): (r: real)
    ensures r - ventingRate * hours == AtAtmosphere(sealVolume, pressure) / 2.0
  {
    var continuous := ventingRate * hours;
    var oneTime := sealVolume * (pressure / AtmosphereMPa) * 0.5;
    continuous + oneTime
  }

  /** Oil-tank purging: one tank volume reduced to atmospheric pressure per purge, `nPurgesPerDay` purges a day. */
  function OilTankPurging(tankVolume: real, pressure: real, nPurgesPerDay: real, days: real): (r: real)
    ensures r == (nPurgesPerDay * days) * AtAtmosphere(tankVolume, pressure)
    ensures nPurgesPerDay == 0.0 || days == 0.0 ==> r == 0.0
  {
    var gasPerPurge := tankVolume * (pressure / AtmosphereMPa);
    var totalPurges := nPurgesPerDay * days;
    gasPerPurge * totalPurges
  }

  /** Degassing drained liquid: the dissolved gas reduced to atmospheric pressure. */
  function LiquidDegassing(liquidVolume: real, gasContent: real, pressure: real): (r: real)
    ensures r == AtAtmosphere(liquidVolume * gasContent, pressure)
  {
    var dissolvedGas := liquidVolume * gasContent;
    dissolvedGas * (pressure / AtmosphereMPa)
  }

  /**
   * Gas for heating a unit enclosure: the heat lost over `hours`, divided by
   * a calorific value of 35 MJ/m³ times the heating efficiency.
   */
  function GpaEnclosureHeating(enclosureVolume: real, heatLossCoef: real, deltaT: real, hours: real, efficiency: real): (r: Outcome<real>)
    ensures r.ZeroDivisionError? <==> efficiency == 0.0
    ensures r.Ok? ==> r.value * (35000000.0 * efficiency) == enclosureVolume * heatLossCoef * deltaT * hours * 3600.0
  {
    var heatPower := enclosureVolume * heatLossCoef * deltaT;
    var heatEnergy := heatPower * hours * 3600.0;
    if 35000000.0 * efficiency == 0.0 then ZeroDivisionError
    else Ok(heatEnergy / (35000000.0 * efficiency))
  }

  /** Support gas for thermal oxidation: a tenth of the waste gas over the running hours. */
  function ThermalOxidation(wasteGasFlow: real, hours: real): (r: real)
    ensures r * 10.0 == wasteGasFlow * hours
  {
    wasteGasFlow * 0.1 * hours
  }

  /** The results dictionary of `calculate_all_kc`, one field per key. */
  datatype KcResults = KcResults(
    gpaStartup: real,
    compressorVenting: real,
    airDisplacement: real,
    sealVenting: real,
    oilTankPurging: real,
    liquidDegassing: real,
    enclosureHeating: real,
    thermalOxidation: real,
    total: real)

  /**
   * `calculate_all_kc` computes nothing: whatever the parameters, every
   * entry and the total are 0.
   */
  function CalculateAllKc(parameters: map<string, map<string, real>>): (r: KcResults)
    ensures r.gpaStartup == 0.0 && r.compressorVenting == 0.0 && r.airDisplacement == 0.0
    ensures r.sealVenting == 0.0 && r.oilTankPurging == 0.0 && r.liquidDegassing == 0.0
    ensures r.enclosureHeating == 0.0 && r.thermalOxidation == 0.0 && r.total == 0.0
  {
    KcResults(0.0, 0.0, 0.0, 0.0, 0.0, 0.0, 0.0, 0.0, 0.0)
  }
}
