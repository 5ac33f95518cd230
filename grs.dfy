/**
 * Gas consumption of a gas-distribution station (GRSCalculator in
 * modules/grs_calculations.py): separator blowdown by the ideal-gas law,
 * odorant refuelling, diaphragm replacement, gas heating before the
 * regulators, pneumatic devices, household appliances, residential heating,
 * and the combined calculation. All quantities are reals; Python's numbers
 * are floats whatever their type hints say, so counts are reals too.
 */
module Grs {
  import opened GasLaw

  /** `math.pi`. Only its positivity matters to the properties below. */
  const Pi: real := 3.141592653589793

  /**
   * Normal volume released by `nBlowdowns` blowdowns of a separator of
   * `volume` m³ at `pressure` MPa and `temperature` K with compressibility
   * `z`: moles by n = pV/(zRT), then V0 = nRT0/p0 per blowdown.
   */
  function BlowdownSeparator(volume: real, pressure: real, temperature: real, z: real, nBlowdowns: real): (r: Outcome<real>)
    ensures r.ZeroDivisionError? <==> z == 0.0 || temperature == 0.0
  {
    var pPa := pressure * 1000000.0;
    var denominator := z * R * temperature;
    if denominator == 0.0 then ZeroDivisionError
    else
      var n := (pPa * volume) / denominator;
      var v0 := n * R * T0 / P0;
      Ok(v0 * nBlowdowns)
  }

  /**
   * The gas constant cancels: the blowdown volume is
   * nBlowdowns · p·10⁶ · V · T0 / (z · T · p0).
   */
  lemma BlowdownNormalVolume(volume: real, pressure: real, temperature: real, z: real, nBlowdowns: real)
    requires z != 0.0 && temperature != 0.0
    ensures BlowdownSeparator(volume, pressure, temperature, z, nBlowdowns)
              == Ok(nBlowdowns * (pressure * 1000000.0 * volume) * T0 / (z * temperature * P0))
  {
    var r := BlowdownSeparator(volume, pressure, temperature, z, nBlowdowns);
    var q := pressure * 1000000.0 * volume;
    var w := z * temperature;
    var n := q / (z * R * temperature);
    assert r.value == n * R * T0 / P0 * nBlowdowns;
    assert n * R == q / w by {
      assert z * R * temperature == R * w;
      assert n * (R * w) == q;
    }
    assert r.value == nBlowdowns * q * T0 / (w * P0);
    assert r.Ok? && r == Ok(r.value);
    assert r.value == nBlowdowns * (pressure * 1000000.0 * volume) * T0 / (z * temperature * P0);
  }

  /** Blowdown volumes add up over the number of blowdowns, and no blowdown releases nothing. */
  lemma BlowdownLinearInCount(volume: real, pressure: real, temperature: real, z: real, n1: real, n2: real)
    requires z != 0.0 && temperature != 0.0
    ensures BlowdownSeparator(volume, pressure, temperature, z, n1 + n2).value
              == BlowdownSeparator(volume, pressure, temperature, z, n1).value
               + BlowdownSeparator(volume, pressure, temperature, z, n2).value
    ensures BlowdownSeparator(volume, pressure, temperature, z, 0.0) == Ok(0.0)
  {
  }

  /** A 15 m³ separator at 1.2 MPa, 293 K and z = 0.95 releases about 187.09 m³ per blowdown. */
  lemma BlowdownExample()
    ensures 187.09 < BlowdownSeparator(15.0, 1.2, 293.0, 0.95, 1.0).value < 187.10
  {
  }

  /**
   * Gas to refuel odorant and methanol units: the tank volume scaled to
   * `days` out of 30 and by the pressure ratio to 0.1 MPa; the concentration
   * takes no part.
   */
  function RefuelOdorization(tankVolume: real, concentration: real, pressure: real, days: real): (r: real)
    ensures r * 3.0 == tankVolume * days * pressure
  {
    var refuelVolume := tankVolume * (days / 30.0);
    refuelVolume * (pressure / 0.1)
  }

  /** The odorant concentration does not change the refuelling gas. */
  lemma RefuelIgnoresConcentration(tankVolume: real, c1: real, c2: real, pressure: real, days: real)
    ensures RefuelOdorization(tankVolume, c1, pressure, days) == RefuelOdorization(tankVolume, c2, pressure, days)
  {
  }

  /**
   * Gas to purge a 10 m pipe section of diameter `pipeDiameter` mm at
   * `pressure` MPa when a diaphragm is replaced, reduced to atmospheric
   * pressure; the isolation time takes no part.
   */
  function DiaphragmReplacement(pipeDiameter: real, pressure: real, timeIsolated: real): (r: real)
    ensures r == AtAtmosphere(Pi * pipeDiameter * pipeDiameter / 400000.0, pressure)
    ensures pressure >= 0.0 ==> r >= 0.0
  {
    var d := pipeDiameter / 1000.0;
    var area := Pi * (d * d) / 4.0;
    var length := 10.0;
    var volume := area * length;
    assert volume == Pi * pipeDiameter * pipeDiameter / 400000.0;
    volume * (pressure / AtmosphereMPa)
  }

  /**
   * Gas burnt to heat the gas stream before the regulators: none unless the
   * outlet is warmer than the inlet; otherwise the heat for `gasFlow` m³/h
   * over `hours` (density 0.7 kg/m³, heat capacity 2200 J/(kg·K)) divided
   * by a calorific value of 35 MJ/m³.
   */
  function GasHeatingBeforeRegulators(gasFlow: real, tempIn: real, tempOut: real, hours: real): (r: real)
    ensures tempOut <= tempIn ==> r == 0.0
    ensures tempIn < tempOut ==> r == gasFlow * hours * (tempOut - tempIn) * 0.000044
  {
    var cp := 2200.0;
    var rho := 0.7;
    var deltaT := tempOut - tempIn;
    if deltaT <= 0.0 then 0.0
    else
      var massFlow := gasFlow * rho;
      var q := massFlow * cp * deltaT * hours;
      q / 35000000.0
  }

  /** Heating a positive flow for a positive time to a higher temperature burns some gas. */
  lemma GasHeatingPositive(gasFlow: real, tempIn: real, tempOut: real, hours: real)
    requires gasFlow > 0.0 && hours > 0.0 && tempIn < tempOut
    ensures GasHeatingBeforeRegulators(gasFlow, tempIn, tempOut, hours) > 0.0
  {
  }

  /** Gas used by `nDevices` pneumatic devices over `days` days of `hoursPerDay` hours. */
  function PneumaticDevices(nDevices: real, consumptionPerDevice: real, hoursPerDay: real, days: real): (r: real)
    ensures r == 0.0 <==> nDevices == 0.0 || consumptionPerDevice == 0.0 || hoursPerDay == 0.0 || days == 0.0
  {
    var totalHours := hoursPerDay * days;
    nDevices * consumptionPerDevice * totalHours
  }

  /** Pneumatic consumption adds up over the number of devices. */
  lemma PneumaticLinearInDevices(n1: real, n2: real, consumptionPerDevice: real, hoursPerDay: real, days: real)
    ensures PneumaticDevices(n1 + n2, consumptionPerDevice, hoursPerDay, days)
              == PneumaticDevices(n1, consumptionPerDevice, hoursPerDay, days)
               + PneumaticDevices(n2, consumptionPerDevice, hoursPerDay, days)
  {
  }

  // ---------------------------------------------------------------------------
  // Household appliances

  /**
   * The month's consumption of one appliance type: the count times its rate
   * times its daily hours times 30 days, when all three tables know the type.
   */
  function ApplianceMonthly(t: string, counts: map<string, real>, rates: map<string, real>, hours: map<string, real>): real {
    if t in counts && t in rates && t in hours then counts[t] * rates[t] * hours[t] * 30.0 else 0.0
  }

  /** The summed monthly consumption of the appliance types in `types`. */
  ghost function AppliancesTotal(types: set<string>, counts: map<string, real>, rates: map<string, real>, hours: map<string, real>): real
    decreases types
  {
    if types == {} then 0.0
    else
      var t :| t in types;
      ApplianceMonthly(t, counts, rates, hours) + AppliancesTotal(types - {t}, counts, rates, hours)
  }

  /** The total does not depend on the order the types are taken in: any one type can be split off. */
  lemma {:induction false} AppliancesTotalSplit(types: set<string>, t: string, counts: map<string, real>, rates: map<string, real>, hours: map<string, real>)
    requires t in types
    ensures AppliancesTotal(types, counts, rates, hours)
              == ApplianceMonthly(t, counts, rates, hours) + AppliancesTotal(types - {t}, counts, rates, hours)
    decreases types
  {
    var u :| u in types && AppliancesTotal(types, counts, rates, hours)
                             == ApplianceMonthly(u, counts, rates, hours) + AppliancesTotal(types - {u}, counts, rates, hours);
    if u != t {
      AppliancesTotalSplit(types - {u}, t, counts, rates, hours);
      AppliancesTotalSplit(types - {t}, u, counts, rates, hours);
      assert types - {u} - {t} == types - {t} - {u};
    }
  }

  /**
   * `household_appliances`: walks the types of `counts` and adds the month's
   * consumption of each type that the rate and hour tables also know.
   */
  method HouseholdAppliances(counts: map<string, real>, rates: map<string, real>, hours: map<string, real>) returns (total: real)
    ensures total == AppliancesTotal(counts.Keys, counts, rates, hours)
  {
    total := 0.0;
    var remaining := counts.Keys;
    while remaining != {}
      invariant remaining <= counts.Keys
      invariant total + AppliancesTotal(remaining, counts, rates, hours) == AppliancesTotal(counts.Keys, counts, rates, hours)
      decreases remaining
    {
      var applianceType :| applianceType in remaining;
      AppliancesTotalSplit(remaining, applianceType, counts, rates, hours);
      if applianceType in rates && applianceType in hours {
        var daily := counts[applianceType] * rates[applianceType] * hours[applianceType];
        var monthly := daily * 30.0;
        total := total + monthly;
      }
      remaining := remaining - {applianceType};
    }
  }

  /** Only the types present in all three tables contribute. */
  lemma {:induction false} AppliancesOnlyKnownTypes(types: set<string>, counts: map<string, real>, rates: map<string, real>, hours: map<string, real>)
    ensures AppliancesTotal(types, counts, rates, hours)
              == AppliancesTotal(types * counts.Keys * rates.Keys * hours.Keys, counts, rates, hours)
    decreases types
  {
    var known := counts.Keys * rates.Keys * hours.Keys;
    assert types * counts.Keys * rates.Keys * hours.Keys == types * known;
    if types != {} {
      var t :| t in types;
      AppliancesTotalSplit(types, t, counts, rates, hours);
      AppliancesOnlyKnownTypes(types - {t}, counts, rates, hours);
      assert (types - {t}) * counts.Keys * rates.Keys * hours.Keys == (types - {t}) * known;
      if t in known {
        AppliancesTotalSplit(types * known, t, counts, rates, hours);
        assert (types - {t}) * known == types * known - {t};
      } else {
        assert (types - {t}) * known == types * known;
      }
    }
  }

  /** With non-negative counts, rates and hours the total is non-negative. */
  lemma {:induction false} AppliancesNonNegative(types: set<string>, counts: map<string, real>, rates: map<string, real>, hours: map<string, real>)
    requires forall t :: t in counts ==> counts[t] >= 0.0
    requires forall t :: t in rates ==> rates[t] >= 0.0
    requires forall t :: t in hours ==> hours[t] >= 0.0
    ensures AppliancesTotal(types, counts, rates, hours) >= 0.0
    decreases types
  {
    if types != {} {
      var t :| t in types;
      AppliancesTotalSplit(types, t, counts, rates, hours);
      AppliancesNonNegative(types - {t}, counts, rates, hours);
      if t in counts && t in rates && t in hours {
        var a := counts[t] * rates[t];
        assert a >= 0.0;
        assert a * hours[t] >= 0.0;
      }
    }
  }

  // ---------------------------------------------------------------------------
  // Residential heating and the combined calculation

  /**
   * Gas for heating `area` m² over a season of `degreeDays`: the heat loss
   * (kWh-scaled by 0.024) over 35 times the heating efficiency.
   */
  function HeatingResidential(area: real, heatLossCoef: real, degreeDays: real, efficiency: real): (r: Outcome<real>)
    ensures r.ZeroDivisionError? <==> efficiency == 0.0
    ensures r.Ok? ==> r.value * (35.0 * efficiency) == area * heatLossCoef * degreeDays * 0.024
  {
    var heatLoss := area * heatLossCoef * degreeDays * 0.024;
    if 35.0 * efficiency == 0.0 then ZeroDivisionError
    else Ok(heatLoss / (35.0 * efficiency))
  }

  /** `dict.get` on a parameter section: the stored number, or the default. */
  function Get(section: map<string, real>, key: string, default: real): real {
    if key in section then section[key] else default
  }

  /** The results dictionary of `calculate_all_grs`, one field per key. */
  datatype GrsResults = GrsResults(
    separatorBlowdown: real,
    odorizationRefuel: real,
    diaphragmReplacement: real,
    gasHeating: real,
    pneumaticDevices: real,
    householdAppliances: real,
    heating: real,
    total: real)

  /** The sum of the seven component entries. */
  function PartsSum(r: GrsResults): real {
    r.separatorBlowdown + r.odorizationRefuel + r.diaphragmReplacement + r.gasHeating
      + r.pneumaticDevices + r.householdAppliances + r.heating
  }

  /** The blowdown of the separator section, with its defaults (z is always 0.95). */
  function SeparatorEntry(sep: map<string, real>): Outcome<real> {
    BlowdownSeparator(Get(sep, "volume", 10.0), Get(sep, "pressure", 1.0), Get(sep, "temperature", 293.0),
                      0.95, Get(sep, "n_blowdowns", 1.0))
  }

  /** The refuelling of the odorization section, with its defaults and 30 days. */
  function OdorizationEntry(odor: map<string, real>): real {
    RefuelOdorization(Get(odor, "tank_volume", 1.0), Get(odor, "concentration", 10.0), Get(odor, "pressure", 0.5), 30.0)
  }

  /** The pneumatic-device section, with its defaults and 30 days. */
  function PneumaticEntry(pneu: map<string, real>): real {
    PneumaticDevices(Get(pneu, "n_devices", 5.0), Get(pneu, "consumption", 0.1), Get(pneu, "hours", 24.0), 30.0)
  }

  /**
   * `calculate_all_grs`: evaluates the separator, odorization and pneumatic
   * sections that `parameters` holds, leaves every other entry at 0, and
   * totals the entries. The one failure is a separator temperature of 0.
   */
  function CalculateAllGrs(parameters: map<string, map<string, real>>): (r: Outcome<GrsResults>)
    ensures r.ZeroDivisionError? <==>
              "separator" in parameters && Get(parameters["separator"], "temperature", 293.0) == 0.0
    ensures r.Ok? ==> r.value.total == PartsSum(r.value)
    ensures r.Ok? ==> r.value.diaphragmReplacement == 0.0 && r.value.gasHeating == 0.0
                      && r.value.householdAppliances == 0.0 && r.value.heating == 0.0
    ensures r.Ok? ==> r.value.separatorBlowdown
                      == if "separator" in parameters then SeparatorEntry(parameters["separator"]).value else 0.0
    ensures r.Ok? ==> r.value.odorizationRefuel
                      == if "odorization" in parameters then OdorizationEntry(parameters["odorization"]) else 0.0
    ensures r.Ok? ==> r.value.pneumaticDevices
                      == if "pneumatic" in parameters then PneumaticEntry(parameters["pneumatic"]) else 0.0
  {
    var blowdown := if "separator" in parameters then SeparatorEntry(parameters["separator"]) else Ok(0.0);
    if blowdown.ZeroDivisionError? then ZeroDivisionError
    else
      var odorization := if "odorization" in parameters then OdorizationEntry(parameters["odorization"]) else 0.0;
      var pneumatic := if "pneumatic" in parameters then PneumaticEntry(parameters["pneumatic"]) else 0.0;
      var results := GrsResults(blowdown.value, odorization, 0.0, 0.0, pneumatic, 0.0, 0.0, 0.0);
      Ok(results.(total := PartsSum(results)))
  }

  /** With no sections every entry, the total included, is 0. */
  lemma CalculateAllGrsEmpty()
    ensures CalculateAllGrs(map[]) == Ok(GrsResults(0.0, 0.0, 0.0, 0.0, 0.0, 0.0, 0.0, 0.0))
  {
  }
}
