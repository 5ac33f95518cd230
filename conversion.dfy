/**
 * The three conversion strategies of the converter: factor tables for the
 * linear categories (`convertStandard`), Celsius as a pivot for temperature
 * (`convertTemperature`) and a static rate table for currency (the rate logic
 * of `convertCurrency`). All arithmetic is over the reals.
 */
module Conversion {
  import opened Wrappers
  import opened Units

  // ---------------------------------------------------------------------------
  // Linear categories

  /**
   * The factor `convertStandard` divides or multiplies by: present only when
   * the unit is listed in the category and its factor is present and non-zero
   * (JavaScript's `!unit.factor` rejects both a missing and a zero factor).
   */
  function UsableFactor(units: seq<UnitDef>, id: string): (r: Option<real>)
    ensures r.Some? ==> r.value != 0.0
    ensures r.Some? ==> FindUnit(units, id).Some? && FindUnit(units, id).value.factor == r
    ensures (FindUnit(units, id).Some? && FindUnit(units, id).value.factor.Some?
             && FindUnit(units, id).value.factor.value != 0.0) ==> r.Some?
  {
    var u := FindUnit(units, id);
    if u.Some? && u.value.factor.Some? && u.value.factor.value != 0.0 then u.value.factor else None
  }

  /**
   * The arithmetic of `convertStandard` once both factors are looked up: the
   * value goes to the base unit and on to the target; a missing factor on
   * either side leaves the value unchanged.
   */
  function ViaBase(value: real, from: Option<real>, to: Option<real>): (r: real)
    requires from.Some? ==> from.value != 0.0
    requires to.Some? ==> to.value != 0.0
    ensures from.None? || to.None? ==> r == value
    ensures from.Some? && to.Some? ==> r * to.value == value * from.value
  {
    if from.None? || to.None? then value
    else
      var inBase := value * from.value;
      inBase / to.value
  }

  /**
   * Linear conversion within the current category's unit list; the input
   * comes back unchanged when either unit cannot be used. The result
   * measures the same base quantity as the input.
   */
  function ConvertStandard(units: seq<UnitDef>, value: real, from: string, to: string): (r: real)
    ensures UsableFactor(units, from).None? || UsableFactor(units, to).None? ==> r == value
    ensures UsableFactor(units, from).Some? && UsableFactor(units, to).Some? ==>
              r * UsableFactor(units, to).value == value * UsableFactor(units, from).value
  {
    ViaBase(value, UsableFactor(units, from), UsableFactor(units, to))
  }

  /** Every unit listed in a linear category can be used by the linear conversion. */
  lemma ListedUnitUsable(c: Category, k: nat)
    requires IsLinear(c) && k < |UnitsOf(c)|
    ensures UsableFactor(UnitsOf(c), UnitsOf(c)[k].id) == UnitsOf(c)[k].factor
    ensures UsableFactor(UnitsOf(c), UnitsOf(c)[k].id).Some?
  {
    CatalogWellFormed(c);
    FindListedUnit(UnitsOf(c), k);
  }

  /** Base-unit arithmetic: converting to the same factor is the identity. */
  lemma ViaBaseIdentity(value: real, f: Option<real>)
    requires f.Some? ==> f.value != 0.0
    ensures ViaBase(value, f, f) == value
  {
  }

  /** Base-unit arithmetic: converting there and back is the identity. */
  lemma ViaBaseRoundTrip(value: real, f: Option<real>, t: Option<real>)
    requires f.Some? ==> f.value != 0.0
    requires t.Some? ==> t.value != 0.0
    ensures ViaBase(ViaBase(value, f, t), t, f) == value
  {
  }

  /** Base-unit arithmetic: two conversions in a row equal the direct one. */
  lemma ViaBaseComposition(value: real, a: real, b: real, d: real)
    requires a != 0.0 && b != 0.0 && d != 0.0
    ensures ViaBase(ViaBase(value, Some(a), Some(b)), Some(b), Some(d)) == ViaBase(value, Some(a), Some(d))
  {
  }

  /** Converting a unit to itself changes nothing. */
  lemma StandardIdentity(units: seq<UnitDef>, value: real, u: string)
    ensures ConvertStandard(units, value, u, u) == value
  {
  }

  /** Converting a to b and the result back to a gives the original value, for any two identifiers. */
  lemma StandardRoundTrip(units: seq<UnitDef>, value: real, a: string, b: string)
    ensures ConvertStandard(units, ConvertStandard(units, value, a, b), b, a) == value
  {
  }

  /** Converting a to b and then b to d is the same as converting a to d, when all three units can be used. */
  lemma StandardComposition(units: seq<UnitDef>, value: real, a: string, b: string, d: string)
    requires UsableFactor(units, a).Some? && UsableFactor(units, b).Some? && UsableFactor(units, d).Some?
    ensures ConvertStandard(units, ConvertStandard(units, value, a, b), b, d) == ConvertStandard(units, value, a, d)
  {
  }

  /** One kilometre is 0.621372… miles with the table's mile of 1609.34 m. */
  lemma KilometreInMiles()
    ensures 0.621372 < ConvertStandard(UnitsOf(Length), 1.0, "km", "mile") < 0.621373
  {
  }

  // ---------------------------------------------------------------------------
  // Temperature

  /** The first stage of `convertTemperature`: the value in degrees Celsius, None for an unknown unit. */
  function ToCelsius(value: real, from: string): Option<real> {
    if from == "c" then Some(value)
    else if from == "f" then Some((value - 32.0) * 5.0 / 9.0)
    else if from == "k" then Some(value - 273.15)
    else None
  }

  /** The second stage of `convertTemperature`: a Celsius value in the target unit, None for an unknown unit. */
  function FromCelsius(celsius: real, to: string): Option<real> {
    if to == "c" then Some(celsius)
    else if to == "f" then Some(celsius * 9.0 / 5.0 + 32.0)
    else if to == "k" then Some(celsius + 273.15)
    else None
  }

  predicate IsTemperatureUnit(u: string) {
    u == "c" || u == "f" || u == "k"
  }

  /**
   * Temperature conversion with Celsius as the pivot. An unknown source or
   * target unit yields the original input, never the intermediate Celsius value.
   */
  function ConvertTemperature(value: real, from: string, to: string): (r: real)
    ensures !IsTemperatureUnit(from) || !IsTemperatureUnit(to) ==> r == value
    ensures from == to ==> r == value
  {
    match ToCelsius(value, from)
    case None => value
    case Some(celsius) =>
      match FromCelsius(celsius, to)
      case None => value
      case Some(r) => r
  }

  /** The six formulas between Celsius, Fahrenheit and Kelvin. */
  lemma TemperatureFormulas(v: real)
    ensures ConvertTemperature(v, "c", "f") == v * 9.0 / 5.0 + 32.0
    ensures ConvertTemperature(v, "f", "c") == (v - 32.0) * 5.0 / 9.0
    ensures ConvertTemperature(v, "c", "k") == v + 273.15
    ensures ConvertTemperature(v, "k", "c") == v - 273.15
    ensures ConvertTemperature(v, "f", "k") == (v - 32.0) * 5.0 / 9.0 + 273.15
    ensures ConvertTemperature(v, "k", "f") == (v - 273.15) * 9.0 / 5.0 + 32.0
  {
  }

  /** Water freezes at 32 °F and boils at 373.15 K. */
  lemma TemperatureReferencePoints()
    ensures ConvertTemperature(0.0, "c", "f") == 32.0
    ensures ConvertTemperature(100.0, "c", "k") == 373.15
    ensures ConvertTemperature(32.0, "f", "c") == 0.0
  {
  }

  /** Stage two undoes stage one: a temperature read into Celsius and sent back to its unit is unchanged. */
  lemma {:induction false} CelsiusStagesInverse(v: real, u: string)
    requires IsTemperatureUnit(u)
    ensures ToCelsius(v, u).Some? && FromCelsius(ToCelsius(v, u).value, u) == Some(v)
  {
  }

  /** Stage one undoes stage two: a Celsius value sent to a unit and read back is unchanged. */
  lemma {:induction false} CelsiusToCelsius(c: real, u: string)
    requires IsTemperatureUnit(u)
    ensures FromCelsius(c, u).Some? && ToCelsius(FromCelsius(c, u).value, u) == Some(c)
  {
  }

  /** Converting a to b and the result back to a gives the original temperature, for any two identifiers. */
  lemma TemperatureRoundTrip(v: real, a: string, b: string)
    ensures ConvertTemperature(ConvertTemperature(v, a, b), b, a) == v
  {
  }

  /** Going through an intermediate unit is the same as converting directly. */
  lemma TemperatureComposition(v: real, a: string, b: string, d: string)
    requires IsTemperatureUnit(a) && IsTemperatureUnit(b) && IsTemperatureUnit(d)
    ensures ConvertTemperature(ConvertTemperature(v, a, b), b, d) == ConvertTemperature(v, a, d)
  {
  }

  // ---------------------------------------------------------------------------
  // Currency

  /** The static rate table: one unit of the outer currency buys this much of the inner one. */
  const Rates: map<string, map<string, real>> := map[
    "USD" := map["RUB" := 90.0, "EUR" := 0.92, "GBP" := 0.79, "JPY" := 148.0],
    "EUR" := map["RUB" := 98.0, "USD" := 1.09, "GBP" := 0.86, "JPY" := 161.0],
    "RUB" := map["USD" := 0.011, "EUR" := 0.0102, "GBP" := 0.0088, "JPY" := 1.64]]

  /**
   * The shape of the rate table: rows for the dollar, the euro and the rouble
   * only, no row quoting its own currency, and every rate positive; the pound
   * and the yen appear only as targets.
   */
  lemma RateTableShape()
    ensures Rates.Keys == {"USD", "EUR", "RUB"}
    ensures forall from :: from in Rates ==> from !in Rates[from]
    ensures forall from, to :: from in Rates && to in Rates[from] ==> Rates[from][to] > 0.0
    ensures forall from :: from in Rates ==> "GBP" in Rates[from] && "JPY" in Rates[from]
  {
  }

  /** A rate the table holds for the pair and that JavaScript treats as truthy (present and non-zero). */
  function StoredRate(from: string, to: string): (r: Option<real>)
    ensures r.Some? <==> from in Rates && to in Rates[from]
    ensures r.Some? ==> r.value == Rates[from][to] && r.value > 0.0
  {
    if from in Rates && to in Rates[from] && Rates[from][to] != 0.0 then Some(Rates[from][to]) else None
  }

  /**
   * What the currency path does: the same currency short-circuits (the input
   * is shown and no history entry is made); otherwise a result, and whether
   * the "rate not found" notice was raised.
   */
  datatype CurrencyOutcome = SameCurrency | Converted(result: real, noticeRaised: bool)

  /**
   * The rate logic of `convertCurrency`: the direct pair multiplies, an
   * inverse-only pair divides, and with neither the input is kept and a
   * notice is raised.
   */
  function ConvertCurrency(value: real, from: string, to: string): (r: CurrencyOutcome)
    ensures r.SameCurrency? <==> from == to
    ensures r.Converted? && StoredRate(from, to).Some? ==>
              r.result == value * StoredRate(from, to).value && !r.noticeRaised
    ensures r.Converted? && StoredRate(from, to).None? && StoredRate(to, from).Some? ==>
              r.result * StoredRate(to, from).value == value && !r.noticeRaised
    ensures r.Converted? ==> (r.noticeRaised <==> StoredRate(from, to).None? && StoredRate(to, from).None?)
    ensures r.Converted? && r.noticeRaised ==> r.result == value
  {
    if from == to then SameCurrency
    else
      var direct, inverse := StoredRate(from, to), StoredRate(to, from);
      if direct.Some? then Converted(value * direct.value, false)
      else if inverse.Some? then Converted(value / inverse.value, false)
      else Converted(value, true)
  }

  /**
   * Among the listed currencies, the notice is raised exactly for a pair of
   * two different currencies that both lack a row of the table (GBP and JPY).
   */
  lemma CurrencyNoticeExactlyWithoutRow(value: real, i: nat, j: nat)
    requires i < |UnitsOf(Currency)| && j < |UnitsOf(Currency)| && i != j
    ensures ConvertCurrency(value, UnitsOf(Currency)[i].id, UnitsOf(Currency)[j].id).noticeRaised <==>
              UnitsOf(Currency)[i].id !in Rates && UnitsOf(Currency)[j].id !in Rates
  {
  }

  /** GBP to JPY has no rate in either direction: the input is kept and the notice raised. */
  lemma PoundToYenHasNoRate(value: real)
    ensures ConvertCurrency(value, "GBP", "JPY") == Converted(value, true)
  {
  }

  /** A pair stored in one direction only converts back exactly. */
  lemma CurrencyRoundTripOneWay(value: real, a: string, b: string)
    requires a != b && StoredRate(a, b).None? && StoredRate(b, a).Some?
    ensures ConvertCurrency(ConvertCurrency(value, a, b).result, b, a) == Converted(value, false)
  {
  }

  /**
   * A pair stored in both directions need not round-trip: the table's
   * RUB→USD rate is not the inverse of its USD→RUB rate, so 1 USD comes back
   * as 0.99 USD.
   */
  lemma CurrencyRoundTripDrift()
    ensures ConvertCurrency(ConvertCurrency(1.0, "USD", "RUB").result, "RUB", "USD") == Converted(0.99, false)
  {
  }
}
