# Unit converter and gas-consumption calculators, modelled in Dafny

This project models the computational core of a chat-embedded unit converter
and of two gas-consumption calculators used in gas-transport engineering.

- **Unit catalog** (`units.dfy`, module `Units`): the converter's unit lists for length,
  weight, temperature, volume, area, speed, time and currency, with their
  conversion factors. It also holds `find` by identifier and the default
  selection of two units when a category is chosen.
- **Conversions** (`conversion.dfy`, module `Conversion`): linear conversion
  through the category's base unit, with the input returned unchanged when a
  unit is unknown or has no usable factor. Temperature goes through Celsius.
  Currency uses a static rate table: the direct rate, then the inverse rate,
  and otherwise the input with a "rate not found" notice.
- **Ledger** (`ledger.dfy`, module `Ledger`): the application state as a
  class. The history is newest first and keeps at most ten conversions. The
  favorites are promoted from the history and deduplicated by id. The module
  also covers favorite lookup, confirmed clearing of the history, the theme
  switch and the conversion request that ties all of these together.
- **Gas formulas**: `gas.dfy` (module `GasLaw`) holds the shared constants
  and the reduction of a volume to atmospheric pressure. `grs.dfy` (module
  `Grs`) holds the gas-distribution-station formulas and their combined
  calculation. `kc.dfy` (module `Kc`) holds the compressor-station formulas
  and their combined calculation.

All arithmetic is over Dafny's `real`, so the laws hold exactly. These are
the round trips, the Celsius/Fahrenheit/Kelvin formulas, the cancellation of
the gas constant and linearity in counts. The floating-point program meets
them only up to rounding.

Python raises `ZeroDivisionError` when a divisor is zero. The model returns
`Outcome.ZeroDivisionError` in that case; it does not forbid the input. This
happens for a zero compressibility or temperature in the blowdown and
start-up formulas, and for a zero efficiency in the two heating formulas.

Record ids and dates come from the clock in the program. In the model the
caller supplies them. The answer to the confirmation dialog is a boolean
parameter.

`modules/kc_calculations.py` annotates `calculate_all_kc` with `Dict` but
imports only `math`. Importing the module therefore raises `NameError`. The
model captures its formulas as written.

With the table's mile of 1609.34 m, one kilometre converts to 0.621372…
miles (`Conversion.KilometreInMiles`).

The separator blowdown formula gives about 187.09 normal m³ for one blowdown
of a 15 m³ separator at 1.2 MPa, 293 K and z = 0.95
(`Grs.BlowdownExample`).

The table's USD→RUB and RUB→USD rates are not inverses of each other. As a
result, 1 USD converted to roubles and back gives 0.99 USD
(`Conversion.CurrencyRoundTripDrift`). A pair stored in one direction only
does round-trip exactly.

## Model

| member | source | states |
|---|---|---|
| `Units.CatalogWellFormed` | script.js:15-73 | every unit of a linear category has a positive factor and the first has factor 1; temperature and currency units have none; identifiers are distinct; every list has at least two units |
| `Units.UnitsOf` | script.js:15-73 | the unit list of each category, with the names, identifiers and factors of the table in that order; its properties are stated by `CatalogWellFormed` |
| `Units.FindUnit` | script.js:222-223 | returns the first unit of the list whose identifier matches, and None exactly when no unit of the list has that identifier |
| `Units.FindListedUnit` | script.js:222-223 | in a list with distinct identifiers, looking up a listed unit's identifier finds that unit |
| `Units.DefaultSelection` | script.js:163-167 | a source and target unit are preselected exactly when the list has more than one unit, namely the first and the second |
| `Units.DefaultSelectionDistinct` | script.js:141-168 | for every category the preselected source and target are two different listed units |
| `Conversion.UsableFactor` | script.js:222-227 | a factor is returned exactly when the unit is found and its factor is present and non-zero, and it is that unit's factor |
| `Conversion.ViaBase` | script.js:225-231 | a missing factor on either side returns the value unchanged; otherwise result × target factor = value × source factor |
| `Conversion.ConvertStandard` | script.js:220-232 | returns the input when either unit cannot be used; otherwise it preserves the quantity in base units |
| `Conversion.ListedUnitUsable` | script.js:220-227 | every unit listed in a linear category is usable, with its catalog factor |
| `Conversion.ViaBaseIdentity` | script.js:229-231 | converting through the base unit to the same factor is the identity |
| `Conversion.ViaBaseRoundTrip` | script.js:229-231 | converting through the base unit there and back is the identity |
| `Conversion.ViaBaseComposition` | script.js:229-231 | two base-unit conversions in a row equal the direct one |
| `Conversion.StandardIdentity` | script.js:220-232 | converting a unit to itself returns the value |
| `Conversion.StandardRoundTrip` | script.js:220-232 | a→b then b→a returns the original value for any two identifiers, listed or not |
| `Conversion.StandardComposition` | script.js:220-232 | a→b then b→d equals a→d when the three units are usable |
| `Conversion.KilometreInMiles` | script.js:18-21 | 1 km converts to between 0.621372 and 0.621373 miles |
| `Conversion.ConvertTemperature` | script.js:235-264 | an unknown source or target unit returns the original input (not the Celsius value); the same unit returns the input |
| `Conversion.TemperatureFormulas` | script.js:239-263 | c→f is v·9/5+32, f→c is (v−32)·5/9, c→k is v+273.15, k→c is v−273.15, and f↔k goes through Celsius |
| `Conversion.TemperatureReferencePoints` | script.js:239-263 | 0 °C is 32 °F, 100 °C is 373.15 K, 32 °F is 0 °C |
| `Conversion.CelsiusStagesInverse` | script.js:239-260 | reading a known unit into Celsius and writing it back gives the original value |
| `Conversion.CelsiusToCelsius` | script.js:239-260 | writing a Celsius value into a known unit and reading it back gives the Celsius value |
| `Conversion.TemperatureRoundTrip` | script.js:235-264 | a→b then b→a returns the original temperature for any two identifiers |
| `Conversion.TemperatureComposition` | script.js:235-264 | going through an intermediate known unit equals the direct conversion |
| `Conversion.RateTableShape` | script.js:270-274 | the rate table has rows for USD, EUR and RUB only, no row quotes its own currency, every rate is positive, and GBP and JPY are only targets |
| `Conversion.StoredRate` | script.js:270-284 | a rate is returned exactly when the table has a row for the source with an entry for the target, and it is that table entry, which is positive |
| `Conversion.ConvertCurrency` | script.js:276-292 | the same currency short-circuits; a direct rate multiplies; an inverse-only rate divides; with neither, the input is kept and the notice raised |
| `Conversion.CurrencyNoticeExactlyWithoutRow` | script.js:270-289 | among listed currencies, the notice is raised exactly when both different currencies lack a table row (GBP and JPY) |
| `Conversion.PoundToYenHasNoRate` | script.js:284-289 | GBP→JPY keeps the input and raises the notice |
| `Conversion.CurrencyRoundTripOneWay` | script.js:282-285 | a pair stored in one direction only converts back exactly |
| `Conversion.CurrencyRoundTripDrift` | script.js:271-273 | 1 USD→RUB→USD gives 0.99 |
| `Ledger.PushHistory` | script.js:327-330 | the new record is at index 0; the rest is the old history, minus its last record when it already held ten or more; from at most ten the length becomes min(old + 1, 10) |
| `Ledger.HistoryKeepsMostRecent` | script.js:316-334 | from a history within the limit, any run of conversions leaves the most recent ones newest first, up to ten; the oldest are evicted |
| `Ledger.FindById` | script.js:374 | the first record with the id, and None exactly when no record has it |
| `Ledger.CountIdAbsent` | script.js:377 | a list without the id counts it zero times |
| `Ledger.Promote` | script.js:373-385 | nothing happens if no history record has the id; the favorites stay the same if one already has it; otherwise the first history record with the id is prepended |
| `Ledger.PromoteTwiceKeepsOne` | script.js:377-384 | promoting twice leaves exactly one favorite with the id, and the second call only gives the "already there" notice |
| `Ledger.PromoteKeepsIdsDistinct` | script.js:377-378 | favorites without duplicate ids stay without duplicates |
| `Ledger.PromoteDrawsFromHistory` | script.js:374-378 | every favorite afterwards was a favorite before or is a history record |
| `Ledger.AppState.constructor` | script.js:7-12 | starts in the length category with the stored lists; an absent or empty stored theme becomes "light" |
| `Ledger.AppState.ToggleTheme` | script.js:114-118 | "light" becomes "dark" and anything else becomes "light" |
| `Ledger.AppState.SelectCategory` | script.js:130-134 | makes the category current and returns two different preselected units; the automatic conversion of script.js:135 is a following `Convert` |
| `Ledger.AppState.AddToHistory` | script.js:316-334 | the history becomes `PushHistory` of the old history and the new record of the current category; the limit is kept; nothing else changes |
| `Ledger.AppState.Convert` | script.js:191-217 | dispatches on the current category to the temperature, currency or linear conversion; it records the result except for a same-currency request |
| `Ledger.AppState.AddToFavorites` | script.js:373-385 | the favorites and notice are those of `Promote`; the history is not modified; unique favorite ids are preserved |
| `Ledger.AppState.UseFavorite` | script.js:421-423 | returns the first favorite with the id, or None when no favorite has it |
| `Ledger.AppState.ClearHistory` | script.js:441-447 | when confirmed the history becomes empty; when declined it is unchanged; the favorites are never touched |
| `GasLaw.AtAtmosphere` | modules/kc_calculations.py:55 | the pressure–volume product is kept when reducing to 0.101325 MPa |
| `GasLaw.AtAtmosphereUnit` | modules/kc_calculations.py:55 | at atmospheric pressure the reduced volume is the volume |
| `GasLaw.AtAtmosphereAdditive` | modules/kc_calculations.py:55 | the reduced volume is additive in the volume |
| `Grs.BlowdownSeparator` | modules/grs_calculations.py:17-44 | fails with ZeroDivisionError exactly when z or the temperature is 0 |
| `Grs.BlowdownNormalVolume` | modules/grs_calculations.py:33-44 | R cancels: the result is n·p·10⁶·V·293.15/(z·T·101325) |
| `Grs.BlowdownLinearInCount` | modules/grs_calculations.py:44 | the volume is additive in the number of blowdowns and 0 for none |
| `Grs.BlowdownExample` | modules/grs_calculations.py:33-44 | 15 m³ at 1.2 MPa, 293 K, z 0.95 gives between 187.09 and 187.10 m³ per blowdown |
| `Grs.RefuelOdorization` | modules/grs_calculations.py:46-66 | 3 × result = tank volume × days × pressure |
| `Grs.RefuelIgnoresConcentration` | modules/grs_calculations.py:61-66 | the concentration does not affect the result |
| `Grs.DiaphragmReplacement` | modules/grs_calculations.py:68-92 | the gas of a 10 m section of area π(d/1000)²/4, reduced to atmospheric pressure; non-negative for non-negative pressure |
| `Grs.GasHeatingBeforeRegulators` | modules/grs_calculations.py:94-129 | 0 when the outlet is not warmer than the inlet; otherwise flow × hours × ΔT × 0.000044 (0.7·2200/35·10⁶) |
| `Grs.GasHeatingPositive` | modules/grs_calculations.py:116-129 | positive flow, positive hours and a temperature rise give a positive result |
| `Grs.PneumaticDevices` | modules/grs_calculations.py:133-148 | the result is 0 exactly when the device count, consumption, hours per day or days is 0 |
| `Grs.PneumaticLinearInDevices` | modules/grs_calculations.py:147-148 | the consumption is additive in the number of devices |
| `Grs.AppliancesTotalSplit` | modules/grs_calculations.py:164-173 | the appliance total does not depend on iteration order: any type can be split off |
| `Grs.HouseholdAppliances` | modules/grs_calculations.py:150-173 | the loop's total is the sum over the count table's types of count × rate × hours × 30, counting types known to all three tables |
| `Grs.AppliancesOnlyKnownTypes` | modules/grs_calculations.py:165-166 | only types present in all three tables contribute |
| `Grs.AppliancesNonNegative` | modules/grs_calculations.py:164-173 | non-negative tables give a non-negative total |
| `Grs.HeatingResidential` | modules/grs_calculations.py:175-195 | fails exactly for zero efficiency; otherwise result × 35 × efficiency = area × coefficient × degree-days × 0.024 |
| `Grs.CalculateAllGrs` | modules/grs_calculations.py:199-242 | absent sections stay 0; present sections use their defaults; diaphragm, gas heating, household and heating are always 0; the total is the sum of the seven entries; it fails only for a separator temperature of 0 |
| `Grs.CalculateAllGrsEmpty` | modules/grs_calculations.py:202-240 | with no sections every entry and the total are 0 |
| `Kc.GpaStartup` | modules/kc_calculations.py:16-39 | fails with ZeroDivisionError exactly when z or the temperature is 0 |
| `Kc.GpaStartupIsBlowdown` | modules/kc_calculations.py:32-39 | equals the separator blowdown on the same inputs |
| `Kc.GpaStartupLinearInStarts` | modules/kc_calculations.py:39 | the volume is additive in the number of start-ups |
| `Kc.CompressorVenting` | modules/kc_calculations.py:41-60 | the vented share of the circuit's gas reduced to atmospheric pressure |
| `Kc.AirDisplacement` | modules/kc_calculations.py:62-78 | three system volumes reduced to atmospheric pressure per purge |
| `Kc.SealSystemVenting` | modules/kc_calculations.py:82-102 | result minus the continuous venting (rate × hours) is half the seal system's gas at atmospheric pressure |
| `Kc.OilTankPurging` | modules/kc_calculations.py:104-125 | one reduced tank volume per purge over purges/day × days; 0 when either count is 0 |
| `Kc.LiquidDegassing` | modules/kc_calculations.py:127-146 | the dissolved gas (volume × gas content) reduced to atmospheric pressure |
| `Kc.GpaEnclosureHeating` | modules/kc_calculations.py:150-175 | fails exactly for zero efficiency; otherwise result × 35·10⁶ × efficiency = heat lost over the hours in joules |
| `Kc.ThermalOxidation` | modules/kc_calculations.py:177-191 | ten times the result is waste flow × hours |
| `Kc.CalculateAllKc` | modules/kc_calculations.py:195-212 | every entry and the total are 0 whatever the parameters |

## Left out

- DOM rendering and event wiring are not modelled. This covers `updateHistory`, `updateFavorites`, `loadQuickConversions` with the quick-conversion table, `applyTheme`, `initCategoryButtons`, `swapUnits`, `resetConverter`, `showModal`, `closeModal` and `window.onclick`. A notice is a returned flag or value.
- The host SDK is not modelled. This covers `tg.expand`, `tg.enableClosingConfirmation` and `sendToTelegram`. The chat bot in `bot.py` is not part of this model.
- `localStorage` persistence and JSON parsing are not modelled. The constructor receives the stored, already parsed lists and theme, and each method's postcondition is the state that would be written back.
- Display formatting is not modelled: `toFixed`, the regex that strips trailing zeros, and `parseFloat` of the input field. The model works on the numeric values.
- Ledger.AppState.UseFavorite: models the lookup only. The category switch it clicks and the `setTimeout` replay into the form are DOM and timer machinery. They amount to a later `SelectCategory` and `Convert`.
- Ledger.AppState.Convert: takes the input, source and target as parameters, as read from the form. The `async` keyword on the currency path suspends nothing and is ignored.
- Conversion.StoredRate: looks rates up in a map. JavaScript object lookup would also see inherited property names such as `constructor`, but the form only offers the five listed currencies.
- IEEE-754 rounding is not modelled. For example, the km/h factor 0.277778 is not exactly 1/3.6. All laws are proved over the reals.
- Python's numeric types are not modelled: counts and day numbers are reals. Python does not enforce its type hints, and `calculate_all_grs` passes dictionary values through.
- `modules/pipeline_calculations.py` is not part of this model. It is dominated by square roots, exponentials, logarithms and fractional powers.
- Python default arguments are explicit parameters in the model: `z=0.95`, `n_blowdowns=1`, `n_starts=1`, `hours=24`, `efficiency=0.85` and `0.8`, `days=30`, `venting_percentage=0.1` and `n_purges=1`. `calculate_all_grs` and `calculate_all_kc` pass them as the Python does.
- Ledger.AppState.SelectCategory: does not run the conversion the category button starts. That conversion is a following `Convert` call.
- The `NameError` that `Dict` causes when `modules/kc_calculations.py` is imported is not modelled. The formulas are modelled as written.
