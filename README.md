# Carbon-footprint emission engine

A Dafny model of the emission engine of a small carbon-footprint web
application: the server controller that turns a user's lifestyle inputs
(car distance and car type, electricity and gas use, diet, short- and
long-haul flights) into a monthly CO2e estimate per category and in total,
plus up to three recommendation records chosen by threshold rules.

Modules:

- `Wrappers` (wrappers.dfy): `Option`, for a JSON field that was not sent and
  for a key missing from a lookup table.
- `EmissionFactors` (factors.dfy): the constant factor table, the keys it is
  indexed by, and lookup by key (`CarLookup`, `DietLookup`), which yields
  `None` where JavaScript yields `undefined`.
- `EmissionCalculator` (calculator.dfy): the request body (`EmissionInput`),
  the five unrounded components, `Math.round` (`RoundInt`, half toward
  +infinity, that is `Floor(y + 1/2)`), one-decimal rounding (`RoundTenth`)
  and `Calculate`, which gives the breakdown and the total.
- `Recommendations` (recommendations.dfy): the six recommendation texts as a
  `Template` enumeration (each with its exact title, description and
  category), the three rules as pure functions, their concatenation cut to
  three (`Recommend`), and `GetRecommendations`, the imperative routine that
  appends to a list under three conditionals and then slices it, proved equal
  to `Recommend`.
- `EmissionController` (controller.dfy): the pure part of the request
  handler, which computes the results and the recommendations for one body.

Numbers are Dafny `real`, so the arithmetic is exact decimal arithmetic.
The numeric fields are always present. `carType` and `diet` are kept raw
(`None` when absent or null): the calculation resolves them with a default,
but the recommendation rules compare the raw strings. So a body without
`carType` is charged at the petrol factor yet gets no travel tip
(`MissingCarTypeGetsNoTravelTip`), and a body without `diet` is charged the
mixed diet yet gets no diet tip (`MissingDietGetsNoDietTip`). With all
quantities zero and no diet sent, the result is 135.0 kg and no
recommendation; if the client sends `"mixed"` (its form's default), one
plant-based tip with a 730 kg saving is returned (`AllZeroTips`).

The total is rounded from the unrounded sum, not summed from the rounded
breakdown. The five breakdown fields therefore miss the total by at most two
tenths (`BreakdownSumNearTotal`). The bound is reached with half a
short-haul flight (`BreakdownCanMissTotalByTwoTenths`). With whole numbers
of flights the diet and flights components are exact tenths, and the miss is
at most one tenth (`WholeFlightsSumWithinTenth`).

The travel distance is labelled per week in the client form but is used
directly in the monthly total (server/controllers/emissionController.js:92);
the model keeps that as written.

## Model

| member | source | states |
|---|---|---|
| `EmissionFactors.CarLookup` | server/controllers/emissionController.js:6-10 | a car factor is found only under its own key; every other key gives none |
| `EmissionFactors.DietLookup` | server/controllers/emissionController.js:18-23 | a diet factor is found only under its own key; every other key gives none |
| `EmissionFactors.CarKeyRoundTrip` | server/controllers/emissionController.js:6-10 | each car type is found again under its key |
| `EmissionFactors.DietKeyRoundTrip` | server/controllers/emissionController.js:18-23 | each diet is found again under its key |
| `EmissionFactors.FactorsPositive` | server/controllers/emissionController.js:5-24 | no factor is zero, so `factor \|\| default` falls back only on a missing key |
| `EmissionFactors.FactorOrdering` | server/controllers/emissionController.js:5-24 | electric is the lowest car factor; vegetarian < mixed < high-meat |
| `EmissionCalculator.RoundInt` | server/controllers/emissionController.js:36 | Math.round: the integer within (y - 0.5, y + 0.5] |
| `EmissionCalculator.RoundTenth` | server/controllers/emissionController.js:105-109 | Math.round(x*10)/10 has one decimal and lies in (x - 0.05, x + 0.05] |
| `EmissionCalculator.RoundTenthUnique` | server/controllers/emissionController.js:105-109 | that is the only one-decimal value in (x - 0.05, x + 0.05] |
| `EmissionCalculator.RoundTenthNonNegative` | server/controllers/emissionController.js:105-109 | a non-negative amount rounds to a non-negative tenth |
| `EmissionCalculator.ResolveCar` | server/controllers/emissionController.js:88-92 | a known raw carType selects its own factor; absent or unknown selects petrol |
| `EmissionCalculator.ResolveDiet` | server/controllers/emissionController.js:95 | a known raw diet selects its own factor; absent or unknown selects mixed |
| `EmissionCalculator.Calculate` | server/controllers/emissionController.js:92-110 | each breakdown field is its component (km x car factor, kWh x 0.233, gas x 0.184, diet factor x 30, flights x 150/12 + 1800/12) to the nearest tenth, halves up; the total (line 128) is the unrounded sum to the nearest tenth |
| `EmissionCalculator.CalculateUnique` | server/controllers/emissionController.js:104-110 | Calculate's contract determines its result |
| `EmissionCalculator.UnknownCarTypeIsPetrol` | server/controllers/emissionController.js:88-92 | absent or unknown carType: travel = km x 0.192, same results as sending "petrol" |
| `EmissionCalculator.UnknownDietIsMixed` | server/controllers/emissionController.js:95 | absent or unknown diet: diet = 135, same results as sending "mixed" |
| `EmissionCalculator.KnownKeysUseTheirFactors` | server/controllers/emissionController.js:92-95 | a recognised carType or diet is charged at its own factor |
| `EmissionCalculator.NonNegativeInputsGiveNonNegativeResults` | server/controllers/emissionController.js:92-110 | non-negative quantities give non-negative breakdown fields and total |
| `EmissionCalculator.BreakdownSumNearTotal` | server/controllers/emissionController.js:101-110 | the sum of the breakdown is within 0.2 of the total |
| `EmissionCalculator.DietEmissionIsTenth` | server/controllers/emissionController.js:95 | the diet component is an exact tenth, so its rounding loses nothing |
| `EmissionCalculator.WholeFlightsSumWithinTenth` | server/controllers/emissionController.js:96-110 | with whole flight counts the sum of the breakdown is within 0.1 of the total |
| `EmissionCalculator.BreakdownCanMissTotalByTwoTenths` | server/controllers/emissionController.js:101-110 | 3 km petrol, 2 kWh, 3 kWh gas, half a short-haul flight: breakdown sums to 143.0, total 142.8 |
| `EmissionCalculator.PetrolCommuterScenario` | server/controllers/emissionController.js:92-110 | 100 km petrol, 300 kWh, mixed: 19.2, 69.9, 135.0, 0, 0; total 224.1 |
| `EmissionCalculator.AllZeroScenario` | server/controllers/emissionController.js:92-110 | all zero, no diet: only the default diet's 135.0 remains |
| `EmissionCalculator.ElectricCarScenario` | server/controllers/emissionController.js:92 | 200 km electric: travel 10.6 |
| `EmissionCalculator.FlightsScenario` | server/controllers/emissionController.js:96-98 | 2 short-haul and 1 long-haul flights: flights 175.0 |
| `Recommendations.TitlesDistinct` | server/controllers/emissionController.js:34-69 | the six titles are pairwise different |
| `Recommendations.Recommend` | server/controllers/emissionController.js:27-76 | at most 3 entries; a prefix of travel ++ electricity ++ diet outputs, all of it when shorter than 3 |
| `Recommendations.GetRecommendations` | server/controllers/emissionController.js:27-77 | the push-then-slice routine returns Recommend(inputs), whatever its second argument |
| `Recommendations.TravelTips` | server/controllers/emissionController.js:30-47 | both travel tips appear iff km > 50 and the raw carType is "petrol" or "diesel"; then they come first with savings round(km x 5.2) and round(km x (0.192 or 0.171 - 0.053) x 52) |
| `Recommendations.ElectricityTips` | server/controllers/emissionController.js:49-64 | the appliance tip appears iff kWh > 250, saving round(kWh x 0.25 x 0.233 x 12); the solar tip, saving round(kWh x 0.7 x 0.233 x 12), iff also the travel rule did not fire |
| `Recommendations.DietTipKept` | server/controllers/emissionController.js:66-76 | "Reduce meat consumption" appears iff raw diet is "high-meat", "Try plant-based alternatives" iff "mixed", each unless travel and electricity both fired; it is last, category diet, saving 1752 or 730 |
| `Recommendations.BothRulesCrowdOutTheRest` | server/controllers/emissionController.js:28-76 | travel and electricity both firing give exactly public transport, switch vehicle, appliances |
| `Recommendations.SavingsPositive` | server/controllers/emissionController.js:36-71 | every emitted saving is positive |
| `Recommendations.MissingCarTypeGetsNoTravelTip` | server/controllers/emissionController.js:31-32 | no carType: no travel-category tip, though travel was charged at petrol |
| `Recommendations.MissingDietGetsNoDietTip` | server/controllers/emissionController.js:67 | no diet: no diet-category tip, though the mixed diet was charged |
| `Recommendations.PetrolCommuterTips` | server/controllers/emissionController.js:27-76 | 100 km petrol, 300 kWh, mixed: savings 520, 723, 210 and nothing else |
| `Recommendations.AllZeroTips` | server/controllers/emissionController.js:27-76 | all zero: no tip without diet, one 730 kg plant-based tip with "mixed" |
| `Recommendations.ElectricCarGetsNoTravelTip` | server/controllers/emissionController.js:31-46 | an electric car never gets a travel tip |
| `EmissionController.CalculateEmissions` | server/controllers/emissionController.js:81-131 | the saved record holds Calculate's total and breakdown and Recommend of the raw body |

## Left out

- Persistence and HTTP: building and saving the Emission document, the 201 and 500 responses, and `getUserEmissions` (find by user, newest first, ten records) are delegated to libraries that are not part of this model.
- The stored copy of the inputs (with `carType` defaulted to "petrol") and the schema defaults in server/models/Emission.js affect storage only, not any computed value.
- JWT authentication, routing, server start-up and all client code (forms, charts, local storage) are wiring or presentation.
- IEEE-754 doubles: the model computes exactly, so binary rounding artefacts at exact `.x5` boundaries are not reproduced.
- JavaScript coercion: a numeric field that is missing or not a number (giving NaN, or a string compared with `>`) is not modelled; every numeric field is a number.
- EmissionInput: `carType` and `diet` are strings or absent; other JSON values (numbers, arrays whose string form is a key) and keys inherited from `Object.prototype` such as "constructor" are not modelled.
- The user id and the timestamp of a record come from the authentication context and the clock, and are left out with persistence.
