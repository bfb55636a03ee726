/** The arithmetic of calculateEmissions: five monthly components from the
    request body, each rounded to one decimal, and their total rounded from
    the unrounded sum. */
module EmissionCalculator {
  import opened Wrappers
  import opened EmissionFactors

  /** The request body as the client sends it. The numeric fields are always
      present; carType and diet are kept exactly as sent (None when absent
      or null), because the recommendations compare the raw strings. */
  datatype EmissionInput = EmissionInput(
    travelKm: real,
    electricityKwh: real,
    diet: Option<string>,
    flightsShortHaul: real,
    flightsLongHaul: real,
    naturalGasKwh: real,
    carType: Option<string>)

  /** kg CO2e per month, per category, each to one decimal. */
  datatype Breakdown = Breakdown(travel: real, electricity: real, diet: real, flights: real, heating: real)

  datatype Results = Results(totalEmissionKg: real, breakdown: Breakdown)

  /** x has at most one decimal. */
  predicate IsTenth(x: real)
  {
    (x * 10.0).Floor as real == x * 10.0
  }

  /** r is a one-decimal value at most half a tenth from x (halves go up). */
  predicate NearestTenth(r: real, x: real)
  {
    IsTenth(r) && x - 0.05 < r <= x + 0.05
  }

  /** JavaScript's Math.round: the nearest integer, halves toward +infinity. */
  function RoundInt(y: real): (n: int)
    ensures y - 0.5 < n as real <= y + 0.5
  {
    (y + 0.5).Floor
  }

  /** Math.round(x * 10) / 10 */
  function RoundTenth(x: real): (r: real)
    ensures NearestTenth(r, x)
  {
    var n := RoundInt(x * 10.0);
    assert (n as real / 10.0) * 10.0 == n as real;
    n as real / 10.0
  }

  /** NearestTenth pins its value down: Math.round(x * 10) / 10 is the only
      one-decimal value in (x - 0.05, x + 0.05]. */
  lemma RoundTenthUnique(x: real, t: real)
    requires NearestTenth(t, x)
    ensures t == RoundTenth(x)
  {
    var k := (t * 10.0).Floor;
    assert k as real == t * 10.0;
    assert x * 10.0 - 0.5 < k as real <= x * 10.0 + 0.5;
    assert (x * 10.0 + 0.5).Floor == k;
  }

  /** A non-negative amount never rounds below zero. */
  lemma RoundTenthNonNegative(x: real)
    requires x >= 0.0
    ensures RoundTenth(x) >= 0.0
  {
  }

  /** `carType = 'petrol'` when absent, then
      `EMISSION_FACTORS.car[carType] || EMISSION_FACTORS.car.petrol`. */
  function ResolveCar(raw: Option<string>): (c: CarType)
    ensures forall k :: raw == Some(CarKey(k)) ==> c == k
    ensures (forall k :: raw != Some(CarKey(k))) ==> c == Petrol
  {
    var key := if raw.None? then "petrol" else raw.value;
    match CarLookup(key)
    case Some(c) => c
    case None => Petrol
  }

  /** `EMISSION_FACTORS.diet[diet] || EMISSION_FACTORS.diet.mixed`. */
  function ResolveDiet(raw: Option<string>): (d: Diet)
    ensures forall k :: raw == Some(DietKey(k)) ==> d == k
    ensures (forall k :: raw != Some(DietKey(k))) ==> d == Mixed
  {
    if raw.None? then Mixed
    else
      match DietLookup(raw.value)
      case Some(d) => d
      case None => Mixed
  }

  function TravelEmission(i: EmissionInput): real
  {
    i.travelKm * CarFactor(ResolveCar(i.carType))
  }

  function ElectricityEmission(i: EmissionInput): real
  {
    i.electricityKwh * ElectricityFactor
  }

  function HeatingEmission(i: EmissionInput): real
  {
    i.naturalGasKwh * NaturalGasFactor
  }

  /** 30 days of the daily diet factor. */
  function DietEmission(i: EmissionInput): real
  {
    DietFactor(ResolveDiet(i.diet)) * 30.0
  }

  /** Yearly flights spread over 12 months. */
  function FlightsEmission(i: EmissionInput): real
  {
    i.flightsShortHaul * ShortHaulFactor / 12.0 + i.flightsLongHaul * LongHaulFactor / 12.0
  }

  /** The unrounded sum of the five components. */
  function TotalEmission(i: EmissionInput): real
  {
    TravelEmission(i) + ElectricityEmission(i) + DietEmission(i) + FlightsEmission(i) + HeatingEmission(i)
  }

  function BreakdownSum(b: Breakdown): real
  {
    b.travel + b.electricity + b.diet + b.flights + b.heating
  }

  /** Each breakdown field is its component to the nearest tenth; the total
      is the unrounded sum to the nearest tenth. */
  function Calculate(i: EmissionInput): (res: Results)
    ensures NearestTenth(res.breakdown.travel, TravelEmission(i))
    ensures NearestTenth(res.breakdown.electricity, ElectricityEmission(i))
    ensures NearestTenth(res.breakdown.diet, DietEmission(i))
    ensures NearestTenth(res.breakdown.flights, FlightsEmission(i))
    ensures NearestTenth(res.breakdown.heating, HeatingEmission(i))
    ensures NearestTenth(res.totalEmissionKg, TotalEmission(i))
  {
    var breakdown := Breakdown(
      RoundTenth(TravelEmission(i)),
      RoundTenth(ElectricityEmission(i)),
      RoundTenth(DietEmission(i)),
      RoundTenth(FlightsEmission(i)),
      RoundTenth(HeatingEmission(i)));
    Results(RoundTenth(TotalEmission(i)), breakdown)
  }

  /** The contract of Calculate determines its result: any results whose
      fields are the nearest tenths of the components are Calculate's. */
  lemma CalculateUnique(i: EmissionInput, res: Results)
    requires NearestTenth(res.breakdown.travel, TravelEmission(i))
    requires NearestTenth(res.breakdown.electricity, ElectricityEmission(i))
    requires NearestTenth(res.breakdown.diet, DietEmission(i))
    requires NearestTenth(res.breakdown.flights, FlightsEmission(i))
    requires NearestTenth(res.breakdown.heating, HeatingEmission(i))
    requires NearestTenth(res.totalEmissionKg, TotalEmission(i))
    ensures res == Calculate(i)
  {
    RoundTenthUnique(TravelEmission(i), res.breakdown.travel);
    RoundTenthUnique(ElectricityEmission(i), res.breakdown.electricity);
    RoundTenthUnique(DietEmission(i), res.breakdown.diet);
    RoundTenthUnique(FlightsEmission(i), res.breakdown.flights);
    RoundTenthUnique(HeatingEmission(i), res.breakdown.heating);
    RoundTenthUnique(TotalEmission(i), res.totalEmissionKg);
  }

  /** An absent or unrecognised carType is charged at the petrol factor,
      exactly as if "petrol" had been sent. */
  lemma UnknownCarTypeIsPetrol(i: EmissionInput)
    requires i.carType.None? || CarLookup(i.carType.value).None?
    ensures TravelEmission(i) == i.travelKm * 0.192
    ensures Calculate(i) == Calculate(i.(carType := Some("petrol")))
  {
  }

  /** An absent or unrecognised diet is charged at the mixed factor
      (4.5 * 30 = 135 kg), exactly as if "mixed" had been sent. */
  lemma UnknownDietIsMixed(i: EmissionInput)
    requires i.diet.None? || DietLookup(i.diet.value).None?
    ensures DietEmission(i) == 135.0
    ensures Calculate(i) == Calculate(i.(diet := Some("mixed")))
  {
    var j := i.(diet := Some("mixed"));
    assert ResolveDiet(j.diet) == Mixed;
    assert DietEmission(i) == DietEmission(j);
    assert TotalEmission(i) == TotalEmission(j);
  }

  /** A recognised carType or diet is charged at its own factor. */
  lemma KnownKeysUseTheirFactors(i: EmissionInput, c: CarType, d: Diet)
    ensures i.carType == Some(CarKey(c)) ==> TravelEmission(i) == i.travelKm * CarFactor(c)
    ensures i.diet == Some(DietKey(d)) ==> DietEmission(i) == DietFactor(d) * 30.0
  {
  }

  /** With no negative quantity, no breakdown field and no total is negative. */
  lemma NonNegativeInputsGiveNonNegativeResults(i: EmissionInput)
    requires i.travelKm >= 0.0 && i.electricityKwh >= 0.0 && i.naturalGasKwh >= 0.0
    requires i.flightsShortHaul >= 0.0 && i.flightsLongHaul >= 0.0
    ensures var res := Calculate(i);
      res.breakdown.travel >= 0.0 && res.breakdown.electricity >= 0.0 && res.breakdown.diet >= 0.0 &&
      res.breakdown.flights >= 0.0 && res.breakdown.heating >= 0.0 && res.totalEmissionKg >= 0.0
  {
  }

  /** A tenth times ten, as an integer. */
  function Tenths(x: real): (n: int)
    requires IsTenth(x)
    ensures n as real == x * 10.0
  {
    (x * 10.0).Floor
  }

  /** The total is rounded from the unrounded sum, so the breakdown fields
      need not add up to it; they miss it by at most two tenths. */
  lemma BreakdownSumNearTotal(i: EmissionInput)
    ensures var res := Calculate(i);
      -0.2 <= BreakdownSum(res.breakdown) - res.totalEmissionKg <= 0.2
  {
    var res := Calculate(i);
    var b := res.breakdown;
    var gap := Tenths(b.travel) + Tenths(b.electricity) + Tenths(b.diet) + Tenths(b.flights)
      + Tenths(b.heating) - Tenths(res.totalEmissionKg);
    assert gap as real == (BreakdownSum(b) - res.totalEmissionKg) * 10.0;
    assert -3 < gap < 3;
  }

  /** The diet component is always a whole number of tenths. */
  lemma DietEmissionIsTenth(i: EmissionInput)
    ensures IsTenth(DietEmission(i))
  {
  }

  /** With whole numbers of flights the flights component is exact too, so
      only travel, electricity and heating are rounded and the breakdown
      misses the total by at most one tenth. */
  lemma WholeFlightsSumWithinTenth(i: EmissionInput)
    requires i.flightsShortHaul == i.flightsShortHaul.Floor as real
    requires i.flightsLongHaul == i.flightsLongHaul.Floor as real
    ensures var res := Calculate(i);
      -0.1 <= BreakdownSum(res.breakdown) - res.totalEmissionKg <= 0.1
  {
    var res := Calculate(i);
    var b := res.breakdown;
    DietEmissionIsTenth(i);
    RoundTenthUnique(DietEmission(i), DietEmission(i));
    var s, l := i.flightsShortHaul.Floor, i.flightsLongHaul.Floor;
    assert FlightsEmission(i) * 10.0 == (s * 125 + l * 1500) as real;
    RoundTenthUnique(FlightsEmission(i), FlightsEmission(i));
    var gap := Tenths(b.travel) + Tenths(b.electricity) + Tenths(b.diet) + Tenths(b.flights)
      + Tenths(b.heating) - Tenths(res.totalEmissionKg);
    assert gap as real == (BreakdownSum(b) - res.totalEmissionKg) * 10.0;
    assert -2 < gap < 2;
  }

  /** The two-tenths bound is reached: half a short-haul flight makes the
      flights component 6.25, which rounds up with the three others. */
  lemma BreakdownCanMissTotalByTwoTenths()
    ensures var res := Calculate(EmissionInput(3.0, 2.0, Some("mixed"), 0.5, 0.0, 3.0, Some("petrol")));
      res.breakdown == Breakdown(0.6, 0.5, 135.0, 6.3, 0.6) &&
      res.totalEmissionKg == 142.8 &&
      BreakdownSum(res.breakdown) - res.totalEmissionKg == 0.2
  {
  }

  /** 100 km by petrol car and 300 kWh of electricity on a mixed diet. */
  lemma PetrolCommuterScenario()
    ensures var res := Calculate(EmissionInput(100.0, 300.0, Some("mixed"), 0.0, 0.0, 0.0, Some("petrol")));
      res.breakdown == Breakdown(19.2, 69.9, 135.0, 0.0, 0.0) && res.totalEmissionKg == 224.1
  {
  }

  /** All quantities zero and no diet sent: only the default diet remains. */
  lemma AllZeroScenario()
    ensures var res := Calculate(EmissionInput(0.0, 0.0, None, 0.0, 0.0, 0.0, None));
      res.breakdown == Breakdown(0.0, 0.0, 135.0, 0.0, 0.0) && res.totalEmissionKg == 135.0
  {
  }

  /** 200 km by electric car: 200 * 0.053 = 10.6. */
  lemma ElectricCarScenario(i: EmissionInput)
    requires i.travelKm == 200.0 && i.carType == Some("electric")
    ensures Calculate(i).breakdown.travel == 10.6
  {
  }

  /** Two short-haul and one long-haul flight a year: (300 + 1800) / 12 = 175. */
  lemma FlightsScenario(i: EmissionInput)
    requires i.flightsShortHaul == 2.0 && i.flightsLongHaul == 1.0
    ensures Calculate(i).breakdown.flights == 175.0
  {
  }
}
