/** The constant table of emission factors the controller reads
    (EMISSION_FACTORS): kg CO2e per unit of each activity. */
module EmissionFactors {
  import opened Wrappers

  datatype CarType = Petrol | Diesel | Hybrid | Electric

  datatype Diet = Vegan | Vegetarian | Mixed | HighMeat

  /** kg CO2e per km driven */
  function CarFactor(c: CarType): real
  {
    match c
    case Petrol => 0.192
    case Diesel => 0.171
    case Hybrid => 0.106
    case Electric => 0.053
  }

  /** kg CO2e per flight */
  const ShortHaulFactor: real := 150.0
  const LongHaulFactor: real := 1800.0

  /** kg CO2e per kWh */
  const ElectricityFactor: real := 0.233
  const NaturalGasFactor: real := 0.184

  /** kg CO2e per day */
  function DietFactor(d: Diet): real
  {
    match d
    case Vegan => 1.5
    case Vegetarian => 2.5
    case Mixed => 4.5
    case HighMeat => 7.3
  }

  /** The property name under which the table stores each car factor. */
  function CarKey(c: CarType): string
  {
    match c
    case Petrol => "petrol"
    case Diesel => "diesel"
    case Hybrid => "hybrid"
    case Electric => "electric"
  }

  /** The property name under which the table stores each diet factor. */
  function DietKey(d: Diet): string
  {
    match d
    case Vegan => "vegan"
    case Vegetarian => "vegetarian"
    case Mixed => "mixed"
    case HighMeat => "high-meat"
  }

  /** Property access `EMISSION_FACTORS.car[key]`: a car type, or None
      (JavaScript's undefined) for any other key. */
  function CarLookup(key: string): (r: Option<CarType>)
    ensures r.Some? ==> CarKey(r.value) == key
  {
    if key == "petrol" then Some(Petrol)
    else if key == "diesel" then Some(Diesel)
    else if key == "hybrid" then Some(Hybrid)
    else if key == "electric" then Some(Electric)
    else None
  }

  /** Property access `EMISSION_FACTORS.diet[key]`. */
  function DietLookup(key: string): (r: Option<Diet>)
    ensures r.Some? ==> DietKey(r.value) == key
  {
    if key == "vegan" then Some(Vegan)
    else if key == "vegetarian" then Some(Vegetarian)
    else if key == "mixed" then Some(Mixed)
    else if key == "high-meat" then Some(HighMeat)
    else None
  }

  /** Every car type is found under its own key. */
  lemma CarKeyRoundTrip(c: CarType)
    ensures CarLookup(CarKey(c)) == Some(c)
  {
  }

  /** Every diet is found under its own key. */
  lemma DietKeyRoundTrip(d: Diet)
    ensures DietLookup(DietKey(d)) == Some(d)
  {
  }

  /** No factor is zero, so `factor || default` only falls back on a
      missing key, never on a stored value. */
  lemma FactorsPositive(c: CarType, d: Diet)
    ensures CarFactor(c) > 0.0 && DietFactor(d) > 0.0
    ensures ShortHaulFactor > 0.0 && LongHaulFactor > 0.0
    ensures ElectricityFactor > 0.0 && NaturalGasFactor > 0.0
  {
  }

  /** The electric car has the smallest car factor and the vegetarian diet
      is below the mixed and high-meat diets: the savings the
      recommendations quote are differences that are never negative. */
  lemma FactorOrdering(c: CarType)
    ensures CarFactor(Electric) <= CarFactor(c)
    ensures DietFactor(Vegetarian) < DietFactor(Mixed) < DietFactor(HighMeat)
  {
  }
}
