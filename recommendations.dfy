/** getRecommendations: three threshold rules, applied in a fixed order to
    the raw request body, whose outputs are concatenated and cut to the
    first three. */
module Recommendations {
  import opened Wrappers
  import opened EmissionFactors
  import opened EmissionCalculator

  /** The six fixed recommendation texts. */
  datatype Template = PublicTransport | SwitchVehicle | EfficientAppliances | SolarPanels | ReduceMeat | PlantBased
  {
    function Title(): string
    {
      match this
      case PublicTransport => "Consider using public transportation"
      case SwitchVehicle => "Switch to a hybrid or electric vehicle"
      case EfficientAppliances => "Switch to energy-efficient appliances"
      case SolarPanels => "Consider installing solar panels"
      case ReduceMeat => "Reduce meat consumption"
      case PlantBased => "Try plant-based alternatives"
    }

    function Description(): string
    {
      match this
      case PublicTransport =>
        "Using public transport for your regular commute could significantly reduce your carbon footprint."
      case SwitchVehicle =>
        "Electric vehicles produce significantly lower emissions, especially if charged with renewable energy."
      case EfficientAppliances =>
        "Upgrading to energy-efficient appliances can reduce your electricity consumption by 20-30%."
      case SolarPanels =>
        "Solar panels can offset a significant portion of your electricity-related carbon emissions."
      case ReduceMeat | PlantBased =>
        "Reducing meat consumption, especially beef, can significantly lower your carbon footprint."
    }

    function Category(): string
    {
      match this
      case PublicTransport | SwitchVehicle => "travel"
      case EfficientAppliances | SolarPanels => "electricity"
      case ReduceMeat | PlantBased => "diet"
    }
  }

  /** A recommendation record: the title, description and category of its
      template, and the yearly saving it promises in kg CO2e. */
  datatype Recommendation = Recommendation(template: Template, potentialSavingsKg: int)
  {
    function Title(): string { template.Title() }
    function Description(): string { template.Description() }
    function Category(): string { template.Category() }
  }

  /** Titles tell the templates apart, so a recommendation is known by its title. */
  lemma TitlesDistinct(a: Template, b: Template)
    ensures a.Title() == b.Title() ==> a == b
  {
  }

  /** km * 0.1 * 52: a tenth of the distance, every week of the year. */
  function PublicTransportTip(km: real): Recommendation
  {
    Recommendation(PublicTransport, RoundInt(km * 0.1 * 52.0))
  }

  /** The yearly saving of driving the same distance electrically. */
  function SwitchVehicleTip(km: real, c: CarType): Recommendation
  {
    Recommendation(SwitchVehicle, RoundInt(km * (CarFactor(c) - CarFactor(Electric)) * 52.0))
  }

  /** A quarter of the electricity, every month of the year. */
  function AppliancesTip(kwh: real): Recommendation
  {
    Recommendation(EfficientAppliances, RoundInt(kwh * 0.25 * ElectricityFactor * 12.0))
  }

  /** 70% of the electricity, every month of the year. */
  function SolarTip(kwh: real): Recommendation
  {
    Recommendation(SolarPanels, RoundInt(kwh * 0.7 * ElectricityFactor * 12.0))
  }

  /** The yearly saving of the diet over a vegetarian one. */
  function DietTip(d: Diet): Recommendation
  {
    Recommendation(if d == HighMeat then ReduceMeat else PlantBased,
      RoundInt((DietFactor(d) - DietFactor(Vegetarian)) * 365.0))
  }

  /** The raw carType is exactly "petrol" or "diesel". */
  predicate DrivesCombustionCar(i: EmissionInput)
  {
    i.carType == Some("petrol") || i.carType == Some("diesel")
  }

  predicate TravelRuleFires(i: EmissionInput)
  {
    i.travelKm > 50.0 && DrivesCombustionCar(i)
  }

  predicate ElectricityRuleFires(i: EmissionInput)
  {
    i.electricityKwh > 250.0
  }

  /** The raw diet is exactly "high-meat" or "mixed". */
  predicate DietRuleFires(i: EmissionInput)
  {
    i.diet == Some("high-meat") || i.diet == Some("mixed")
  }

  function TravelRule(i: EmissionInput): seq<Recommendation>
  {
    if TravelRuleFires(i) then
      [PublicTransportTip(i.travelKm), SwitchVehicleTip(i.travelKm, if i.carType == Some("petrol") then Petrol else Diesel)]
    else []
  }

  function ElectricityRule(i: EmissionInput): seq<Recommendation>
  {
    if ElectricityRuleFires(i) then [AppliancesTip(i.electricityKwh), SolarTip(i.electricityKwh)] else []
  }

  function DietRule(i: EmissionInput): seq<Recommendation>
  {
    if DietRuleFires(i) then [DietTip(if i.diet == Some("high-meat") then HighMeat else Mixed)] else []
  }

  /** Every rule's output, in rule order. */
  function Candidates(i: EmissionInput): seq<Recommendation>
  {
    TravelRule(i) + ElectricityRule(i) + DietRule(i)
  }

  /** The first three candidates (all of them when there are fewer). */
  function Recommend(i: EmissionInput): (r: seq<Recommendation>)
    ensures |r| <= 3 && |r| <= |Candidates(i)|
    ensures |r| == 3 || r == Candidates(i)
    ensures r == Candidates(i)[..|r|]
  {
    var c := Candidates(i);
    if |c| <= 3 then c else c[..3]
  }

  /** getRecommendations(inputs, results): pushes each rule's tips onto a
      list, then keeps the first three. The second argument is never read. */
  method GetRecommendations(inputs: EmissionInput, results: Breakdown) returns (top: seq<Recommendation>)
    ensures top == Recommend(inputs)
  {
    var recommendations: seq<Recommendation> := [];

    if inputs.travelKm > 50.0 {
      if inputs.carType == Some("petrol") || inputs.carType == Some("diesel") {
        var car := CarLookup(inputs.carType.value);
        recommendations := recommendations + [Recommendation(PublicTransport, RoundInt(inputs.travelKm * 0.1 * 52.0))];
        recommendations := recommendations + [Recommendation(SwitchVehicle,
          RoundInt(inputs.travelKm * (CarFactor(car.value) - CarFactor(Electric)) * 52.0))];
      }
    }

    if inputs.electricityKwh > 250.0 {
      recommendations := recommendations + [Recommendation(EfficientAppliances,
        RoundInt(inputs.electricityKwh * 0.25 * ElectricityFactor * 12.0))];
      recommendations := recommendations + [Recommendation(SolarPanels,
        RoundInt(inputs.electricityKwh * 0.7 * ElectricityFactor * 12.0))];
    }

    if inputs.diet == Some("high-meat") || inputs.diet == Some("mixed") {
      var diet := DietLookup(inputs.diet.value);
      recommendations := recommendations + [Recommendation(
        if inputs.diet == Some("high-meat") then ReduceMeat else PlantBased,
        RoundInt((DietFactor(diet.value) - DietFactor(Vegetarian)) * 365.0))];
    }

    top := if |recommendations| <= 3 then recommendations else recommendations[..3];
  }

  predicate Has(r: seq<Recommendation>, t: Template)
  {
    exists j :: 0 <= j < |r| && r[j].template == t
  }

  /** Travel tips come first, so both survive the cut whenever the rule
      fires; they are the first two entries, with their yearly savings. */
  lemma TravelTips(i: EmissionInput)
    ensures Has(Recommend(i), PublicTransport) <==> TravelRuleFires(i)
    ensures Has(Recommend(i), SwitchVehicle) <==> TravelRuleFires(i)
    ensures TravelRuleFires(i) ==>
      var r := Recommend(i);
      var factor := if i.carType == Some("petrol") then 0.192 else 0.171;
      |r| >= 2 && r[0].template == PublicTransport && r[1].template == SwitchVehicle &&
      r[0].potentialSavingsKg == RoundInt(i.travelKm * 5.2) &&
      r[1].potentialSavingsKg == RoundInt(i.travelKm * (factor - 0.053) * 52.0)
  {
    var r := Recommend(i);
    var t, e, d := TravelRule(i), ElectricityRule(i), DietRule(i);
    assert Candidates(i) == t + e + d;
    if TravelRuleFires(i) {
      assert r[0] == t[0] && r[1] == t[1];
    } else {
      assert t == [];
      forall j | 0 <= j < |r|
        ensures r[j].template != PublicTransport && r[j].template != SwitchVehicle
      {
        assert r[j] in e + d;
      }
    }
  }

  /** The appliance tip is always kept when the electricity rule fires; the
      solar tip only when the travel rule did not fire too. */
  lemma ElectricityTips(i: EmissionInput)
    ensures Has(Recommend(i), EfficientAppliances) <==> ElectricityRuleFires(i)
    ensures Has(Recommend(i), SolarPanels) <==> ElectricityRuleFires(i) && !TravelRuleFires(i)
    ensures ElectricityRuleFires(i) ==>
      var r := Recommend(i);
      var k := if TravelRuleFires(i) then 2 else 0;
      |r| > k && r[k].template == EfficientAppliances &&
      r[k].potentialSavingsKg == RoundInt(i.electricityKwh * 0.25 * 0.233 * 12.0)
    ensures ElectricityRuleFires(i) && !TravelRuleFires(i) ==>
      var r := Recommend(i);
      |r| >= 2 && r[1].template == SolarPanels &&
      r[1].potentialSavingsKg == RoundInt(i.electricityKwh * 0.7 * 0.233 * 12.0)
  {
    var r := Recommend(i);
    var t, e, d := TravelRule(i), ElectricityRule(i), DietRule(i);
    assert Candidates(i) == t + e + d;
    if ElectricityRuleFires(i) {
      if TravelRuleFires(i) {
        assert r[2] == e[0];
        forall j | 0 <= j < |r| ensures r[j].template != SolarPanels {
          assert j < 2 ==> r[j] == t[j];
        }
      } else {
        assert r[0] == e[0] && r[1] == e[1];
      }
    } else {
      assert e == [];
      forall j | 0 <= j < |r|
        ensures r[j].template != EfficientAppliances && r[j].template != SolarPanels
      {
        assert r[j] in t + d;
      }
    }
  }

  /** The diet tip is kept when its rule fires unless travel and electricity
      both fired; it is the last entry and its template and saving depend on
      which diet was sent: (7.3 - 2.5) or (4.5 - 2.5) kg for 365 days. */
  lemma DietTipKept(i: EmissionInput)
    ensures Has(Recommend(i), ReduceMeat) <==>
      i.diet == Some("high-meat") && !(TravelRuleFires(i) && ElectricityRuleFires(i))
    ensures Has(Recommend(i), PlantBased) <==>
      i.diet == Some("mixed") && !(TravelRuleFires(i) && ElectricityRuleFires(i))
    ensures DietRuleFires(i) && !(TravelRuleFires(i) && ElectricityRuleFires(i)) ==>
      var r := Recommend(i);
      |r| >= 1 && r[|r| - 1].Category() == "diet" &&
      r[|r| - 1].potentialSavingsKg == (if i.diet == Some("high-meat") then 1752 else 730)
  {
    var r := Recommend(i);
    var t, e, d := TravelRule(i), ElectricityRule(i), DietRule(i);
    assert Candidates(i) == t + e + d;
    if DietRuleFires(i) && !(TravelRuleFires(i) && ElectricityRuleFires(i)) {
      assert r == t + e + d;
      assert r[|r| - 1] == d[0];
      forall j | 0 <= j < |r| - 1
        ensures r[j].template != ReduceMeat && r[j].template != PlantBased
      {
        assert r[j] in t + e;
      }
    } else {
      forall j | 0 <= j < |r|
        ensures r[j].template != ReduceMeat && r[j].template != PlantBased
      {
        assert |t + e| >= 3 ==> j < |t + e|;
        assert r[j] in t + e;
      }
    }
  }

  /** When travel and electricity both fire, the solar and diet tips are
      cut: the result is exactly the two travel tips and the appliance tip. */
  lemma BothRulesCrowdOutTheRest(i: EmissionInput)
    requires TravelRuleFires(i) && ElectricityRuleFires(i)
    ensures Recommend(i) == TravelRule(i) + [AppliancesTip(i.electricityKwh)]
  {
  }

  /** Every tip that is emitted promises a positive yearly saving: each rule
      only fires on a positive quantity, and each factor difference it uses
      is positive. */
  lemma SavingsPositive(i: EmissionInput)
    ensures forall r :: r in Recommend(i) ==> r.potentialSavingsKg > 0
  {
  }

  /** An absent carType gets no travel tip, although the calculation
      charged the distance at the petrol factor. */
  lemma MissingCarTypeGetsNoTravelTip(i: EmissionInput)
    requires i.carType.None?
    ensures TravelEmission(i) == i.travelKm * CarFactor(Petrol)
    ensures forall r :: r in Recommend(i) ==> r.Category() != "travel"
  {
  }

  /** An absent diet gets no diet tip, although the calculation charged
      the mixed diet. */
  lemma MissingDietGetsNoDietTip(i: EmissionInput)
    requires i.diet.None?
    ensures DietEmission(i) == DietFactor(Mixed) * 30.0
    ensures forall r :: r in Recommend(i) ==> r.Category() != "diet"
  {
  }

  /** 100 km by petrol car, 300 kWh, mixed diet: both travel tips and the
      appliance tip; the solar and diet tips are cut. */
  lemma PetrolCommuterTips()
    ensures Recommend(EmissionInput(100.0, 300.0, Some("mixed"), 0.0, 0.0, 0.0, Some("petrol")))
      == [Recommendation(PublicTransport, 520), Recommendation(SwitchVehicle, 723),
          Recommendation(EfficientAppliances, 210)]
  {
  }

  /** All quantities zero: no tip without a diet; one plant-based tip (730 kg)
      when "mixed" is sent. */
  lemma AllZeroTips()
    ensures Recommend(EmissionInput(0.0, 0.0, None, 0.0, 0.0, 0.0, None)) == []
    ensures Recommend(EmissionInput(0.0, 0.0, Some("mixed"), 0.0, 0.0, 0.0, Some("petrol")))
      == [Recommendation(PlantBased, 730)]
  {
  }

  /** An electric car gets no travel tip, however far it is driven. */
  lemma ElectricCarGetsNoTravelTip(i: EmissionInput)
    requires i.carType == Some("electric")
    ensures !Has(Recommend(i), SwitchVehicle) && !Has(Recommend(i), PublicTransport)
  {
  }
}
