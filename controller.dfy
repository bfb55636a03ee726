/** The pure part of the calculateEmissions handler: the record it saves
    and returns, without the user, the date and the stored inputs. */
module EmissionController {
  import opened EmissionCalculator
  import opened Recommendations

  datatype Emission = Emission(totalEmissionKg: real, breakdown: Breakdown, recommendations: seq<Recommendation>)

  /** Computes the results from the defaulted fields, and the
      recommendations from the raw body with the breakdown passed along. */
  method CalculateEmissions(body: EmissionInput) returns (emission: Emission)
    ensures Results(emission.totalEmissionKg, emission.breakdown) == Calculate(body)
    ensures emission.recommendations == Recommend(body)
  {
    var results := Calculate(body);
    var recommendations := GetRecommendations(body, results.breakdown);
    emission := Emission(results.totalEmissionKg, results.breakdown, recommendations);
  }
}
