/** The fare formula: a base fare plus a rate per kilometre and a rate per minute. */
module Pricing {

  /** The three pricing constants, in US dollars. */
  datatype Rates = Rates(baseFare: real, perKm: real, perMinute: real)

  /** The compiled-in constants: 2.00 base, 0.50 per km, 0.20 per minute. */
  const SourceRates: Rates := Rates(2.00, 0.50, 0.20)

  predicate NonNegativeRates(rates: Rates) {
    rates.baseFare >= 0.0 && rates.perKm >= 0.0 && rates.perMinute >= 0.0
  }

  /** The unrounded estimated cost of a ride with the given totals. */
  function CalculateCost(rates: Rates, totalKm: real, totalMinutes: real): real
  {
    rates.baseFare + totalKm * rates.perKm + totalMinutes * rates.perMinute
  }

  /** With non-negative totals and rates the cost never falls below the base fare. */
  lemma CostAtLeastBaseFare(rates: Rates, totalKm: real, totalMinutes: real)
    requires NonNegativeRates(rates)
    requires totalKm >= 0.0 && totalMinutes >= 0.0
    ensures CalculateCost(rates, totalKm, totalMinutes) >= rates.baseFare
  {
    assert totalKm * rates.perKm >= 0.0;
    assert totalMinutes * rates.perMinute >= 0.0;
  }

  /** A ride with no distance and no time costs exactly the base fare. */
  lemma EmptyRideCostsBaseFare(rates: Rates)
    ensures CalculateCost(rates, 0.0, 0.0) == rates.baseFare
  {
  }

  /** The cost is monotone in each total when the rates are non-negative. */
  lemma CostMonotone(rates: Rates, km1: real, minutes1: real, km2: real, minutes2: real)
    requires NonNegativeRates(rates)
    requires km1 <= km2 && minutes1 <= minutes2
    ensures CalculateCost(rates, km1, minutes1) <= CalculateCost(rates, km2, minutes2)
  {
    assert (km2 - km1) * rates.perKm >= 0.0;
    assert (minutes2 - minutes1) * rates.perMinute >= 0.0;
  }

  /** The formula is affine: pricing two parts of a ride separately charges the base fare once too often. */
  lemma CostIsAffine(rates: Rates, km1: real, minutes1: real, km2: real, minutes2: real)
    ensures CalculateCost(rates, km1 + km2, minutes1 + minutes2) + rates.baseFare
            == CalculateCost(rates, km1, minutes1) + CalculateCost(rates, km2, minutes2)
  {
    assert (km1 + km2) * rates.perKm == km1 * rates.perKm + km2 * rates.perKm;
    assert (minutes1 + minutes2) * rates.perMinute == minutes1 * rates.perMinute + minutes2 * rates.perMinute;
  }

  /** With the compiled-in rates, 15 km and 25 minutes cost 14.50. */
  lemma SourceRatesExample()
    ensures NonNegativeRates(SourceRates)
    ensures CalculateCost(SourceRates, 15.0, 25.0) == 14.50
  {
  }
}
