/**
 * The indicator vocabulary of the population page: the option a user
 * selects, and the World Bank indicator code the request is made for.
 */
module Indicators {
  import opened Wrappers

  const PopulationCode := "SP.POP.TOTL"
  const GrowthRateCode := "SP.POP.GROW"
  const LifeExpectancyCode := "SP.DYN.LE00.IN"
  const DensityCode := "EN.POP.DNST"

  /** The options the page offers; `Codes[i]` is the code `Options[i]` stands for. */
  const Options: seq<string> := ["Population", "Growth Rate", "Life Expectancy", "Population Density"]
  const Codes: seq<string> := [PopulationCode, GrowthRateCode, LifeExpectancyCode, DensityCode]

  /**
   * The `switch` on the selected option. Every option yields a code of the
   * vocabulary: a listed option its own code, any other option the
   * total-population code.
   */
  function IndicatorCode(selected: string): (code: string)
    ensures code in Codes
    ensures forall i :: 0 <= i < |Options| && Options[i] == selected ==> code == Codes[i]
    ensures selected !in Options ==> code == PopulationCode
  {
    if selected == "Population" then PopulationCode
    else if selected == "Growth Rate" then GrowthRateCode
    else if selected == "Life Expectancy" then LifeExpectancyCode
    else if selected == "Population Density" then DensityCode
    else PopulationCode
  }

  /** The option a code of the vocabulary is selected by, if any. */
  function OptionOf(code: string): (selected: Option<string>)
    ensures selected.Some? <==> code in Codes
    ensures selected.Some? ==> selected.value in Options
  {
    if code == PopulationCode then Some("Population")
    else if code == GrowthRateCode then Some("Growth Rate")
    else if code == LifeExpectancyCode then Some("Life Expectancy")
    else if code == DensityCode then Some("Population Density")
    else None
  }

  /** The mapping is one-to-one on the vocabulary: each listed option is recovered from its code. */
  lemma OptionRoundTrip(selected: string)
    requires selected in Options
    ensures OptionOf(IndicatorCode(selected)) == Some(selected)
  {
  }

  /** Every code of the vocabulary is reached by the option listed for it. */
  lemma CodeRoundTrip(code: string)
    requires code in Codes
    ensures OptionOf(code).Some? && IndicatorCode(OptionOf(code).value) == code
  {
  }

  /** An unknown option is not an error: it asks for total population, as "Population" does. */
  lemma UnknownOptionFallsBack(selected: string)
    requires selected !in Options
    ensures IndicatorCode(selected) == IndicatorCode("Population") == PopulationCode
  {
  }
}
