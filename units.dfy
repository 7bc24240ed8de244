/**
 * The unit preference: the keywords `set_units` accepts, the menu choices
 * `change_units` maps onto them, and the symbol a report prints.
 */
module Units {
  import opened Text

  const Metric: string := "metric"
  const Imperial: string := "imperial"

  /** The only two values the `units` field takes. */
  predicate IsUnits(u: string) {
    u == Metric || u == Imperial
  }

  const MetricKeywords: seq<string> := ["c", "celsius", "metric"]
  const ImperialKeywords: seq<string> := ["f", "fahrenheit", "imperial"]

  /** The unit system `set_units(keyword)` stores: matched case-insensitively, with an
      unknown keyword falling back to metric. */
  function UnitsFor(keyword: string): (u: string)
    ensures IsUnits(u)
    ensures u == Imperial <==> ToLower(keyword) in ImperialKeywords
  {
    var k := ToLower(keyword);
    if k in MetricKeywords then Metric
    else if k in ImperialKeywords then Imperial
    else Metric
  }

  /** `set_units` recognises `keyword` (and prints no warning). */
  predicate IsUnitKeyword(keyword: string) {
    ToLower(keyword) in MetricKeywords || ToLower(keyword) in ImperialKeywords
  }

  /** A string without upper-case letters is its own lower-case form. */
  lemma ToLowerOfLower(s: string)
    requires forall i | 0 <= i < |s| :: !('A' <= s[i] <= 'Z')
    ensures ToLower(s) == s
  {
  }

  /** Feeding the stored value back to `set_units` stores it again: "metric" and
      "imperial" are keywords themselves. */
  lemma UnitsForFixpoint(keyword: string)
    ensures UnitsFor(UnitsFor(keyword)) == UnitsFor(keyword)
    ensures IsUnitKeyword(UnitsFor(keyword))
  {
    ToLowerOfLower(Metric);
    ToLowerOfLower(Imperial);
  }

  /** Every spelling of the metric keywords selects metric: upper, lower or mixed case. */
  lemma MetricKeywordsSelectMetric(keyword: string)
    requires ToLower(keyword) in MetricKeywords
    ensures UnitsFor(keyword) == Metric
  {
  }

  /** Every spelling of the imperial keywords selects imperial. */
  lemma ImperialKeywordsSelectImperial(keyword: string)
    requires ToLower(keyword) in ImperialKeywords
    ensures UnitsFor(keyword) == Imperial
  {
  }

  /** An unknown keyword selects metric. */
  lemma UnknownKeywordSelectsMetric(keyword: string)
    requires !IsUnitKeyword(keyword)
    ensures UnitsFor(keyword) == Metric
  {
  }

  lemma UnitsSamples()
    ensures UnitsFor("Celsius") == Metric
    ensures UnitsFor("F") == Imperial
    ensures UnitsFor("IMPERIAL") == Imperial
    ensures UnitsFor("kelvin") == Metric
  {
    assert ToLower("Celsius") == "celsius";
    assert ToLower("F") == "f";
    assert ToLower("IMPERIAL") == "imperial";
    ToLowerOfLower("kelvin");
  }

  /** The unit system `change_units` selects for the stripped menu answer: "1" is
      Celsius (metric), "2" Fahrenheit (imperial), and any other answer keeps `current`. */
  function UnitsAfterChoice(current: string, answer: string): (u: string)
    ensures IsUnits(current) ==> IsUnits(u)
  {
    var choice := Strip(answer);
    if choice == "1" then Metric
    else if choice == "2" then Imperial
    else current
  }

  /** `change_units` goes through `set_units("celsius")` and `set_units("fahrenheit")`,
      which store exactly the two unit systems its menu promises. */
  lemma ChoiceKeywords()
    ensures UnitsFor("celsius") == Metric
    ensures UnitsFor("fahrenheit") == Imperial
  {
    ToLowerOfLower("celsius");
    ToLowerOfLower("fahrenheit");
  }

  /** The three cases of `change_units`. */
  lemma UnitsAfterChoiceCases(current: string, answer: string)
    ensures Strip(answer) == "1" ==> UnitsAfterChoice(current, answer) == Metric
    ensures Strip(answer) == "2" ==> UnitsAfterChoice(current, answer) == Imperial
    ensures Strip(answer) != "1" && Strip(answer) != "2" ==> UnitsAfterChoice(current, answer) == current
  {
  }

  /** The temperature symbol of a report: Celsius for metric, Fahrenheit otherwise. */
  function Symbol(units: string): (sym: string)
    ensures sym == "°C" || sym == "°F"
    ensures sym == "°C" <==> units == Metric
  {
    if units == Metric then "°C" else "°F"
  }

  lemma SymbolSamples()
    ensures Symbol(Metric) == "°C" && Symbol(Imperial) == "°F"
  {
  }
}
