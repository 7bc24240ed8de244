/**
 * Deciding what a typed location is (`WeatherApp.validate_input`), which request
 * `check_weather` issues for it, and the query parameters of that request
 * (`get_weather_by_city`, `get_weather_by_zip`).
 */
module Location {
  import opened Wrappers
  import opened Text

  /** The two kinds of location the client searches by. */
  datatype Kind = Zip | City

  /** `validate_input`'s pair: `(False, message)` or `(True, "zip" | "city")`. */
  datatype Verdict = Rejected(message: string) | Accepted(kind: Kind)

  const EmptyInputMessage: string := "Input cannot be empty."

  /** `input_str.replace("-", "")` is a digit string of length at least 5. */
  predicate LooksLikeZip(s: string) {
    var clean := RemoveHyphens(s);
    AllDigits(clean) && |clean| >= 5
  }

  /** `validate_input`: rejects blank input, then tells a ZIP code from a city name. */
  function ValidateInput(s: string): (v: Verdict)
    ensures v.Rejected? <==> IsBlank(s)
    ensures v.Rejected? ==> v.message == EmptyInputMessage
    ensures v == Accepted(Zip) ==> DigitsAndHyphens(s) && CountDigits(s) >= 5
  {
    if IsBlank(s) then Rejected(EmptyInputMessage)
    else if LooksLikeZip(s) then
      RemoveHyphensAllDigits(s);
      Accepted(Zip)
    else Accepted(City)
  }

  /** A location is a ZIP code exactly when it consists of digits and hyphens only and
      holds at least five digits; every other non-blank location is a city name. */
  lemma ZipIff(s: string)
    requires !IsBlank(s)
    ensures ValidateInput(s) == Accepted(Zip) <==> DigitsAndHyphens(s) && CountDigits(s) >= 5
    ensures ValidateInput(s) == Accepted(City) <==> !(DigitsAndHyphens(s) && CountDigits(s) >= 5)
  {
    RemoveHyphensAllDigits(s);
  }

  /** A digit string shorter than five characters is a city name. */
  lemma ShortDigitsAreCity(s: string)
    requires AllDigits(s) && |s| < 5
    ensures ValidateInput(s) == Accepted(City)
  {
    assert !IsSpace(s[0]);
    assert CountDigits(s) <= |s| by { CountDigitsBound(s); }
    ZipIff(s);
  }

  /** A non-empty string of hyphens is a city name: nothing is left after removing them. */
  lemma HyphensAreCity(s: string)
    requires |s| > 0 && forall i | 0 <= i < |s| :: s[i] == '-'
    ensures ValidateInput(s) == Accepted(City)
  {
    assert !IsSpace(s[0]);
    HyphensHaveNoDigits(s);
    ZipIff(s);
  }

  lemma {:induction false} CountDigitsBound(s: string)
    ensures CountDigits(s) <= |s|
  {
    if s != [] { CountDigitsBound(s[1..]); }
  }

  lemma {:induction false} HyphensHaveNoDigits(s: string)
    requires forall i | 0 <= i < |s| :: s[i] == '-'
    ensures CountDigits(s) == 0
  {
    if s != [] {
      assert forall i | 0 <= i < |s[1..]| :: s[1..][i] == s[i + 1];
      HyphensHaveNoDigits(s[1..]);
    }
  }

  lemma SampleBlank()
    ensures ValidateInput("") == Rejected(EmptyInputMessage)
    ensures ValidateInput(" \t ") == Rejected(EmptyInputMessage)
  {
  }

  lemma SampleZip()
    ensures ValidateInput("10001") == Accepted(Zip)
  {
    assert !IsBlank("10001") by { assert !IsSpace("10001"[0]); }
    assert DigitsAndHyphens("10001") && CountDigits("10001") == 5;
    ZipIff("10001");
  }

  lemma SampleHyphenatedZip()
    ensures ValidateInput("12-345") == Accepted(Zip)
  {
    assert !IsBlank("12-345") by { assert !IsSpace("12-345"[0]); }
    assert DigitsAndHyphens("12-345") && CountDigits("12-345") == 5;
    ZipIff("12-345");
  }

  lemma SampleCity()
    ensures ValidateInput("1234") == Accepted(City)
    ensures ValidateInput("New York") == Accepted(City)
  {
    ShortDigitsAreCity("1234");
    assert !IsSpace("New York"[0]);
    assert !DigitsAndHyphens("New York") by { assert !IsDigit("New York"[0]); }
    ZipIff("New York");
  }

  /** The request a query stands for: by city name, or by ZIP code and country. */
  datatype Query = ByCity(name: string) | ByZip(code: string, country: string)

  const DefaultCountry: string := "US"

  /** The country prompt's answer, stripped; an empty answer means "US". */
  function CountryOrDefault(answer: string): (c: string)
    ensures c == DefaultCountry <==> IsBlank(answer) || Strip(answer) == DefaultCountry
    ensures c != [] && !IsSpace(c[0])
    ensures !IsBlank(answer) ==> c == Strip(answer)
  {
    var c := Strip(answer);
    if c == "" then
      assert DefaultCountry[0] == 'U';
      DefaultCountry
    else c
  }

  /** `check_weather`'s decision: the location line is stripped and validated; a blank
      one issues no request, a ZIP code asks for a country, anything else is a city. */
  function PlanQuery(locationLine: string, countryLine: string): (q: Option<Query>)
    ensures q.None? <==> IsBlank(locationLine)
    ensures q.Some? ==> (q.value.ByZip? <==> ValidateInput(Strip(locationLine)) == Accepted(Zip))
    ensures q.Some? && q.value.ByCity? ==> q.value.name == Strip(locationLine)
    ensures q.Some? && q.value.ByZip? ==>
            q.value.code == Strip(locationLine) && q.value.country == CountryOrDefault(countryLine)
  {
    var location := Strip(locationLine);
    match ValidateInput(location)
    case Rejected(_) => None
    case Accepted(Zip) => Some(ByZip(location, CountryOrDefault(countryLine)))
    case Accepted(City) => Some(ByCity(location))
  }

  /** One `key=value` query parameter of the HTTP request. */
  datatype Param = Param(key: string, value: string)

  /** The `zip` parameter's value, `<code>,<country>`. */
  function ZipValue(code: string, country: string): string {
    code + "," + country
  }

  /** The text before the first comma of `s` and the text after it (all of `s` and
      nothing when there is no comma). */
  function SplitAtComma(s: string): (parts: (string, string))
    ensures ',' !in parts.0
    ensures ',' in s ==> s == parts.0 + "," + parts.1
    ensures ',' !in s ==> parts == (s, "")
  {
    if s == [] then ("", "")
    else if s[0] == ',' then ("", s[1..])
    else
      var rest := SplitAtComma(s[1..]);
      assert s == [s[0]] + s[1..];
      ([s[0]] + rest.0, rest.1)
  }

  /** The `zip` parameter of a classified ZIP code splits back into the code and the
      country, since a ZIP code holds no comma. */
  lemma ZipValueSplits(location: string, country: string)
    requires ValidateInput(location) == Accepted(Zip)
    ensures SplitAtComma(ZipValue(location, country)) == (location, country)
  {
    assert forall i | 0 <= i < |location| :: location[i] != ',';
    SplitOfJoin(location, country);
  }

  /** Joining two texts with a comma and splitting at the first comma gives them back
      when the first holds no comma. */
  lemma {:induction false} SplitOfJoin(a: string, b: string)
    requires ',' !in a
    ensures SplitAtComma(a + "," + b) == (a, b)
  {
    var v := a + "," + b;
    if a == [] {
      assert v[0] == ',' && v[1..] == b;
    } else {
      assert v[0] == a[0];
      assert v[1..] == a[1..] + "," + b;
      SplitOfJoin(a[1..], b);
      assert a == [a[0]] + a[1..];
    }
  }

  /** The query parameters of the request: the location selector, the API key, the
      unit system and the fixed language `en`, in that order. */
  function QueryParams(q: Query, apiKey: string, units: string): (ps: seq<Param>)
    ensures |ps| == 4
    ensures ps[0].key == (if q.ByCity? then "q" else "zip")
    ensures ps[0].value == (if q.ByCity? then q.name else ZipValue(q.code, q.country))
    ensures ps[1..] == [Param("appid", apiKey), Param("units", units), Param("lang", "en")]
  {
    var selector := match q
      case ByCity(name) => Param("q", name)
      case ByZip(code, country) => Param("zip", ZipValue(code, country));
    [selector, Param("appid", apiKey), Param("units", units), Param("lang", "en")]
  }

  lemma ZipStripSample()
    ensures Strip("10001") == "10001"
  {
    StripKeepsTrimmed("10001");
  }

  /** End-to-end: "10001" with no country answer is a ZIP query for the US. */
  lemma ZipQuerySample()
    ensures PlanQuery("10001", "") == Some(ByZip("10001", "US"))
  {
    ZipStripSample();
    SampleZip();
  }

  /** ... and its request carries `zip=10001,US`. */
  lemma ZipParamSample(apiKey: string, units: string)
    ensures QueryParams(ByZip("10001", "US"), apiKey, units)[0] == Param("zip", "10001,US")
  {
  }

  lemma CityStripSample()
    ensures Strip("New York") == "New York"
  {
    StripKeepsTrimmed("New York");
  }

  /** End-to-end: "New York" is a city query, whatever the country answer. */
  lemma CityQuerySample()
    ensures PlanQuery("New York", "UK") == Some(ByCity("New York"))
  {
    CityStripSample();
    SampleCity();
  }

  /** ... and its request carries `q=New York`. */
  lemma CityParamSample(apiKey: string, units: string)
    ensures QueryParams(ByCity("New York"), apiKey, units)[0] == Param("q", "New York")
  {
  }
}
