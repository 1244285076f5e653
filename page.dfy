/**
 * The pure parts of the browser script: the guard that trims the typed city and
 * refuses an empty one, the capitalised name shown on the card, and the icon
 * chosen for a description.
 */
module Page {
  import opened Wrappers
  import opened Text
  import Service
  import Controller
  import Upstream

  const EmptyCityMessage: string := "Vänligen ange en stad"

  /** searchWeather's guard: the trimmed city to request, or the error shown when nothing is left. */
  function CityToSend(input: string): Result<string, string> {
    var city := Trim(input);
    if city == [] then Err(EmptyCityMessage) else Ok(city)
  }

  /** The guard refuses exactly the all-whitespace inputs, and what it sends has no whitespace at either end. */
  lemma CityToSendGuard(input: string)
    ensures CityToSend(input).Err? <==> forall i :: 0 <= i < |input| ==> IsJsWhitespace(input[i])
    ensures CityToSend(input).Err? ==> CityToSend(input).error == EmptyCityMessage
    ensures CityToSend(input).Ok? ==>
      var city := CityToSend(input).value;
      && city == Trim(input)
      && !IsJsWhitespace(city[0]) && !IsJsWhitespace(city[|city| - 1])
  {
    TrimEmptyIff(input);
  }

  /**
   * A city the page sends passes the controller's blank check unless it starts with
   * one of the separator controls U+001C..U+001F, which Kotlin counts as whitespace
   * and JavaScript's trim does not.
   */
  lemma SentCityReachesService(input: string)
    requires CityToSend(input).Ok?
    requires !('\U{1C}' <= CityToSend(input).value[0] <= '\U{1F}')
    ensures !Controller.IsNullOrBlank(Some(CityToSend(input).value))
  {
    var city := CityToSend(input).value;
    assert !IsKotlinWhitespace(city[0]);
  }

  /** The exception: a lone U+001F survives the page's guard and the controller answers 400. */
  lemma SeparatorCityRejected()
    ensures CityToSend("\U{1F}") == Ok("\U{1F}")
    ensures Controller.Respond(Some(CityToSend("\U{1F}").value), Err(Upstream.OtherError(""))).status == Some(400)
  {
    var s := "\U{1F}";
    assert !IsJsWhitespace(s[0]);
    assert SkipBlanks(s, 0) == 0;
    assert SkipBlanksBack(s, 0, 1) == 1;
    assert Trim(s) == s[0..1] == s;
  }

  /** cityName: the first character upper-cased, the rest lower-cased. */
  function DisplayName(city: string): (r: string)
    ensures |r| == |city|
  {
    if city == [] then [] else [UpperChar(city[0])] + Lower(city[1..])
  }

  /** Capitalising a capitalised name changes nothing. */
  lemma DisplayNameIdempotent(city: string)
    ensures DisplayName(DisplayName(city)) == DisplayName(city)
  {
    if city != [] {
      CaseRoundTrip(city[0]);
      LowerIdempotent(city[1..]);
      assert DisplayName(city)[1..] == Lower(city[1..]);
    }
  }

  /** The displayed name and the trimmed city the page sends share one cache key on the server. */
  lemma DisplayNameSharesCacheKey(city: string)
    ensures Service.CacheKey(DisplayName(city)) == Service.CacheKey(city)
  {
    if city != [] {
      CaseRoundTrip(city[0]);
      LowerIdempotent(city[1..]);
      var shown := DisplayName(city);
      forall i | 0 <= i < |city| ensures Lower(shown)[i] == Lower(city)[i] {
        if i > 0 {
          assert shown[i] == Lower(city[1..])[i - 1];
          CaseRoundTrip(city[i]);
        }
      }
    }
  }

  const DefaultIcon: string := "fa-solid fa-cloud"

  /** getWeatherIconClass: the if/else chain of the script. */
  function IconClass(description: string): string {
    if description == "Klar himmel" then "fa-solid fa-sun"
    else if description == "Mestadels klart" || description == "Delvis molnigt" then "fa-solid fa-cloud-sun"
    else if description == "Molnigt" then "fa-solid fa-cloud"
    else if description == "Regn" || description == "Snöblandat regn" then "fa-solid fa-cloud-rain"
    else if description == "Snö" then "fa-solid fa-snowflake"
    else if description == "Åska" then "fa-solid fa-cloud-bolt"
    else if description == "Dimma" then "fa-solid fa-smog"
    else DefaultIcon
  }

  /** The icon per description, as a table. */
  const IconTable: map<string, string> := map[
    "Klar himmel" := "fa-solid fa-sun",
    "Mestadels klart" := "fa-solid fa-cloud-sun",
    "Delvis molnigt" := "fa-solid fa-cloud-sun",
    "Molnigt" := "fa-solid fa-cloud",
    "Regn" := "fa-solid fa-cloud-rain",
    "Snöblandat regn" := "fa-solid fa-cloud-rain",
    "Snö" := "fa-solid fa-snowflake",
    "Åska" := "fa-solid fa-cloud-bolt",
    "Dimma" := "fa-solid fa-smog"
  ]

  /** The chain is a table lookup with the plain cloud for anything not in the table. */
  lemma IconClassIsTableLookup(description: string)
    ensures IconClass(description) == if description in IconTable then IconTable[description] else DefaultIcon
  {
  }

  /** Every description the server's classifier can give has its own entry; the unknown-weather text falls back. */
  lemma ClassifierLabelsHaveIcons()
    ensures forall i :: 0 <= i < |Service.Rules| ==> Service.Rules[i].1 in IconTable
    ensures Service.UnknownWeather !in IconTable && IconClass(Service.UnknownWeather) == DefaultIcon
  {
  }

  /** Composed with the classifier: the sun icon is shown exactly for symbol codes containing "clearsky". */
  lemma SunIconIffClearsky(symbol: string)
    ensures IconClass(Service.Describe(symbol)) == "fa-solid fa-sun" <==> Contains(symbol, "clearsky")
  {
  }

  /** Composed with the classifier: a symbol matching no rule is shown with the plain cloud. */
  lemma UnmatchedSymbolIcon(symbol: string)
    requires forall i :: 0 <= i < |Service.Rules| ==> !Contains(symbol, Service.Rules[i].0)
    ensures IconClass(Service.Describe(symbol)) == DefaultIcon
  {
    Service.DescribeUnknownIff(symbol);
  }
}
