/**
 * The `WeatherApp` object: its unit preference and the methods that change it
 * (`set_units`, `change_units`), one weather check (`check_weather`) and the
 * main menu loop (`run`), with the console answers and the server's replies
 * given to them as inputs.
 */
module App {
  import opened Wrappers
  import opened Text
  import opened Location
  import opened Units
  import opened Report

  const BaseUrl: string := "http://api.openweathermap.org/data/2.5/weather"

  /** A request the client issues: what it asks for and its query parameters. */
  datatype Request = Request(query: Query, params: seq<Param>)

  /** What one weather check ends with. */
  datatype CheckResult =
    | InvalidLocation                             // "Invalid input. Please try again."
    | NotRetrieved(request: Request)              // "Could not retrieve weather data. ..."
    | Shown(request: Request, report: Outcome)    // display_weather was called
  {
    /** The unit system the check's request asked for, when it issued one. */
    predicate AskedFor(units: string) {
      !InvalidLocation? ==> |request.params| == 4 && request.params[2] == Param("units", units)
    }

    /** Every temperature the check printed carries `symbol`. */
    predicate PrintedSymbol(symbol: string) {
      Shown? && report.Printed? ==>
        forall l | l in report.lines :: l.Temperature? ==> l.symbol == symbol
    }
  }

  /** `check_weather` with the preference `units`: the answers to the location and
      country prompts, and what the server returned (`None` when the request failed). */
  function CheckOutcome(apiKey: string, units: string, locationLine: string, countryLine: string,
                        fetched: Option<Response>, clock: Clock): (c: CheckResult)
    ensures c.InvalidLocation? <==> IsBlank(locationLine)
    ensures c.AskedFor(units) && c.PrintedSymbol(Symbol(units))
    ensures c.Shown? <==> !IsBlank(locationLine) && fetched.Some? && !IsEmpty(fetched.value)
    ensures c.Shown? ==> c.report == Render(fetched, units, clock)
    ensures !c.InvalidLocation? ==>
              && Some(c.request.query) == PlanQuery(locationLine, countryLine)
              && c.request.params == QueryParams(c.request.query, apiKey, units)
  {
    match PlanQuery(locationLine, countryLine)
    case None => InvalidLocation
    case Some(q) =>
      var request := Request(q, QueryParams(q, apiKey, units));
      if fetched.None? || IsEmpty(fetched.value) then NotRetrieved(request)
      else
        TemperatureSymbol(fetched, units, clock);
        Shown(request, Render(fetched, units, clock))
  }

  /** The main menu's commands. */
  datatype Command = CheckWeather | ChangeUnits | Exit | UnknownChoice

  /** The stripped main-menu answer: "1", "2", "3", anything else. */
  function MenuCommand(line: string): (cmd: Command)
    ensures cmd == CheckWeather <==> Strip(line) == "1"
    ensures cmd == ChangeUnits <==> Strip(line) == "2"
    ensures cmd == Exit <==> Strip(line) == "3"
    ensures cmd == UnknownChoice <==> Strip(line) !in ["1", "2", "3"]
  {
    var choice := Strip(line);
    if choice == "1" then CheckWeather
    else if choice == "2" then ChangeUnits
    else if choice == "3" then Exit
    else UnknownChoice
  }

  /** The console answers and the server reply of one pass through the main menu:
      `choice` to the menu; `answer` to the location prompt (check) or to the unit
      prompt (change units); `country` to the country prompt, read only for a ZIP code;
      `fetched`, the server's reply, used only when a request is issued. */
  datatype Round = Round(choice: string, answer: string, country: string, fetched: Option<Response>)

  /** The preference after one pass through the menu. */
  function StepUnits(units: string, r: Round): (u: string)
    ensures IsUnits(units) ==> IsUnits(u)
    ensures MenuCommand(r.choice) != ChangeUnits ==> u == units
  {
    if MenuCommand(r.choice) == ChangeUnits then UnitsAfterChoice(units, r.answer) else units
  }

  /** The weather check one pass through the menu makes, if it makes one. */
  function StepChecks(apiKey: string, units: string, r: Round, clock: Clock): (cs: seq<CheckResult>)
    ensures |cs| == (if MenuCommand(r.choice) == CheckWeather then 1 else 0)
    ensures UsedUnits(cs, units)
    ensures MenuCommand(r.choice) == CheckWeather ==>
              cs == [CheckOutcome(apiKey, units, r.answer, r.country, r.fetched, clock)]
  {
    if MenuCommand(r.choice) == CheckWeather then
      var c := CheckOutcome(apiKey, units, r.answer, r.country, r.fetched, clock);
      UsedUnitsSingle(c, units);
      [c]
    else []
  }

  lemma UsedUnitsSingle(c: CheckResult, units: string)
    requires c.AskedFor(units) && c.PrintedSymbol(Symbol(units))
    ensures UsedUnits([c], units)
  {
    assert [c][0] == c;
  }

  /** Every check in `cs` asked for `units` and printed only that unit's symbol. */
  predicate UsedUnits(cs: seq<CheckResult>, units: string) {
    forall i | 0 <= i < |cs| :: cs[i].AskedFor(units) && cs[i].PrintedSymbol(Symbol(units))
  }

  lemma UsedUnitsConcat(a: seq<CheckResult>, b: seq<CheckResult>, units: string)
    requires UsedUnits(a, units) && UsedUnits(b, units)
    ensures UsedUnits(a + b, units)
  {
    forall i | 0 <= i < |a + b|
      ensures (a + b)[i].AskedFor(units) && (a + b)[i].PrintedSymbol(Symbol(units))
    {
      if i >= |a| { assert (a + b)[i] == b[i - |a|]; }
    }
  }

  /** Where a session ends: the preference, the checks in order, the rounds read. */
  datatype SessionEnd = SessionEnd(units: string, checks: seq<CheckResult>, consumed: nat)

  /** `run` over the passes `rounds`, starting from the preference `units`: it stops at
      "3" or when the passes run out (the user interrupts). */
  function Session(apiKey: string, units: string, rounds: seq<Round>, clock: Clock): (e: SessionEnd)
    ensures e.consumed <= |rounds|
    decreases |rounds|
  {
    if rounds == [] then SessionEnd(units, [], 0)
    else if MenuCommand(rounds[0].choice) == Exit then SessionEnd(units, [], 1)
    else
      var rest := Session(apiKey, StepUnits(units, rounds[0]), rounds[1..], clock);
      SessionEnd(rest.units, StepChecks(apiKey, units, rounds[0], clock) + rest.checks, rest.consumed + 1)
  }

  /** One pass that is not "3" moves the session on by that pass. */
  lemma SessionAdvance(apiKey: string, units: string, rounds: seq<Round>, i: nat, clock: Clock)
    requires i < |rounds| && MenuCommand(rounds[i].choice) != Exit
    ensures var here := Session(apiKey, units, rounds[i..], clock);
      var next := Session(apiKey, StepUnits(units, rounds[i]), rounds[i + 1..], clock);
      && here.units == next.units
      && here.checks == StepChecks(apiKey, units, rounds[i], clock) + next.checks
      && here.consumed == next.consumed + 1
  {
    assert rounds[i..][0] == rounds[i] && rounds[i..][1..] == rounds[i + 1..];
  }

  /** A pass that is "3" ends the session there. */
  lemma SessionStops(apiKey: string, units: string, rounds: seq<Round>, i: nat, clock: Clock)
    requires i < |rounds| && MenuCommand(rounds[i].choice) == Exit
    ensures Session(apiKey, units, rounds[i..], clock) == SessionEnd(units, [], 1)
  {
    assert rounds[i..][0] == rounds[i];
  }

  /** A session that has already done `checks` in its first `i` passes, with `units`
      in effect now, reaches `goal` once the remaining passes are run. */
  ghost predicate Resumes(goal: SessionEnd, apiKey: string, units: string, rounds: seq<Round>, i: nat,
                          checks: seq<CheckResult>, clock: Clock)
    requires i <= |rounds|
  {
    var rest := Session(apiKey, units, rounds[i..], clock);
    goal == SessionEnd(rest.units, checks + rest.checks, i + rest.consumed)
  }

  lemma ResumesAtStart(apiKey: string, units: string, rounds: seq<Round>, clock: Clock)
    ensures Resumes(Session(apiKey, units, rounds, clock), apiKey, units, rounds, 0, [], clock)
  {
    assert rounds[0..] == rounds;
    var goal := Session(apiKey, units, rounds, clock);
    assert [] + goal.checks == goal.checks;
  }

  /** One more pass keeps a resumable session resumable, or ends it on "3". */
  lemma ResumesStep(goal: SessionEnd, apiKey: string, units: string, rounds: seq<Round>, i: nat,
                    checks: seq<CheckResult>, found: seq<CheckResult>, clock: Clock)
    requires i < |rounds| && Resumes(goal, apiKey, units, rounds, i, checks, clock)
    requires found == StepChecks(apiKey, units, rounds[i], clock)
    ensures MenuCommand(rounds[i].choice) == Exit ==> goal == SessionEnd(units, checks + found, i + 1)
    ensures MenuCommand(rounds[i].choice) != Exit ==>
      Resumes(goal, apiKey, StepUnits(units, rounds[i]), rounds, i + 1, checks + found, clock)
  {
    if MenuCommand(rounds[i].choice) == Exit {
      SessionStops(apiKey, units, rounds, i, clock);
    } else {
      var here := Session(apiKey, units, rounds[i..], clock);
      var next := Session(apiKey, StepUnits(units, rounds[i]), rounds[i + 1..], clock);
      SessionAdvance(apiKey, units, rounds, i, clock);
      ConcatAssoc(checks, found, next.checks);
      assert goal == SessionEnd(next.units, (checks + found) + next.checks, (i + 1) + next.consumed);
    }
  }

  lemma ConcatAssoc(a: seq<CheckResult>, b: seq<CheckResult>, c: seq<CheckResult>)
    ensures a + (b + c) == (a + b) + c
  {
  }

  lemma ResumesAtEnd(goal: SessionEnd, apiKey: string, units: string, rounds: seq<Round>, i: nat,
                     checks: seq<CheckResult>, clock: Clock)
    requires i == |rounds| && Resumes(goal, apiKey, units, rounds, i, checks, clock)
    ensures goal == SessionEnd(units, checks, i)
  {
    assert rounds[i..] == [];
  }

  /** A valid preference stays valid through any session. */
  lemma {:induction false} SessionKeepsUnits(apiKey: string, units: string, rounds: seq<Round>, clock: Clock)
    requires IsUnits(units)
    ensures IsUnits(Session(apiKey, units, rounds, clock).units)
    decreases |rounds|
  {
    if rounds != [] && MenuCommand(rounds[0].choice) != Exit {
      SessionKeepsUnits(apiKey, StepUnits(units, rounds[0]), rounds[1..], clock);
    }
  }

  /** Choosing "3" ends the session at once: nothing is checked, nothing changes. */
  lemma ExitEndsSession(apiKey: string, units: string, rounds: seq<Round>, clock: Clock)
    requires rounds != [] && MenuCommand(rounds[0].choice) == Exit
    ensures Session(apiKey, units, rounds, clock) == SessionEnd(units, [], 1)
  {
  }

  /** A pass that leaves the units alone: it is not "2", or it is "2" and the answer to
      the unit menu is neither "1" nor "2" ("Keeping current units."). */
  predicate KeepsUnits(r: Round) {
    MenuCommand(r.choice) != ChangeUnits || (Strip(r.answer) != "1" && Strip(r.answer) != "2")
  }

  lemma KeepsUnitsStep(units: string, r: Round)
    requires KeepsUnits(r)
    ensures StepUnits(units, r) == units
  {
    UnitsAfterChoiceCases(units, r.answer);
  }

  /** No pass changes the units. */
  predicate NoUnitChange(rounds: seq<Round>) {
    forall i | 0 <= i < |rounds| :: KeepsUnits(rounds[i])
  }

  /** Without a "change units" pass the preference stays as it was, and every request
      and every printed temperature uses it. */
  lemma {:induction false} UnitsStayWithoutChange(apiKey: string, units: string, rounds: seq<Round>, clock: Clock)
    requires NoUnitChange(rounds)
    ensures Session(apiKey, units, rounds, clock).units == units
    ensures UsedUnits(Session(apiKey, units, rounds, clock).checks, units)
    decreases |rounds|
  {
    if rounds != [] && MenuCommand(rounds[0].choice) != Exit {
      assert NoUnitChange(rounds[1..]) by {
        assert forall i | 0 <= i < |rounds[1..]| :: rounds[1..][i] == rounds[i + 1];
      }
      KeepsUnitsStep(units, rounds[0]);
      UnitsStayWithoutChange(apiKey, units, rounds[1..], clock);
      var here := StepChecks(apiKey, units, rounds[0], clock);
      var rest := Session(apiKey, units, rounds[1..], clock);
      assert Session(apiKey, units, rounds, clock).checks == here + rest.checks;
      UsedUnitsConcat(here, rest.checks, units);
    }
  }

  /** After choosing Fahrenheit, every request asks for imperial units and every
      temperature shows "°F", until the units are changed again. */
  lemma FahrenheitSticks(apiKey: string, units: string, rounds: seq<Round>, k: nat, clock: Clock)
    requires 1 <= k <= |rounds| && MenuCommand(rounds[0].choice) == ChangeUnits && Strip(rounds[0].answer) == "2"
    requires NoUnitChange(rounds[1..k])
    ensures var upTo := Session(apiKey, units, rounds[..k], clock);
      && upTo.units == Imperial
      && UsedUnits(upTo.checks, Imperial)
      && upTo.checks <= Session(apiKey, units, rounds, clock).checks
    ensures Symbol(Imperial) == "°F"
  {
    var prefix := rounds[..k];
    assert prefix[0] == rounds[0] && prefix[1..] == rounds[1..k];
    UnitsStayWithoutChange(apiKey, Imperial, prefix[1..], clock);
    SessionPrefix(apiKey, units, rounds, k, clock);
  }

  /** The checks of the first `k` passes come first among the checks of the whole session. */
  lemma {:induction false} SessionPrefix(apiKey: string, units: string, rounds: seq<Round>, k: nat, clock: Clock)
    requires k <= |rounds|
    ensures Session(apiKey, units, rounds[..k], clock).checks <= Session(apiKey, units, rounds, clock).checks
    decreases k
  {
    if k > 0 && MenuCommand(rounds[0].choice) != Exit {
      var prefix := rounds[..k];
      assert prefix[0] == rounds[0] && prefix[1..] == rounds[1..][..k - 1];
      var u := StepUnits(units, rounds[0]);
      SessionPrefix(apiKey, u, rounds[1..], k - 1, clock);
      SessionCons(apiKey, units, prefix, clock);
      SessionCons(apiKey, units, rounds, clock);
      PrefixConcat(StepChecks(apiKey, units, rounds[0], clock),
                   Session(apiKey, u, prefix[1..], clock).checks, Session(apiKey, u, rounds[1..], clock).checks);
    }
  }

  lemma SessionCons(apiKey: string, units: string, rounds: seq<Round>, clock: Clock)
    requires rounds != [] && MenuCommand(rounds[0].choice) != Exit
    ensures Session(apiKey, units, rounds, clock).checks ==
            StepChecks(apiKey, units, rounds[0], clock) + Session(apiKey, StepUnits(units, rounds[0]), rounds[1..], clock).checks
  {
  }

  lemma PrefixConcat(a: seq<CheckResult>, b: seq<CheckResult>, c: seq<CheckResult>)
    requires b <= c
    ensures a + b <= a + c
  {
    assert (a + c)[..|a + b|] == a + b;
  }

  /** The object `WeatherApp(api_key)`. */
  class WeatherApp {
    const apiKey: string
    const baseUrl: string
    var units: string

    /** The preference is one of the two unit systems. */
    ghost predicate Valid()
      reads this
    {
      IsUnits(units)
    }

    constructor (apiKey: string)
      ensures this.apiKey == apiKey && baseUrl == BaseUrl
      ensures units == Metric && Valid()
    {
      this.apiKey := apiKey;
      baseUrl := BaseUrl;
      units := Metric;
    }

    /** `set_units(keyword)`; `recognized` is false when it prints the
        "Invalid unit. Using Celsius (metric) by default." warning. */
    method SetUnits(keyword: string) returns (recognized: bool)
      modifies this
      ensures units == UnitsFor(keyword) && Valid()
      ensures recognized == IsUnitKeyword(keyword)
    {
      var k := ToLower(keyword);
      if k in MetricKeywords {
        units := Metric;
        recognized := true;
      } else if k in ImperialKeywords {
        units := Imperial;
        recognized := true;
      } else {
        units := Metric;
        recognized := false;
      }
    }

    /** `change_units` with the answer to its prompt; an answer other than "1" or "2"
        keeps the current units. `changed` is false when it prints "Keeping current units." */
    method ChangeUnits(answer: string) returns (changed: bool)
      modifies this
      ensures units == UnitsAfterChoice(old(units), answer)
      ensures changed <==> Strip(answer) == "1" || Strip(answer) == "2"
      ensures old(Valid()) ==> Valid()
    {
      var choice := Strip(answer);
      ChoiceKeywords();
      if choice == "1" {
        var _ := SetUnits("celsius");
        changed := true;
      } else if choice == "2" {
        var _ := SetUnits("fahrenheit");
        changed := true;
      } else {
        changed := false;
      }
    }

    /** The temperature symbol this object's reports print. */
    function UnitSymbol(): (sym: string)
      reads this
      ensures sym == "°C" <==> units == Metric
      ensures Valid() ==> (sym == "°F" <==> units == Imperial)
    {
      SymbolSamples();
      Symbol(units)
    }

    /** `check_weather` with the answers to its prompts and the server's reply. */
    method CheckWeather(locationLine: string, countryLine: string, fetched: Option<Response>,
                        clock: Clock) returns (result: CheckResult)
      ensures result == CheckOutcome(apiKey, units, locationLine, countryLine, fetched, clock)
    {
      var location := Strip(locationLine);
      var verdict := ValidateInput(location);
      if verdict.Rejected? {
        return InvalidLocation;
      }
      var query: Query;
      if verdict.kind == Zip {
        query := ByZip(location, CountryOrDefault(countryLine));
      } else {
        query := ByCity(location);
      }
      var request := Request(query, QueryParams(query, apiKey, units));
      if fetched.Some? && !IsEmpty(fetched.value) {
        result := Shown(request, Render(fetched, units, clock));
      } else {
        result := NotRetrieved(request);
      }
    }

    /** One pass of `run`'s loop: read the menu answer and carry out the command;
        `stop` is true when the answer is "3". */
    method Step(r: Round, clock: Clock) returns (found: seq<CheckResult>, stop: bool)
      modifies this
      ensures units == StepUnits(old(units), r)
      ensures found == StepChecks(apiKey, old(units), r, clock)
      ensures stop <==> MenuCommand(r.choice) == Exit
    {
      found, stop := [], false;
      match MenuCommand(r.choice) {
        case CheckWeather =>
          var c := CheckWeather(r.answer, r.country, r.fetched, clock);
          found := [c];
        case ChangeUnits =>
          var _ := ChangeUnits(r.answer);
        case Exit =>
          stop := true;
        case UnknownChoice =>
      }
    }

    /** `run`: one pass through the main menu per round, until "3" or until the rounds
        run out; every other answer, an unknown one included, returns to the menu. */
    method Run(rounds: seq<Round>, clock: Clock) returns (checks: seq<CheckResult>, consumed: nat)
      modifies this
      ensures var e := Session(apiKey, old(units), rounds, clock);
        units == e.units && checks == e.checks && consumed == e.consumed
      ensures old(Valid()) ==> Valid()
    {
      ghost var goal := Session(apiKey, units, rounds, clock);
      ghost var wasValid := Valid();
      checks, consumed := [], 0;
      var done := false;
      ResumesAtStart(apiKey, units, rounds, clock);
      while !done && consumed < |rounds|
        invariant consumed <= |rounds|
        invariant wasValid ==> Valid()
        invariant done ==> goal == SessionEnd(units, checks, consumed)
        invariant !done ==> Resumes(goal, apiKey, units, rounds, consumed, checks, clock)
        decreases |rounds| - consumed
      {
        ghost var before := units;
        var found, stop := Step(rounds[consumed], clock);
        ResumesStep(goal, apiKey, before, rounds, consumed, checks, found, clock);
        checks := checks + found;
        consumed := consumed + 1;
        done := stop;
      }
      if !done {
        ResumesAtEnd(goal, apiKey, units, rounds, consumed, checks, clock);
      }
    }
  }
}
