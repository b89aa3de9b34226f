/**
 * The weather bot's command dispatcher, as a pure transition: a state (the
 * notification log and the running flag) and one input line give the next
 * state together with the ordered trace of what the bot printed and which
 * weather queries it sent.
 */
module WeatherBot {
  import opened Wrappers
  import opened Text
  import opened Notifications
  import opened WeatherService

  datatype State = State(log: Log, running: bool)

  /** A request sent to the weather service. */
  datatype Query = ByCity(city: string) | ByCoordinates(latitude: real, longitude: real)

  /** One observable step of handling a line, in the order it happens. */
  datatype Effect =
    | Echo(n: Notification)       // a notification printed as it is recorded
    | Fetch(q: Query)             // a request to the weather service
    | Print(report: Report)       // a weather report printed
    | Listing(rows: seq<string>)  // the notification history printed
    | HelpText                    // the fixed command reference printed
    | Banner                      // the fixed welcome banner printed

  datatype Transition = Transition(after: State, effects: seq<Effect>)

  /** What the bot cannot compute itself: the weather client's two queries,
      and the conversion of a coordinate token to a number, which may reject
      the token. */
  datatype Env = Env(
    byCity: string -> WeatherData,
    byCoordinates: (real, real) -> WeatherData,
    parseNumber: string -> Option<real>)

  /** The bot wired to a weather client. */
  function Connect(c: Client, parseNumber: string -> Option<real>): (env: Env)
    ensures forall name :: env.byCity(name) == GetWeatherByCity(c, name)
    ensures forall lat, lon :: env.byCoordinates(lat, lon) == GetWeatherByCoordinates(c, lat, lon)
  {
    Env(name => GetWeatherByCity(c, name), (lat, lon) => GetWeatherByCoordinates(c, lat, lon), parseNumber)
  }

  /** The handlers a verb can select. */
  datatype Command = Weather | Location | Help | History | Clear | Exit | Unknown

  const CityUsage: string := "Please provide a city name. Usage: weather <city>"
  const CoordinateUsage: string := "Please provide latitude and longitude. Usage: location <lat> <lon>"
  const Retrieved: string := "Weather data retrieved successfully!"
  const CityFailed: string := "Failed to retrieve weather data. Please check the city name and try again."
  const FetchingCoordinates: string := "Fetching weather data for coordinates..."
  const CoordinateFailed: string := "Failed to retrieve weather data for the given coordinates."
  const InvalidCoordinates: string := "Invalid coordinates. Please provide valid latitude and longitude."
  const Farewell: string := "Thank you for using Weather Bot! Goodbye!"
  const UnknownCommand: string := "Unknown command. Type 'help' to see available commands."
  const Welcome: string := "Welcome! Type 'help' to see available commands."
  const Freezing: string := "Freezing temperatures!"
  const Hot: string := "Very hot weather!"
  const Windy: string := "Strong winds detected!"

  /** Alert thresholds, in degrees Celsius and metres per second. */
  const FreezingBelow: real := 0.0
  const HotAbove: real := 35.0
  const WindyAbove: real := 15.0

  function FetchingCity(city: string): string {
    "Fetching weather data for " + city + "..."
  }

  /** Maps a lower-cased verb to its handler. */
  const Aliases: map<string, Command> := map[
    "weather" := Weather, "w" := Weather,
    "location" := Location, "loc" := Location,
    "help" := Help, "h" := Help,
    "notifications" := History, "notif" := History,
    "clear" := Clear,
    "exit" := Exit, "quit" := Exit, "q" := Exit]

  function Classify(verb: string): Command {
    if verb in Aliases then Aliases[verb] else Unknown
  }

  function Idle(s: State): Transition {
    Transition(s, [])
  }

  function Then(t: Transition, e: Effect): Transition {
    Transition(t.after, t.effects + [e])
  }

  /** Takes `log'` as the new log and prints its newest entry. */
  function Record(t: Transition, log': Log): Transition
    requires log' != []
  {
    Transition(State(log', t.after.running), t.effects + [Echo(log'[|log'| - 1])])
  }

  /** One printed notification per entry. */
  function EchoAll(ns: seq<Notification>): (es: seq<Effect>)
    ensures |es| == |ns|
    ensures forall i :: 0 <= i < |ns| ==> es[i] == Echo(ns[i])
  {
    seq(|ns|, i requires 0 <= i < |ns| => Echo(ns[i]))
  }

  /** Records and prints one notification. */
  function Notify(t: Transition, message: string, severity: Severity): (r: Transition)
    ensures r.after == State(t.after.log + [Notification(message, severity)], t.after.running)
    ensures r.effects == t.effects + [Echo(Notification(message, severity))]
  {
    var log' := ShowNotification(t.after.log, message, severity);
    assert log' == t.after.log + [Notification(message, severity)];
    Record(t, log')
  }

  /** The notification a weather alert records. */
  function AlertFor(city: string, condition: string): Notification {
    Notification(AlertMessage(city, condition), Warning)
  }

  /** Records and prints one weather alert. */
  function Alert(t: Transition, city: string, condition: string): (r: Transition)
    ensures r.after == State(t.after.log + [AlertFor(city, condition)], t.after.running)
    ensures r.effects == t.effects + [Echo(AlertFor(city, condition))]
  {
    var log' := ShowWeatherAlert(t.after.log, city, condition);
    assert log' == t.after.log + [AlertFor(city, condition)];
    Record(t, log')
  }

  /** The temperature condition a valid result is alerted about, if any:
      freezing is tested first, so at most one of the two is raised. */
  function TemperatureCondition(d: WeatherData): Option<string> {
    if d.temperature < FreezingBelow then Some(Freezing)
    else if d.temperature > HotAbove then Some(Hot)
    else None
  }

  /** The wind condition a valid result is alerted about, if any. */
  function WindCondition(d: WeatherData): Option<string> {
    if d.windSpeed > WindyAbove then Some(Windy) else None
  }

  function AlertsFor(city: string, condition: Option<string>): seq<Notification> {
    if condition.Some? then [AlertFor(city, condition.value)] else []
  }

  /** The alerts a valid result raises, in the order they are raised; they
      name the city the service reported, not the one the user typed. */
  function Alerts(d: WeatherData): seq<Notification> {
    AlertsFor(d.city, TemperatureCondition(d)) + AlertsFor(d.city, WindCondition(d))
  }

  /** Records and prints an alert when there is a condition to report. */
  function AlertIf(t: Transition, city: string, condition: Option<string>): (r: Transition)
    ensures r.after == State(t.after.log + AlertsFor(city, condition), t.after.running)
    ensures r.effects == t.effects + EchoAll(AlertsFor(city, condition))
  {
    if condition.Some? then
      assert EchoAll([AlertFor(city, condition.value)]) == [Echo(AlertFor(city, condition.value))];
      Alert(t, city, condition.value)
    else
      assert t.after.log + [] == t.after.log;
      assert t.effects + EchoAll([]) == t.effects;
      t
  }

  /** Records and prints the alerts for `d`. */
  function RaiseAlerts(t: Transition, d: WeatherData): (r: Transition)
    ensures r.after == State(t.after.log + Alerts(d), t.after.running)
    ensures r.effects == t.effects + EchoAll(Alerts(d))
  {
    var heat := AlertsFor(d.city, TemperatureCondition(d));
    var wind := AlertsFor(d.city, WindCondition(d));
    assert t.after.log + heat + wind == t.after.log + Alerts(d);
    assert EchoAll(heat + wind) == EchoAll(heat) + EchoAll(wind);
    assert t.effects + EchoAll(heat) + EchoAll(wind) == t.effects + EchoAll(Alerts(d));
    AlertIf(AlertIf(t, d.city, TemperatureCondition(d)), d.city, WindCondition(d))
  }

  /** Prints the report of a valid result, records the success and raises
      the alerts. */
  function Succeeded(t: Transition, d: WeatherData): (r: Transition)
    ensures r.after == State(t.after.log + ([Notification(Retrieved, Success)] + Alerts(d)), t.after.running)
    ensures r.effects == t.effects + ([Print(FormatWeatherReport(d)), Echo(Notification(Retrieved, Success))]
                                      + EchoAll(Alerts(d)))
  {
    var reported := Notify(Then(t, Print(FormatWeatherReport(d))), Retrieved, Success);
    var success := Notification(Retrieved, Success);
    assert t.after.log + [success] + Alerts(d) == t.after.log + ([success] + Alerts(d));
    assert t.effects + [Print(FormatWeatherReport(d))] + [Echo(success)] + EchoAll(Alerts(d))
        == t.effects + ([Print(FormatWeatherReport(d)), Echo(success)] + EchoAll(Alerts(d)));
    RaiseAlerts(reported, d)
  }

  /** `handleWeatherQuery`: announces the query, asks the client, prints the
      report and the outcome, then raises the temperature and wind alerts. */
  function HandleWeatherQuery(s: State, city: string, env: Env): (t: Transition)
    ensures t.effects != []
  {
    if city == "" then Notify(Idle(s), CityUsage, Warning)
    else
      var asked := Then(Notify(Idle(s), FetchingCity(city), Info), Fetch(ByCity(city)));
      var d := env.byCity(city);
      if d.isValid then Succeeded(asked, d)
      else Notify(asked, CityFailed, Error)
  }

  /** `handleLocationQuery`: both tokens must convert to numbers before
      anything is announced or asked; no alerts on this path. */
  function HandleLocationQuery(s: State, lat: string, lon: string, env: Env): (t: Transition)
    ensures t.effects != []
  {
    match (env.parseNumber(lat), env.parseNumber(lon))
    case (Some(latitude), Some(longitude)) =>
      var asked := Then(Notify(Idle(s), FetchingCoordinates, Info), Fetch(ByCoordinates(latitude, longitude)));
      var d := env.byCoordinates(latitude, longitude);
      if d.isValid then Notify(Then(asked, Print(FormatWeatherReport(d))), Retrieved, Success)
      else Notify(asked, CoordinateFailed, Error)
    case _ => Notify(Idle(s), InvalidCoordinates, Error)
  }

  /** `handleExitCommand`: says goodbye and stops the loop. */
  function HandleExitCommand(s: State): (t: Transition)
    ensures t.effects != []
  {
    var said := Notify(Idle(s), Farewell, Info);
    Transition(said.after.(running := false), said.effects)
  }

  /** The lower-cased first token, or "" when there is none. */
  function VerbWord(tokens: seq<string>): string {
    if tokens == [] then "" else Lower(tokens[0])
  }

  /** The tokens after the first. */
  function Arguments(tokens: seq<string>): seq<string> {
    if tokens == [] then [] else tokens[1..]
  }

  /** The handler for a command with its argument tokens. A weather query
      needs one argument and takes them all as the city; a coordinate query
      needs two and ignores any further ones. */
  function Route(s: State, command: Command, args: seq<string>, env: Env): (t: Transition)
    ensures t.effects != []
  {
    match command
    case Weather =>
      if |args| < 1 then Notify(Idle(s), CityUsage, Warning)
      else HandleWeatherQuery(s, Join(args), env)
    case Location =>
      if |args| < 2 then Notify(Idle(s), CoordinateUsage, Warning)
      else HandleLocationQuery(s, args[0], args[1], env)
    case Help => Then(Idle(s), HelpText)
    case History => Then(Idle(s), Listing(Render(s.log)))
    case Clear => Record(Idle(s), ClearNotifications(s.log))
    case Exit => HandleExitCommand(s)
    case Unknown => Notify(Idle(s), UnknownCommand, Warning)
  }

  /** Dispatch on the tokens of a non-blank line. */
  function Dispatch(s: State, tokens: seq<string>, env: Env): (t: Transition)
    ensures t.effects != []
  {
    Route(s, Classify(VerbWord(tokens)), Arguments(tokens), env)
  }

  /** `processCommand`: a line that is blank once trimmed does nothing;
      any other line is split into tokens and dispatched on its verb. */
  function ProcessCommand(s: State, line: string, env: Env): Transition {
    var trimmed := Trim(line);
    if trimmed == "" then Idle(s) else Dispatch(s, Tokens(trimmed), env)
  }

  // ---------------------------------------------------------------------
  // Reading a line and a trace

  /** The handler a line selects; a line without tokens selects none. */
  function Verb(line: string): Command {
    Classify(VerbWord(Tokens(line)))
  }

  /** The tokens after the verb. */
  function Args(line: string): seq<string> {
    Arguments(Tokens(line))
  }

  /** The notifications a trace printed as they were recorded, in order. */
  function Echoes(es: seq<Effect>): seq<Notification>
    decreases |es|
  {
    if es == [] then []
    else Echoes(es[..|es| - 1]) + (if es[|es| - 1].Echo? then [es[|es| - 1].n] else [])
  }

  /** The weather queries a trace sent, in order. */
  function Fetches(es: seq<Effect>): seq<Query>
    decreases |es|
  {
    if es == [] then []
    else Fetches(es[..|es| - 1]) + (if es[|es| - 1].Fetch? then [es[|es| - 1].q] else [])
  }

  lemma {:induction false} FiltersDistribute(a: seq<Effect>, b: seq<Effect>)
    ensures Echoes(a + b) == Echoes(a) + Echoes(b)
    ensures Fetches(a + b) == Fetches(a) + Fetches(b)
    decreases |b|
  {
    if b == [] {
      assert a + b == a;
    } else {
      var b' := b[..|b| - 1];
      assert (a + b)[..|a + b| - 1] == a + b';
      FiltersDistribute(a, b');
    }
  }

  // ---------------------------------------------------------------------
  // Properties of one command

  /** Trimming before splitting is invisible: a line that is not blank is
      dispatched on its own tokens. */
  lemma DispatchesOwnTokens(s: State, line: string, env: Env)
    requires !AllTrim(line)
    ensures ProcessCommand(s, line, env) == Route(s, Verb(line), Args(line), env)
  {
    TokensOfTrim(line);
  }

  /** A line is ignored, with nothing printed, nothing sent and the state
      unchanged, exactly when it is blank after trimming. */
  lemma BlankLineIsIgnored(s: State, line: string, env: Env)
    ensures ProcessCommand(s, line, env).effects == [] <==> AllTrim(line)
    ensures AllTrim(line) ==> ProcessCommand(s, line, env).after == s
  {
    if !AllTrim(line) {
      DispatchesOwnTokens(s, line, env);
    }
  }

  // ---------------------------------------------------------------------
  // Filtering explicit traces

  lemma FiltersOfOne(e: Effect)
    ensures Echoes([e]) == (if e.Echo? then [e.n] else [])
    ensures Fetches([e]) == (if e.Fetch? then [e.q] else [])
  {
    assert [e][..0] == [];
  }

  lemma {:induction false} FiltersOfEchoAll(ns: seq<Notification>)
    ensures Echoes(EchoAll(ns)) == ns
    ensures Fetches(EchoAll(ns)) == []
    decreases |ns|
  {
    if ns != [] {
      var es := EchoAll(ns);
      assert es[..|es| - 1] == EchoAll(ns[..|ns| - 1]);
      FiltersOfEchoAll(ns[..|ns| - 1]);
      assert ns == ns[..|ns| - 1] + [ns[|ns| - 1]];
    }
  }

  /** The filters of one effect followed by more. */
  lemma FiltersOfCons(e: Effect, rest: seq<Effect>)
    ensures Echoes([e] + rest) == Echoes([e]) + Echoes(rest)
    ensures Fetches([e] + rest) == Fetches([e]) + Fetches(rest)
  {
    FiltersDistribute([e], rest);
  }

  // ---------------------------------------------------------------------
  // What each handler branch appends and asks

  /** The trace of a handler that records one notification and stops. */
  lemma NotifyAlone(s: State, message: string, severity: Severity)
    ensures var t := Notify(Idle(s), message, severity);
            && t.after == State(s.log + [Notification(message, severity)], s.running)
            && Echoes(t.effects) == [Notification(message, severity)]
            && Fetches(t.effects) == []
  {
    FiltersOfOne(Echo(Notification(message, severity)));
  }

  /** A trace of exactly one printed notification. */
  lemma OneNotice(es: seq<Effect>, n: Notification)
    requires es == [Echo(n)]
    ensures Echoes(es) == [n] && Fetches(es) == []
  {
    FiltersOfOne(Echo(n));
  }

  lemma WeatherSucceeds(s: State, city: string, env: Env)
    requires city != "" && env.byCity(city).isValid
    ensures var t := HandleWeatherQuery(s, city, env);
            var d := env.byCity(city);
            var fetching := Notification(FetchingCity(city), Info);
            var success := Notification(Retrieved, Success);
            && t.after == State(s.log + [fetching] + ([success] + Alerts(d)), s.running)
            && t.effects == [Echo(fetching), Fetch(ByCity(city))]
                            + ([Print(FormatWeatherReport(d)), Echo(success)] + EchoAll(Alerts(d)))
  {
    var fetching := Notification(FetchingCity(city), Info);
    var d := env.byCity(city);
    var asked := Then(Notify(Idle(s), FetchingCity(city), Info), Fetch(ByCity(city)));
    assert HandleWeatherQuery(s, city, env) == Succeeded(asked, d);
    assert asked.after == State(s.log + [fetching], s.running);
    assert asked.effects == [Echo(fetching), Fetch(ByCity(city))];
  }

  lemma WeatherFails(s: State, city: string, env: Env)
    requires city != "" && !env.byCity(city).isValid
    ensures var t := HandleWeatherQuery(s, city, env);
            var added := [Notification(FetchingCity(city), Info), Notification(CityFailed, Error)];
            && t.after == State(s.log + added, s.running)
            && t.effects == [Echo(added[0]), Fetch(ByCity(city)), Echo(added[1])]
  {
  }

  lemma LocationSucceeds(s: State, lat: string, lon: string, env: Env)
    requires env.parseNumber(lat).Some? && env.parseNumber(lon).Some?
    requires env.byCoordinates(env.parseNumber(lat).value, env.parseNumber(lon).value).isValid
    ensures var t := HandleLocationQuery(s, lat, lon, env);
            var q := ByCoordinates(env.parseNumber(lat).value, env.parseNumber(lon).value);
            var d := env.byCoordinates(q.latitude, q.longitude);
            var added := [Notification(FetchingCoordinates, Info), Notification(Retrieved, Success)];
            && t.after == State(s.log + added, s.running)
            && t.effects == [Echo(added[0]), Fetch(q), Print(FormatWeatherReport(d)), Echo(added[1])]
  {
  }

  lemma LocationFails(s: State, lat: string, lon: string, env: Env)
    requires env.parseNumber(lat).Some? && env.parseNumber(lon).Some?
    requires !env.byCoordinates(env.parseNumber(lat).value, env.parseNumber(lon).value).isValid
    ensures var t := HandleLocationQuery(s, lat, lon, env);
            var q := ByCoordinates(env.parseNumber(lat).value, env.parseNumber(lon).value);
            var added := [Notification(FetchingCoordinates, Info), Notification(CoordinateFailed, Error)];
            && t.after == State(s.log + added, s.running)
            && t.effects == [Echo(added[0]), Fetch(q), Echo(added[1])]
  {
  }

  lemma LocationRejected(s: State, lat: string, lon: string, env: Env)
    requires env.parseNumber(lat).None? || env.parseNumber(lon).None?
    ensures HandleLocationQuery(s, lat, lon, env) == Notify(Idle(s), InvalidCoordinates, Error)
  {
  }

  // ---------------------------------------------------------------------
  // Routing a line to its handler

  lemma HasTokensIsNotBlank(line: string)
    requires Tokens(line) != []
    ensures !AllTrim(line)
  {
    if AllTrim(line) {
      TrimCharsAreSpaces(line);
      TokensOfSpaces(line);
    }
  }

  /** Every recognised verb comes from a token, so its line is not blank. */
  lemma VerbNeedsToken(line: string)
    requires Verb(line) != Unknown
    ensures !AllTrim(line)
  {
    HasTokensIsNotBlank(line);
  }

  /** The city of a weather query is never empty. */
  lemma CityIsNeverEmpty(line: string)
    requires Args(line) != []
    ensures Join(Args(line)) != ""
  {
    var ts := Tokens(line);
    JoinOfWordsNonEmpty(ts[1..]);
  }

  // ---------------------------------------------------------------------
  // Alerts

  /** The alerts a valid result raises follow the thresholds: freezing
      below zero; otherwise hot above 35; and, independently, windy above
      15. Each is a warning naming the reported city, the wind alert comes
      last, and at most two are raised. */
  lemma AlertsFollowThresholds(d: WeatherData)
    ensures AlertFor(d.city, Freezing) in Alerts(d) <==> d.temperature < FreezingBelow
    ensures AlertFor(d.city, Hot) in Alerts(d) <==> !(d.temperature < FreezingBelow) && d.temperature > HotAbove
    ensures AlertFor(d.city, Windy) in Alerts(d) <==> d.windSpeed > WindyAbove
    ensures d.windSpeed > WindyAbove ==> Alerts(d)[|Alerts(d)| - 1] == AlertFor(d.city, Windy)
    ensures |Alerts(d)| == (if TemperatureCondition(d).Some? then 1 else 0) + (if d.windSpeed > WindyAbove then 1 else 0)
    ensures forall n :: n in Alerts(d) ==> n.severity == Warning
  {
    AlertMessageDeterminesCondition(d.city, Freezing, Hot);
    AlertMessageDeterminesCondition(d.city, Freezing, Windy);
    AlertMessageDeterminesCondition(d.city, Hot, Windy);
  }

  // ---------------------------------------------------------------------
  // Properties of one line, by verb

  /** `weather` (or `w`) without a city records one warning and sends no
      query. */
  lemma WeatherWithoutCity(s: State, line: string, env: Env)
    requires Verb(line) == Weather && Args(line) == []
    ensures var t := ProcessCommand(s, line, env);
            && t.after == State(s.log + [Notification(CityUsage, Warning)], s.running)
            && Echoes(t.effects) == [Notification(CityUsage, Warning)]
            && Fetches(t.effects) == []
  {
    var t := ProcessCommand(s, line, env);
    assert t == Notify(Idle(s), CityUsage, Warning) by {
      VerbNeedsToken(line);
      DispatchesOwnTokens(s, line, env);
    }
    OneNotice(t.effects, Notification(CityUsage, Warning));
  }

  lemma RoutesToWeatherQuery(s: State, line: string, env: Env)
    requires Verb(line) == Weather && Args(line) != []
    ensures Join(Args(line)) != ""
    ensures ProcessCommand(s, line, env) == HandleWeatherQuery(s, Join(Args(line)), env)
  {
    VerbNeedsToken(line);
    DispatchesOwnTokens(s, line, env);
    CityIsNeverEmpty(line);
  }

  lemma FiltersOfTwo(x: Effect, y: Effect)
    ensures Echoes([x, y]) == Echoes([x]) + Echoes([y])
    ensures Fetches([x, y]) == Fetches([x]) + Fetches([y])
  {
    assert [x, y] == [x] + [y];
    FiltersDistribute([x], [y]);
  }

  lemma ValidCityEchoes(fetching: Notification, q: Query, report: Report,
                        success: Notification, alerts: seq<Notification>)
    ensures Echoes([Echo(fetching), Fetch(q)] + ([Print(report), Echo(success)] + EchoAll(alerts)))
            == [fetching] + ([success] + alerts)
  {
    var head := [Echo(fetching), Fetch(q)];
    var middle := [Print(report), Echo(success)];
    FiltersDistribute(head, middle + EchoAll(alerts));
    FiltersDistribute(middle, EchoAll(alerts));
    FiltersOfTwo(Echo(fetching), Fetch(q));
    FiltersOfTwo(Print(report), Echo(success));
    FiltersOfOne(Echo(fetching));
    FiltersOfOne(Fetch(q));
    FiltersOfOne(Print(report));
    FiltersOfOne(Echo(success));
    FiltersOfEchoAll(alerts);
    assert Echoes(head) == [fetching];
    assert Echoes(middle) == [success];
  }

  lemma ValidCityFetches(fetching: Notification, q: Query, report: Report,
                         success: Notification, alerts: seq<Notification>)
    ensures Fetches([Echo(fetching), Fetch(q)] + ([Print(report), Echo(success)] + EchoAll(alerts))) == [q]
  {
    var head := [Echo(fetching), Fetch(q)];
    var middle := [Print(report), Echo(success)];
    FiltersDistribute(head, middle + EchoAll(alerts));
    FiltersDistribute(middle, EchoAll(alerts));
    FiltersOfTwo(Echo(fetching), Fetch(q));
    FiltersOfTwo(Print(report), Echo(success));
    FiltersOfOne(Echo(fetching));
    FiltersOfOne(Fetch(q));
    FiltersOfOne(Print(report));
    FiltersOfOne(Echo(success));
    FiltersOfEchoAll(alerts);
  }

  /** A trace of an announcement, a query, a report and an outcome. */
  lemma ReportedTraceFilters(first: Notification, q: Query, report: Report, last: Notification)
    ensures Echoes([Echo(first), Fetch(q), Print(report), Echo(last)]) == [first, last]
    ensures Fetches([Echo(first), Fetch(q), Print(report), Echo(last)]) == [q]
  {
    var one := [Echo(first)];
    var two := one + [Fetch(q)];
    var three := two + [Print(report)];
    var four := three + [Echo(last)];
    assert four == [Echo(first), Fetch(q), Print(report), Echo(last)];
    assert four[..|four| - 1] == three && three[..|three| - 1] == two;
    assert two[..|two| - 1] == one && one[..|one| - 1] == [];
    assert Echoes(one) == [first] && Fetches(one) == [];
    assert Echoes(two) == [first] && Fetches(two) == [q];
    assert Echoes(three) == [first] && Fetches(three) == [q];
  }

  /** A trace of two notifications around one query. */
  lemma FailedTraceFilters(first: Notification, q: Query, last: Notification)
    ensures Echoes([Echo(first), Fetch(q), Echo(last)]) == [first, last]
    ensures Fetches([Echo(first), Fetch(q), Echo(last)]) == [q]
  {
    assert [Echo(first), Fetch(q), Echo(last)] == [Echo(first)] + ([Fetch(q)] + [Echo(last)]);
    FiltersOfCons(Echo(first), [Fetch(q)] + [Echo(last)]);
    FiltersOfCons(Fetch(q), [Echo(last)]);
    FiltersOfOne(Echo(first));
    FiltersOfOne(Fetch(q));
    FiltersOfOne(Echo(last));
  }

  lemma Regroup<T>(a: seq<T>, x: T, y: T, rest: seq<T>)
    ensures [x] + ([y] + rest) == [x, y] + rest
    ensures a + [x] + ([y] + rest) == a + ([x, y] + rest)
  {
  }

  /** The trace of a weather query whose result is valid. */
  lemma WeatherSucceedsTrace(s: State, city: string, env: Env)
    requires city != "" && env.byCity(city).isValid
    ensures var t := HandleWeatherQuery(s, city, env);
            var d := env.byCity(city);
            var added := [Notification(FetchingCity(city), Info), Notification(Retrieved, Success)] + Alerts(d);
            && t.after == State(s.log + added, s.running)
            && Echoes(t.effects) == added
            && Fetches(t.effects) == [ByCity(city)]
            && Print(FormatWeatherReport(d)) in t.effects
  {
    var d := env.byCity(city);
    WeatherSucceeds(s, city, env);
    var fetching := Notification(FetchingCity(city), Info);
    var success := Notification(Retrieved, Success);
    ValidCityEchoes(fetching, ByCity(city), FormatWeatherReport(d), success, Alerts(d));
    ValidCityFetches(fetching, ByCity(city), FormatWeatherReport(d), success, Alerts(d));
    Regroup(s.log, fetching, success, Alerts(d));
    assert HandleWeatherQuery(s, city, env).effects[2] == Print(FormatWeatherReport(d));
  }

  /** `weather` with arguments sends exactly one query, for the arguments
      joined with single spaces. When the result is valid the log gains the
      announcement, the success and then the alerts for the result, in that
      order, and the report is printed. */
  lemma WeatherQuerySucceeds(s: State, line: string, env: Env)
    requires Verb(line) == Weather && Args(line) != []
    requires env.byCity(Join(Args(line))).isValid
    ensures var t := ProcessCommand(s, line, env);
            var city := Join(Args(line));
            var d := env.byCity(city);
            var added := [Notification(FetchingCity(city), Info), Notification(Retrieved, Success)] + Alerts(d);
            && t.after == State(s.log + added, s.running)
            && Echoes(t.effects) == added
            && Fetches(t.effects) == [ByCity(city)]
            && Print(FormatWeatherReport(d)) in t.effects
  {
    RoutesToWeatherQuery(s, line, env);
    WeatherSucceedsTrace(s, Join(Args(line)), env);
  }

  /** `weather` with arguments whose result is invalid: the announcement
      and one error, no alert and no report. */
  lemma WeatherQueryFails(s: State, line: string, env: Env)
    requires Verb(line) == Weather && Args(line) != []
    requires !env.byCity(Join(Args(line))).isValid
    ensures var t := ProcessCommand(s, line, env);
            var city := Join(Args(line));
            var added := [Notification(FetchingCity(city), Info), Notification(CityFailed, Error)];
            && t.after == State(s.log + added, s.running)
            && Echoes(t.effects) == added
            && Fetches(t.effects) == [ByCity(city)]
            && forall e :: e in t.effects ==> !e.Print?
  {
    RoutesToWeatherQuery(s, line, env);
    var city := Join(Args(line));
    WeatherFails(s, city, env);
    FailedTraceFilters(Notification(FetchingCity(city), Info), ByCity(city), Notification(CityFailed, Error));
  }

  /** `location` (or `loc`) with fewer than two arguments records one
      warning and sends no query. */
  lemma LocationWithoutCoordinates(s: State, line: string, env: Env)
    requires Verb(line) == Location && |Args(line)| < 2
    ensures var t := ProcessCommand(s, line, env);
            && t.after == State(s.log + [Notification(CoordinateUsage, Warning)], s.running)
            && Echoes(t.effects) == [Notification(CoordinateUsage, Warning)]
            && Fetches(t.effects) == []
  {
    var t := ProcessCommand(s, line, env);
    assert t == Notify(Idle(s), CoordinateUsage, Warning) by {
      VerbNeedsToken(line);
      DispatchesOwnTokens(s, line, env);
    }
    OneNotice(t.effects, Notification(CoordinateUsage, Warning));
  }

  /** With two or more arguments only the first two are read: any further
      tokens make no difference. */
  lemma LocationIgnoresExtraArguments(s: State, line: string, env: Env)
    requires Verb(line) == Location && |Args(line)| >= 2
    ensures ProcessCommand(s, line, env) == HandleLocationQuery(s, Args(line)[0], Args(line)[1], env)
  {
    VerbNeedsToken(line);
    DispatchesOwnTokens(s, line, env);
  }

  /** Two coordinate lines that agree on their first two arguments behave
      alike, whatever follows. */
  lemma LocationLinesAgree(s: State, line: string, other: string, env: Env)
    requires Verb(line) == Location && |Args(line)| >= 2
    requires Verb(other) == Location && |Args(other)| >= 2
    requires Args(line)[..2] == Args(other)[..2]
    ensures ProcessCommand(s, line, env) == ProcessCommand(s, other, env)
  {
    LocationIgnoresExtraArguments(s, line, env);
    LocationIgnoresExtraArguments(s, other, env);
    assert Args(line)[0] == Args(line)[..2][0];
    assert Args(line)[1] == Args(line)[..2][1];
  }

  /** A coordinate token the number parser rejects: one error, no query. */
  lemma CoordinatesRejected(s: State, lat: string, lon: string, env: Env)
    requires env.parseNumber(lat).None? || env.parseNumber(lon).None?
    ensures var t := HandleLocationQuery(s, lat, lon, env);
            && t.after == State(s.log + [Notification(InvalidCoordinates, Error)], s.running)
            && Echoes(t.effects) == [Notification(InvalidCoordinates, Error)]
            && Fetches(t.effects) == []
  {
    LocationRejected(s, lat, lon, env);
    NotifyAlone(s, InvalidCoordinates, Error);
  }

  /** Both coordinate tokens convert: exactly one query, for those numbers;
      the announcement then one success or one error, never a warning and
      so never an alert; the report is printed only for a valid result. */
  lemma CoordinatesQueried(s: State, lat: string, lon: string, env: Env)
    requires env.parseNumber(lat).Some? && env.parseNumber(lon).Some?
    ensures var t := HandleLocationQuery(s, lat, lon, env);
            var q := ByCoordinates(env.parseNumber(lat).value, env.parseNumber(lon).value);
            var d := env.byCoordinates(q.latitude, q.longitude);
            var outcome := if d.isValid then Notification(Retrieved, Success)
                           else Notification(CoordinateFailed, Error);
            && t.after == State(s.log + [Notification(FetchingCoordinates, Info), outcome], s.running)
            && Echoes(t.effects) == [Notification(FetchingCoordinates, Info), outcome]
            && Fetches(t.effects) == [q]
            && (Print(FormatWeatherReport(d)) in t.effects <==> d.isValid)
  {
    var t := HandleLocationQuery(s, lat, lon, env);
    var q := ByCoordinates(env.parseNumber(lat).value, env.parseNumber(lon).value);
    var d := env.byCoordinates(q.latitude, q.longitude);
    var fetching := Notification(FetchingCoordinates, Info);
    if d.isValid {
      LocationSucceeds(s, lat, lon, env);
      var success := Notification(Retrieved, Success);
      ReportedTraceFilters(fetching, q, FormatWeatherReport(d), success);
      assert t.effects[2] == Print(FormatWeatherReport(d));
    } else {
      LocationFails(s, lat, lon, env);
      FailedTraceFilters(fetching, q, Notification(CoordinateFailed, Error));
      assert Print(FormatWeatherReport(d)) !in t.effects;
    }
  }

  /** `help` (or `h`) prints the command reference and changes nothing. */
  lemma HelpOnlyPrints(s: State, line: string, env: Env)
    requires Verb(line) == Help
    ensures ProcessCommand(s, line, env) == Transition(s, [HelpText])
  {
    assert ProcessCommand(s, line, env) == Route(s, Verb(line), Args(line), env) by {
      VerbNeedsToken(line);
      DispatchesOwnTokens(s, line, env);
    }
  }

  /** `notifications` (or `notif`) prints the rendered history and leaves
      the log as it was. */
  lemma HistoryIsReadOnly(s: State, line: string, env: Env)
    requires Verb(line) == History
    ensures ProcessCommand(s, line, env) == Transition(s, [Listing(Render(s.log))])
  {
    assert ProcessCommand(s, line, env) == Route(s, Verb(line), Args(line), env) by {
      VerbNeedsToken(line);
      DispatchesOwnTokens(s, line, env);
    }
  }

  /** `clear` replaces the whole log by the one entry saying so. */
  lemma ClearCommand(s: State, line: string, env: Env)
    requires Verb(line) == Clear
    ensures var t := ProcessCommand(s, line, env);
            && t.after == State([Notification(ClearedMessage, Info)], s.running)
            && t.effects == [Echo(Notification(ClearedMessage, Info))]
  {
    var t := ProcessCommand(s, line, env);
    assert t == Route(s, Verb(line), Args(line), env) by {
      VerbNeedsToken(line);
      DispatchesOwnTokens(s, line, env);
    }
    ClearRoute(s, Args(line), env);
  }

  /** The `clear` handler, whatever its arguments. */
  lemma ClearRoute(s: State, args: seq<string>, env: Env)
    ensures var cleared := Notification(ClearedMessage, Info);
            Route(s, Clear, args, env) == Transition(State([cleared], s.running), [Echo(cleared)])
  {
    ClearLeavesOneEntry(s.log);
  }

  /** The exit handler, whatever its arguments. */
  lemma ExitRoute(s: State, args: seq<string>, env: Env)
    ensures var farewell := Notification(Farewell, Info);
            Route(s, Exit, args, env) == Transition(State(s.log + [farewell], false), [Echo(farewell)])
  {
  }

  /** `exit`, `quit` or `q` records the farewell and stops the loop. */
  lemma ExitCommand(s: State, line: string, env: Env)
    requires Verb(line) == Exit
    ensures var t := ProcessCommand(s, line, env);
            && t.after == State(s.log + [Notification(Farewell, Info)], false)
            && Echoes(t.effects) == [Notification(Farewell, Info)]
            && Fetches(t.effects) == []
  {
    var t := ProcessCommand(s, line, env);
    assert t == Route(s, Verb(line), Args(line), env) by {
      VerbNeedsToken(line);
      DispatchesOwnTokens(s, line, env);
    }
    ExitRoute(s, Args(line), env);
    OneNotice(t.effects, Notification(Farewell, Info));
  }

  /** A line that is not blank but whose verb is none of the above records
      one warning and changes nothing else. */
  lemma UnknownVerb(s: State, line: string, env: Env)
    requires Verb(line) == Unknown && !AllTrim(line)
    ensures var t := ProcessCommand(s, line, env);
            && t.after == State(s.log + [Notification(UnknownCommand, Warning)], s.running)
            && Echoes(t.effects) == [Notification(UnknownCommand, Warning)]
            && Fetches(t.effects) == []
  {
    var t := ProcessCommand(s, line, env);
    assert t == Notify(Idle(s), UnknownCommand, Warning) by {
      DispatchesOwnTokens(s, line, env);
    }
    OneNotice(t.effects, Notification(UnknownCommand, Warning));
  }

  // ---------------------------------------------------------------------
  // Properties of every line

  /** What every line keeps: the loop stops only on an exit verb; the log
      only grows, by what was printed, except that `clear` starts it over;
      at most one query is sent, and only by the two query verbs. */
  predicate Accounted(s: State, line: string, t: Transition) {
    && t.after.running == (s.running && Verb(line) != Exit)
    && t.after.log == (if Verb(line) == Clear then [] else s.log) + Echoes(t.effects)
    && |Fetches(t.effects)| <= 1
    && (Fetches(t.effects) != [] ==> Verb(line) == Weather || Verb(line) == Location)
  }

  lemma BlankAccounted(s: State, line: string, env: Env)
    requires AllTrim(line)
    ensures Accounted(s, line, ProcessCommand(s, line, env))
  {
    TrimCharsAreSpaces(line);
    TokensOfSpaces(line);
    assert ProcessCommand(s, line, env) == Idle(s);
    assert s.log + [] == s.log;
  }

  lemma WeatherAccounted(s: State, line: string, env: Env)
    requires Verb(line) == Weather
    ensures Accounted(s, line, ProcessCommand(s, line, env))
  {
    if Args(line) == [] {
      WeatherWithoutCity(s, line, env);
    } else if env.byCity(Join(Args(line))).isValid {
      WeatherQuerySucceeds(s, line, env);
    } else {
      WeatherQueryFails(s, line, env);
    }
  }

  lemma LocationAccounted(s: State, line: string, env: Env)
    requires Verb(line) == Location
    ensures Accounted(s, line, ProcessCommand(s, line, env))
  {
    if |Args(line)| < 2 {
      LocationWithoutCoordinates(s, line, env);
    } else {
      var lat := Args(line)[0];
      var lon := Args(line)[1];
      LocationIgnoresExtraArguments(s, line, env);
      if env.parseNumber(lat).Some? && env.parseNumber(lon).Some? {
        CoordinatesQueried(s, lat, lon, env);
      } else {
        CoordinatesRejected(s, lat, lon, env);
      }
    }
  }

  lemma ListingAccounted(s: State, line: string, env: Env)
    requires Verb(line) == Help || Verb(line) == History
    ensures Accounted(s, line, ProcessCommand(s, line, env))
  {
    if Verb(line) == Help {
      HelpOnlyPrints(s, line, env);
      FiltersOfOne(HelpText);
    } else {
      HistoryIsReadOnly(s, line, env);
      FiltersOfOne(Listing(Render(s.log)));
    }
    assert s.log + [] == s.log;
  }

  lemma ClearAccounted(s: State, line: string, env: Env)
    requires Verb(line) == Clear
    ensures Accounted(s, line, ProcessCommand(s, line, env))
  {
    ClearCommand(s, line, env);
    FiltersOfOne(Echo(Notification(ClearedMessage, Info)));
  }

  lemma ExitAccounted(s: State, line: string, env: Env)
    requires Verb(line) == Exit
    ensures Accounted(s, line, ProcessCommand(s, line, env))
  {
    ExitCommand(s, line, env);
  }

  lemma UnknownAccounted(s: State, line: string, env: Env)
    requires Verb(line) == Unknown && !AllTrim(line)
    ensures Accounted(s, line, ProcessCommand(s, line, env))
  {
    UnknownVerb(s, line, env);
  }

  lemma LineAccounted(s: State, line: string, env: Env)
    ensures Accounted(s, line, ProcessCommand(s, line, env))
  {
    if AllTrim(line) {
      BlankAccounted(s, line, env);
    } else if Verb(line) == Weather {
      WeatherAccounted(s, line, env);
    } else if Verb(line) == Location {
      LocationAccounted(s, line, env);
    } else if Verb(line) == Help || Verb(line) == History {
      ListingAccounted(s, line, env);
    } else if Verb(line) == Clear {
      ClearAccounted(s, line, env);
    } else if Verb(line) == Exit {
      ExitAccounted(s, line, env);
    } else {
      UnknownAccounted(s, line, env);
    }
  }

  /** The loop stops exactly on an exit verb; every other line, blank or
      not, recognised or not, leaves the running flag as it was. */
  lemma OnlyExitStops(s: State, line: string, env: Env)
    ensures ProcessCommand(s, line, env).after.running <==> s.running && Verb(line) != Exit
  {
    LineAccounted(s, line, env);
  }

  /** What is printed as a notification is what is recorded, in the same
      order: the new log is the old one (or nothing, after `clear`)
      followed by the printed notifications. */
  lemma PrintedIsRecorded(s: State, line: string, env: Env)
    ensures var t := ProcessCommand(s, line, env);
            t.after.log == (if Verb(line) == Clear then [] else s.log) + Echoes(t.effects)
  {
    LineAccounted(s, line, env);
  }

  /** The log never shrinks and earlier entries never change, except
      through `clear`. */
  lemma LogGrowsUnlessCleared(s: State, line: string, env: Env)
    requires Verb(line) != Clear
    ensures var log' := ProcessCommand(s, line, env).after.log;
            |log'| >= |s.log| && log'[..|s.log|] == s.log
  {
    LineAccounted(s, line, env);
    var t := ProcessCommand(s, line, env);
    assert (s.log + Echoes(t.effects))[..|s.log|] == s.log;
  }

  /** A line sends at most one query to the weather service, and only a
      `weather` or `location` line sends one. */
  lemma AtMostOneQuery(s: State, line: string, env: Env)
    ensures var t := ProcessCommand(s, line, env);
            && |Fetches(t.effects)| <= 1
            && (Fetches(t.effects) != [] ==> Verb(line) == Weather || Verb(line) == Location)
  {
    LineAccounted(s, line, env);
  }

  // ---------------------------------------------------------------------
  // Verbs and examples

  /** The verb is matched without regard to case: a token selects the
      weather handler exactly when it spells `weather` or `w` in any mix of
      upper and lower case. */
  lemma WeatherVerbIgnoresCase(v: string)
    ensures Classify(Lower(v)) == Weather <==> CaseVariant(v, "weather") || CaseVariant(v, "w")
  {
    LowerMatchesCaseVariants(v, "weather");
    LowerMatchesCaseVariants(v, "w");
  }

  /** A token stops the loop exactly when it spells `exit`, `quit` or `q`
      in any case. */
  lemma ExitVerbIgnoresCase(v: string)
    ensures Classify(Lower(v)) == Exit
            <==> CaseVariant(v, "exit") || CaseVariant(v, "quit") || CaseVariant(v, "q")
  {
    LowerMatchesCaseVariants(v, "exit");
    LowerMatchesCaseVariants(v, "quit");
    LowerMatchesCaseVariants(v, "q");
  }

  /** A line of words splits back into those words, so its verb and
      arguments are read off its words directly. */
  lemma WordsOfLine(ws: seq<string>)
    requires ws != []
    requires forall i :: 0 <= i < |ws| ==> IsWord(ws[i])
    ensures Verb(Join(ws)) == Classify(Lower(ws[0]))
    ensures Args(Join(ws)) == ws[1..]
  {
    TokensOfJoin(ws);
  }

  /** Two lines of words whose verbs select the same handler and whose
      arguments agree are handled alike: `WEATHER New York`, `weather New
      York` and `w New York` do the same thing. */
  lemma SameCommandSameTransition(s: State, ws: seq<string>, vs: seq<string>, env: Env)
    requires ws != [] && vs != []
    requires forall i :: 0 <= i < |ws| ==> IsWord(ws[i])
    requires forall i :: 0 <= i < |vs| ==> IsWord(vs[i])
    requires Classify(Lower(ws[0])) == Classify(Lower(vs[0])) && ws[1..] == vs[1..]
    ensures ProcessCommand(s, Join(ws), env) == ProcessCommand(s, Join(vs), env)
  {
    WordsOfLine(ws);
    WordsOfLine(vs);
    TokensOfJoin(ws);
    TokensOfJoin(vs);
    HasTokensIsNotBlank(Join(ws));
    HasTokensIsNotBlank(Join(vs));
    DispatchesOwnTokens(s, Join(ws), env);
    DispatchesOwnTokens(s, Join(vs), env);
  }

  /** A line of separators that are not trim characters, such as a lone
      vertical tab, survives trimming but has no tokens, so it is answered
      as an unknown command. */
  lemma SeparatorsOnlyLine(s: State, line: string, env: Env)
    requires AllSpace(line) && !AllTrim(line)
    ensures var t := ProcessCommand(s, line, env);
            && t.after == State(s.log + [Notification(UnknownCommand, Warning)], s.running)
            && Echoes(t.effects) == [Notification(UnknownCommand, Warning)]
  {
    TokensOfSpaces(line);
    UnknownVerb(s, line, env);
  }

  lemma VerticalTabIsSeparatorOnly()
    ensures AllSpace("\U{000B}") && !AllTrim("\U{000B}")
  {
    assert "\U{000B}"[0] == '\U{000B}';
  }
}
