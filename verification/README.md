# Weather bot core in Dafny

This project models the core of an interactive weather chatbot written in C++:

- **Command dispatcher** (`WeatherBot::processCommand` and its handlers). It reads one line, trims it, splits it into tokens and lower-cases the verb. It then routes the line to the weather, location, help, history, clear or exit handler, or answers it as an unknown command.
- **Notification log** (`NotificationManager`). This is an append-only list of messages tagged INFO, WARNING, ERROR or SUCCESS. It also covers the symbol and colour tables, the weather-alert template, the history listing and `clear`.
- **Weather payload interpretation** (`WeatherService::parseWeatherJson`). This covers how the client turns a response body into a `WeatherData`, how every failure becomes an invalid result, and the fixed error text printed for an invalid result.

Everything is a pure function over immutable data. The dispatcher is a transition on `State(log, running)`. Processing a line gives the next state plus the ordered trace of what the bot did:

- notifications printed as they are recorded (`Echo`);
- queries sent to the weather client (`Fetch`);
- reports, history listings and the help text printed.

The weather client and the coordinate parser are parameters of the dispatcher (`Env`):

- `byCity` and `byCoordinates` return the client's `WeatherData`;
- `parseNumber` plays the part of `std::stod` and may reject a token.

`Connect` wires `Env` to the modelled client (`WeatherService.GetWeatherByCity` / `GetWeatherByCoordinates`). The client itself is built from three inputs:

- the response body the server returns for each query shape, empty when the transfer fails;
- a JSON parser that may reject a body;
- the values the never-initialised doubles happen to hold.

`Session.Run` folds the dispatcher over a list of input lines. It stops once the running flag is false.

Files:

| file | module | contents |
|---|---|---|
| `wrappers.dfy` | `Wrappers` | `Option` |
| `notifications.dfy` | `Notifications` | severities, log, symbol/colour tables, alerts, history listing, clear |
| `text.dfy` | `Text` | trimming, tokenising, joining, ASCII lower-casing |
| `json.dfy` | `Json` | JSON values and the member/conversion rules of the JSON library |
| `weather_service.dfy` | `WeatherService` | `WeatherData`, payload reading, failure collapse, error report |
| `weather_bot.dfy` | `WeatherBot` | the dispatcher and its properties |
| `session.dfy` | `Session` | the read loop as a fold over lines |

## Behaviour worth knowing

- **Blank lines and separators.** `trim` removes only space, tab, newline and carriage return. Splitting also treats vertical tab and form feed as separators. A line holding only a vertical tab is therefore not blank, yet it has no tokens, so it is answered with the unknown-command warning (`WeatherBot.SeparatorsOnlyLine`).
- **`location` arguments.** `location` accepts two or more argument tokens and ignores the rest (`WeatherBot.LocationIgnoresExtraArguments`).
- **Temperature alerts.** The freezing and hot alerts are an `else if` pair, so at most one of them is raised. The wind alert is independent of both.
- **Absent numeric fields.** The doubles of `WeatherData` are never initialised, so an absent temperature, humidity or wind speed holds whatever value was there. The model carries these values as the `uninit` input.
- **Type mismatches.** A present field of the wrong type makes the JSON library throw, and the result is then invalid. A document that is not a JSON object contains no members, so it reads as a valid result with empty strings (`WeatherService.NonObjectIsValidAndEmpty`).
- **Status code.** A status of `"200"` as a string is rejected, because it is compared with the number 200 (`WeatherService.StatusMustBeNumeric`).
- **Empty city guard.** The empty-city guard of `handleWeatherQuery` (src/WeatherBot.cpp:67-70) never fires from `processCommand`, because the join of at least one token is never empty (`WeatherBot.CityIsNeverEmpty`).
- **End of input.** The read loop has no end-of-input case. The fold simply ends when its list of lines does.

## Model

| member | source | states |
|---|---|---|
| Notifications.Symbol | src/NotificationManager.cpp:36-49 | every severity has a three-character bracketed symbol |
| Notifications.SeverityOfSymbol | src/NotificationManager.cpp:36-49 | a recognised symbol is the symbol of the severity it is read back to |
| Notifications.SeverityOfColor | src/NotificationManager.cpp:51-64 | a recognised colour is the colour of the severity it is read back to |
| Notifications.PresentationIsInjective | src/NotificationManager.cpp:36-64 | the symbol and colour tables are total and one-to-one: each severity is recovered from its symbol and from its colour |
| Notifications.ShowNotification | src/NotificationManager.cpp:66-72 | the log grows by exactly one entry, at the end, with the given message and severity; earlier entries are unchanged |
| Notifications.AlertMessage | src/NotificationManager.cpp:82-86 | an alert message is exactly as long as prefix, city, separator and condition together |
| Notifications.AlertCityRoundTrip | src/NotificationManager.cpp:82-86 | the city is recovered from an alert message given its condition |
| Notifications.AlertMessageDeterminesCondition | src/NotificationManager.cpp:82-86 | two alerts for one city with different conditions have different messages |
| Notifications.ShowWeatherAlert | src/NotificationManager.cpp:82-86 | exactly one WARNING is appended, with message "Weather Alert for " + city + ": " + condition |
| Notifications.ClearNotifications | src/NotificationManager.cpp:114-117 | after a clear the log has exactly one entry, at INFO level |
| Notifications.ClearLeavesOneEntry | src/NotificationManager.cpp:114-117 | whatever the log held, a clear leaves exactly the INFO "All notifications cleared." entry, so the listing is never the empty-history line |
| Notifications.Row | src/NotificationManager.cpp:104-108 | a row is the entry's own symbol, one space, then the message unchanged |
| Notifications.Rows | src/NotificationManager.cpp:98-109 | one row per entry, in log order, each with its own entry's symbol |
| Notifications.Render | src/NotificationManager.cpp:88-112 | an empty log lists only "No notifications."; otherwise every entry appears in order between the header and the footer |
| Notifications.RenderRoundTrip | src/NotificationManager.cpp:88-112 | the listing shows exactly the log: reading it back gives every entry, in insertion order and with its own severity, and nothing else |
| Text.FirstKept | src/WeatherBot.cpp:17-18 | the position of the first character that is not space, tab, newline or carriage return, every character before it being one of those; the length when there is none |
| Text.KeptEnd | src/WeatherBot.cpp:19-20 | one past the last character that is not a trim character, every character after it being one |
| Text.Trim | src/WeatherBot.cpp:16-21 | the result is empty exactly when the line holds only space, tab, newline and carriage return; otherwise it neither starts nor ends with one |
| Text.TrimRemovesOnlyEnds | src/WeatherBot.cpp:16-21 | the trimmed line is a slice of the line with only trim characters on either side |
| Text.TrimIdempotent | src/WeatherBot.cpp:16-21 | trimming twice is trimming once |
| Text.WordLength | src/WeatherBot.cpp:28 | the first word runs up to, and not including, the first separator |
| Text.Tokens | src/WeatherBot.cpp:23-33 | every token is non-empty and free of separators |
| Text.TokensOfWordThenSpaces | src/WeatherBot.cpp:23-33 | a word followed by any non-empty run of separators is one token, followed by the tokens of the rest; with `TokensSkipPrefix` this fixes the tokens of every line |
| Text.TokensSkipPrefix | src/WeatherBot.cpp:28-30 | leading separators do not change the tokens |
| Text.TokensOfSpaces | src/WeatherBot.cpp:28-30 | a line made only of separators has no tokens |
| Text.TokensOfTrim | src/WeatherBot.cpp:125-130 | trimming before splitting changes none of the tokens |
| Text.Join | src/WeatherBot.cpp:140-144 | joining a single token gives that token |
| Text.JoinAppends | src/WeatherBot.cpp:140-144 | each further token adds exactly one space and then the token to the join |
| Text.TokensOfJoin | src/WeatherBot.cpp:140-144 | splitting the single-space join of some tokens gives back exactly those tokens |
| Text.JoinOfWordsNonEmpty | src/WeatherBot.cpp:140-144 | the join of at least one token is never empty |
| Text.LowerChar | src/WeatherBot.cpp:134 | upper-case ASCII letters map to lower-case letters; every other character is unchanged |
| Text.Lower | src/WeatherBot.cpp:134 | lower-casing keeps the length and maps each character on its own |
| Text.LowerMatchesCaseVariants | src/WeatherBot.cpp:134 | a verb lower-cases to a lower-case word exactly when it spells that word in some mix of cases |
| Json.Member | src/WeatherService.cpp:57-90 | a member is found exactly when the value is an object holding that key, and what is found is that key's value; on anything else the lookup finds nothing |
| Json.AsString | src/WeatherService.cpp:61-63 | only a string converts to a string |
| Json.AsNumber | src/WeatherService.cpp:76-90 | only a number converts to a number |
| WeatherService.Blank | src/WeatherService.cpp:53-54 | a fresh result is invalid with all its strings empty |
| WeatherService.ReadText | src/WeatherService.cpp:61-67 | an absent member leaves the field alone; a string is stored; anything else throws; no other field changes |
| WeatherService.ReadNumber | src/WeatherService.cpp:76-90 | an absent member leaves the field alone; a number is stored; anything else throws; no text field changes |
| WeatherService.ReadCondition | src/WeatherService.cpp:69-74 | description and icon are read from `weather[0]` only when `weather` is a non-empty array; the icon changes only when `weather[0]` has an icon |
| WeatherService.ParseWeatherJson | src/WeatherService.cpp:52-98 | a present `cod` other than 200 gives the untouched invalid result; otherwise the result is valid exactly when every present field has its expected type, and then it is the sparse-record reading of the payload |
| WeatherService.ReadFieldsSucceedsIffWellTyped | src/WeatherService.cpp:61-95 | the sequence of reads completes exactly when every present field has its expected type |
| WeatherService.ReadFieldsAgreesWithExtract | src/WeatherService.cpp:61-92 | when the reads complete they agree field by field with the sparse-record reading |
| WeatherService.AbsentFieldsStayEmpty | src/WeatherService.cpp:61-74 | an absent `name` leaves the city empty, and an absent `sys.country` the country; without a non-empty `weather` array, description and icon stay empty; a non-empty icon needs `weather[0].icon` |
| WeatherService.NonObjectIsValidAndEmpty | src/WeatherService.cpp:57-92 | a document that is not an object reads as a valid result with empty strings |
| WeatherService.StatusMustBeNumeric | src/WeatherService.cpp:57-59 | a string status "200" is rejected |
| WeatherService.Interpret | src/WeatherService.cpp:109-123 | an empty body or a body the parser rejects gives the invalid result; otherwise validity is that of the parsed payload |
| WeatherService.GetWeatherByCity | src/WeatherService.cpp:100-124 | valid exactly when the body is non-empty, parses, is not rejected by status and is well typed; a valid result is the reading of the payload |
| WeatherService.GetWeatherByCoordinates | src/WeatherService.cpp:126-151 | the same as the city query, for the coordinate response |
| WeatherService.FormatWeatherReport | src/WeatherService.cpp:153-156 | the report is the error text exactly when the result is invalid |
| WeatherService.InvalidReportIsFixed | src/WeatherService.cpp:154-156 | every invalid result prints the same fixed error text, which interpolates no field |
| WeatherBot.Connect | src/WeatherBot.cpp:74 | the dispatcher's city and coordinate queries are the client's two queries |
| WeatherBot.Notify | src/NotificationManager.cpp:66-80 | one notification is appended to the log and printed, and nothing else happens |
| WeatherBot.Alert | src/NotificationManager.cpp:82-86 | one alert warning is appended and printed |
| WeatherBot.RaiseAlerts | src/WeatherBot.cpp:80-89 | the alerts for a result are appended and printed in the order they are raised |
| WeatherBot.Succeeded | src/WeatherBot.cpp:76-89 | a valid result is printed, then the SUCCESS notification, then the alerts |
| WeatherBot.DispatchesOwnTokens | src/WeatherBot.cpp:124-131 | a line that is not blank is routed on its own verb and arguments |
| WeatherBot.BlankLineIsIgnored | src/WeatherBot.cpp:125-128 | a line has no effect at all exactly when it is blank after trimming, and then the state is unchanged |
| WeatherBot.AlertsFollowThresholds | src/WeatherBot.cpp:80-89 | a freezing alert exactly when the temperature is below 0; otherwise a hot alert exactly when it is above 35; a wind alert exactly when the wind speed is above 15; all are warnings naming the reported city, the wind alert comes last, and their number follows from the thresholds |
| WeatherBot.CityIsNeverEmpty | src/WeatherBot.cpp:137-145 | the city passed on from a line with arguments is never empty |
| WeatherBot.WeatherWithoutCity | src/WeatherBot.cpp:137-138 | `weather` alone appends exactly one WARNING and sends no query |
| WeatherBot.RoutesToWeatherQuery | src/WeatherBot.cpp:136-146 | `weather` with arguments hands the arguments joined by single spaces to the weather handler |
| WeatherBot.WeatherSucceeds | src/WeatherBot.cpp:72-89 | for a valid result the handler appends the announcement, the success and the alerts, and prints the announcement, sends the query, prints the report, the success and the alerts, in that order |
| WeatherBot.WeatherFails | src/WeatherBot.cpp:72-92 | for an invalid result the handler appends the announcement and one ERROR, with no report and no alert |
| WeatherBot.WeatherSucceedsTrace | src/WeatherBot.cpp:66-89 | a valid city query records what it prints, sends exactly one query for that city and prints the report |
| WeatherBot.WeatherQuerySucceeds | src/WeatherBot.cpp:72-89 | for a `weather` line with a valid result: INFO announcement first, then SUCCESS, then the alerts; exactly one query, for the joined arguments; the running flag is unchanged |
| WeatherBot.WeatherQueryFails | src/WeatherBot.cpp:90-92 | for a `weather` line with an invalid result: the announcement and exactly one ERROR, no alert, no report, exactly one query |
| WeatherBot.LocationSucceeds | src/WeatherBot.cpp:100-106 | both coordinates convert and the result is valid: announcement, query, report, SUCCESS |
| WeatherBot.LocationFails | src/WeatherBot.cpp:100-109 | both coordinates convert and the result is invalid: announcement, query, ERROR |
| WeatherBot.LocationRejected | src/WeatherBot.cpp:96-112 | a coordinate token that does not convert gives only the "Invalid coordinates" ERROR |
| WeatherBot.LocationWithoutCoordinates | src/WeatherBot.cpp:148-149 | `location` with fewer than two arguments appends exactly one WARNING and sends no query |
| WeatherBot.LocationIgnoresExtraArguments | src/WeatherBot.cpp:148-151 | with two or more arguments only the first two are used |
| WeatherBot.LocationLinesAgree | src/WeatherBot.cpp:148-151 | two coordinate lines agreeing on their first two arguments behave identically, whatever follows |
| WeatherBot.CoordinatesRejected | src/WeatherBot.cpp:110-112 | a rejected coordinate token appends exactly one ERROR and sends no query |
| WeatherBot.CoordinatesQueried | src/WeatherBot.cpp:100-109 | converted coordinates: exactly one query for those numbers, then INFO and one SUCCESS or ERROR, never an alert; the report is printed exactly when the result is valid |
| WeatherBot.HelpOnlyPrints | src/WeatherBot.cpp:153-154 | `help` prints the command reference and changes nothing |
| WeatherBot.HistoryIsReadOnly | src/WeatherBot.cpp:155-156 | `notifications` prints the listing of the current log and changes nothing |
| WeatherBot.ClearRoute | src/WeatherBot.cpp:157-158 | the `clear` handler leaves exactly the cleared entry, prints it and keeps the running flag |
| WeatherBot.ExitRoute | src/WeatherBot.cpp:119-122 | the exit handler appends the farewell, prints it and clears the running flag |
| WeatherBot.ClearCommand | src/WeatherBot.cpp:157-158 | `clear` leaves exactly the one INFO cleared entry and prints it |
| WeatherBot.ExitCommand | src/WeatherBot.cpp:119-122 | an exit verb appends one INFO farewell and stops the loop, sending no query |
| WeatherBot.UnknownVerb | src/WeatherBot.cpp:161-162 | an unrecognised verb appends one WARNING and leaves the running flag alone |
| WeatherBot.OnlyExitStops | src/WeatherBot.cpp:159-160 | after a line the loop runs exactly when it ran before and the verb was not an exit verb |
| WeatherBot.PrintedIsRecorded | src/NotificationManager.cpp:72-79 | the new log is the old one (nothing after `clear`) followed by exactly the notifications printed, in order |
| WeatherBot.LogGrowsUnlessCleared | src/NotificationManager.cpp:72 | apart from `clear`, the log never shrinks and earlier entries never change |
| WeatherBot.AtMostOneQuery | src/WeatherBot.cpp:136-151 | a line sends at most one query, and only a `weather` or `location` line sends one |
| WeatherBot.WeatherVerbIgnoresCase | src/WeatherBot.cpp:134-136 | a token selects the weather handler exactly when it spells `weather` or `w` in any mix of cases |
| WeatherBot.ExitVerbIgnoresCase | src/WeatherBot.cpp:159 | a token selects exit exactly when it spells `exit`, `quit` or `q` in any mix of cases |
| WeatherBot.WordsOfLine | src/WeatherBot.cpp:130-131 | the verb and arguments of a line of words are its first word and the rest |
| WeatherBot.SameCommandSameTransition | src/WeatherBot.cpp:131-136 | lines whose verbs select the same handler and whose arguments agree are handled identically (`WEATHER`, `weather` and `w` alike) |
| WeatherBot.SeparatorsOnlyLine | src/WeatherBot.cpp:17-30 | a line of separators that are not all trim characters is answered with the unknown-command warning |
| WeatherBot.VerticalTabIsSeparatorOnly | src/WeatherBot.cpp:17 | a lone vertical tab is such a line |
| Session.StepIsProcessCommand | src/WeatherBot.cpp:175-177 | skipping an empty line is the same as processing it |
| Session.RunStopsIffExit | src/WeatherBot.cpp:171-178 | the loop ends stopped exactly when it was already stopped or some line has an exit verb |
| Session.LinesAfterExitIgnored | src/WeatherBot.cpp:171 | lines after an exit are never read |
| Session.RunRecordsWhatItPrints | src/WeatherBot.cpp:171-178 | without `clear`, the final log is the starting log followed by every notification printed, in order |
| Session.AtMostOneQueryPerLine | src/WeatherBot.cpp:171-178 | a session sends at most one query per line read |
| Session.SessionOpens | src/WeatherBot.cpp:166-168 | a session begins with the banner, the welcome notification as first log entry, and the command reference |

## Left out

- Network access (curl setup, the write callback, `performRequest`, URL building) is left out. It is I/O behind a foreign library; the client receives the response body as an input instead.
- `main.cpp` (reading the API key file, prompting) is left out as console and file I/O.
- The exact grammar `std::stod` accepts is left out. Coordinate parsing is the abstract partial function `parseNumber`.
- The JSON text parser is left out. The client receives a parser that may reject a body.
- The panel layout of a valid report is left out. It is presentation measured in bytes over box-drawing characters, with double-to-int truncation. A valid result is reported as `Panel(data)`.
- Double-precision arithmetic is left out. Temperatures and wind speeds are `real`s, and the thresholds are compared exactly.
- Timestamps, their `HH:MM:SS` rendering and `printColored`'s console attributes are left out: wall clock and OS calls. History rows hold symbol, space and message only.
- The banner and help texts are left out. They are fixed console output, recorded as the `Banner` and `HelpText` effects.
- The `getline` and end-of-input behaviour of the read loop is left out, because it is console I/O. `Session.Run` is a fold over a finite list of lines.
- A `weather[0]` object without `description` is left out. Reading it is undefined behaviour in the JSON library, so such payloads are excluded by the `Payload` subset type.
- The `std::cerr` diagnostics of the client (src/WeatherService.cpp:94, 119, 146) are left out. They are console output, and the trace records only what the bot shows through its notifications and reports.
- The weather client and the number parser are fixed functions for a whole session. The same city always gets the same result, and one `uninit` value is shared by every result, whereas real requests may differ from call to call. No property proved here depends on this.
- Characters are Dafny `char`s, not bytes; lower-casing affects ASCII letters only, as `::tolower` does in the C locale.
- WeatherBot.HandleWeatherQuery: its own contract only says that something is printed. Its behaviour is stated by `WeatherSucceeds`, `WeatherFails` and the line-level lemmas.
- WeatherBot.HandleLocationQuery: its own contract only says that something is printed. Its behaviour is stated by `LocationSucceeds`, `LocationFails` and `LocationRejected`.
- WeatherBot.HandleExitCommand: its own contract only says that something is printed. Its behaviour is stated by `ExitCommand`.
- WeatherBot.ProcessCommand: it has no contract of its own. Its behaviour on every line is stated by `BlankLineIsIgnored`, `DispatchesOwnTokens`, the per-verb lemmas and the `Accounted` lemmas (`OnlyExitStops`, `PrintedIsRecorded`, `LogGrowsUnlessCleared`, `AtMostOneQuery`).
- WeatherBot.Classify: it has no contract of its own. The alias sets are stated by `WeatherVerbIgnoresCase`, `ExitVerbIgnoresCase` and the per-verb lemmas, which take the verb as their precondition.
- Notifications.Color: it has no contract of its own. The colour table is stated by `SeverityOfColor` and `PresentationIsInjective`.
- Session.Run: it has no contract of its own. Its behaviour is stated by `RunStopsIffExit`, `LinesAfterExitIgnored`, `RunRecordsWhatItPrints` and `AtMostOneQueryPerLine`.
- Session.Start: it has no contract of its own. Its behaviour is stated by `SessionOpens`.
- WeatherBot.Route: its own contract only says that something is printed. The per-verb lemmas state what each verb does.
- WeatherBot.Dispatch: its own contract only says that something is printed. The per-verb lemmas state what each verb does.
