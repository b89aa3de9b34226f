/**
 * The weather client: how a response body becomes a `WeatherData`, how every
 * failure collapses into an invalid result, and the error text printed for
 * an invalid result.
 *
 * The network request is an input: the client is handed the body the server
 * returned for each query shape (empty when the transfer failed) and a JSON
 * parser that may reject the body.
 */
module WeatherService {
  import opened Wrappers
  import opened Json

  /** The four doubles of a `WeatherData`. */
  datatype Measures = Measures(temperature: real, feelsLike: real, humidity: real, windSpeed: real)

  datatype WeatherData = WeatherData(
    city: string,
    description: string,
    temperature: real,
    feelsLike: real,
    humidity: real,
    windSpeed: real,
    country: string,
    icon: string,
    isValid: bool)

  /** A freshly declared `WeatherData` marked invalid: its strings are empty
      and its doubles, never initialised, hold whatever `uninit` holds. */
  function Blank(uninit: Measures): (d: WeatherData)
    ensures !d.isValid
    ensures d.city == d.country == d.description == d.icon == ""
  {
    WeatherData("", "", uninit.temperature, uninit.feelsLike, uninit.humidity,
                uninit.windSpeed, "", "", false)
  }

  const InvalidReport: string :=
    "Error: Unable to retrieve weather data. Please check the city name or your API key."

  /** The string fields and the number fields the reader assigns. */
  datatype TextField = City | Country | Description | Icon
  datatype NumberField = Temperature | FeelsLike | Humidity | WindSpeed

  function TextOf(d: WeatherData, f: TextField): string {
    match f
    case City => d.city
    case Country => d.country
    case Description => d.description
    case Icon => d.icon
  }

  function SetText(d: WeatherData, f: TextField, s: string): WeatherData {
    match f
    case City => d.(city := s)
    case Country => d.(country := s)
    case Description => d.(description := s)
    case Icon => d.(icon := s)
  }

  function SetNumber(d: WeatherData, f: NumberField, x: real): WeatherData {
    match f
    case Temperature => d.(temperature := x)
    case FeelsLike => d.(feelsLike := x)
    case Humidity => d.(humidity := x)
    case WindSpeed => d.(windSpeed := x)
  }

  /** The reader's progress: still reading, or stopped by a conversion that
      threw, keeping the fields assigned before the throw. */
  datatype Attempt = Reading(data: WeatherData) | Thrown(data: WeatherData)

  /** A present member converts to a string; an absent one is skipped. */
  predicate TextOk(v: Option<Json>) {
    v.None? || v.value.JStr?
  }

  /** A present member converts to a double; an absent one is skipped. */
  predicate NumberOk(v: Option<Json>) {
    v.None? || v.value.JNum?
  }

  /** Assigns field `f` from the member `v` when it is present. */
  function ReadText(a: Attempt, v: Option<Json>, f: TextField): (r: Attempt)
    ensures r.Reading? <==> a.Reading? && TextOk(v)
    ensures r.data.isValid == a.data.isValid
    ensures r.Reading? ==> r.data == if v.Some? then SetText(a.data, f, v.value.s) else a.data
    ensures f != City ==> r.data.city == a.data.city
    ensures f != Country ==> r.data.country == a.data.country
    ensures f != Description ==> r.data.description == a.data.description
    ensures f != Icon ==> r.data.icon == a.data.icon
    ensures TextOf(r.data, f) != TextOf(a.data, f) ==> v.Some?
  {
    match a
    case Thrown(_) => a
    case Reading(d) =>
      match v
      case None => a
      case Some(x) =>
        match AsString(x)
        case None => Thrown(d)
        case Some(s) => Reading(SetText(d, f, s))
  }

  function ReadNumber(a: Attempt, v: Option<Json>, f: NumberField): (r: Attempt)
    ensures r.Reading? <==> a.Reading? && NumberOk(v)
    ensures r.data.isValid == a.data.isValid
    ensures r.Reading? ==> r.data == if v.Some? then SetNumber(a.data, f, v.value.n) else a.data
    ensures r.data.city == a.data.city && r.data.country == a.data.country
    ensures r.data.description == a.data.description && r.data.icon == a.data.icon
  {
    match a
    case Thrown(_) => a
    case Reading(d) =>
      match v
      case None => a
      case Some(x) =>
        match AsNumber(x)
        case None => Thrown(d)
        case Some(n) => Reading(SetNumber(d, f, n))
  }

  /** `weather[0]`, read only when `weather` is a non-empty array. */
  function FirstCondition(j: Json): Option<Json> {
    match Member(j, "weather")
    case Some(JArr(items)) => if |items| > 0 then Some(items[0]) else None
    case _ => None
  }

  /** A present `cod` that does not equal the number 200. */
  predicate CodRejected(j: Json) {
    match Member(j, "cod")
    case None => false
    case Some(v) => v != JNum(200.0)
  }

  /** The one input on which the reader's behaviour is undefined: it gets as
      far as `weather[0]["description"]`, and `weather[0]` is an object
      without that member. */
  predicate ReadsMissingDescription(j: Json) {
    && !CodRejected(j)
    && TextOk(Member(j, "name"))
    && TextOk(Nested(j, "sys", "country"))
    && match FirstCondition(j)
       case Some(JObj(f)) => "description" !in f
       case _ => false
  }

  /** A JSON document whose reading is defined. */
  type Payload = j: Json | !ReadsMissingDescription(j) witness JNull

  /** Reads description and icon from `weather[0]`; indexing a non-object
      by a key throws. */
  function ReadCondition(a: Attempt, j: Json): (r: Attempt)
    requires a.Reading? ==> !(FirstCondition(j).Some? && FirstCondition(j).value.JObj?
                              && "description" !in FirstCondition(j).value.fields)
    ensures r.Reading? <==> a.Reading? && ConditionOk(FirstCondition(j))
    ensures r.data.isValid == a.data.isValid
    ensures r.Reading? ==> r.data == match FirstCondition(j)
      case None => a.data
      case Some(c) => SetText(SetText(a.data, Description, TextOr(Member(c, "description"), "")),
                              Icon, TextOr(Member(c, "icon"), a.data.icon))
    ensures r.data.city == a.data.city && r.data.country == a.data.country
    ensures r.data.icon != a.data.icon ==>
              FirstCondition(j).Some? && Member(FirstCondition(j).value, "icon").Some?
    ensures FirstCondition(j).None? ==> r.data == a.data
  {
    match a
    case Thrown(_) => a
    case Reading(d) =>
      match FirstCondition(j)
      case None => a
      case Some(c) =>
        if !c.JObj? then Thrown(d)
        else
          var withDescription := ReadText(a, Member(c, "description"), Description);
          ReadText(withDescription, Member(c, "icon"), Icon)
  }

  /** The reads of `parseWeatherJson` after the status check, in source order. */
  function ReadFields(j: Json, d0: WeatherData): (r: Attempt)
    requires !ReadsMissingDescription(j) && !CodRejected(j)
  {
    var a1 := ReadText(Reading(d0), Member(j, "name"), City);
    var a2 := ReadText(a1, Nested(j, "sys", "country"), Country);
    var a3 := ReadCondition(a2, j);
    var a4 := ReadNumber(a3, Nested(j, "main", "temp"), Temperature);
    var a5 := ReadNumber(a4, Nested(j, "main", "feels_like"), FeelsLike);
    var a6 := ReadNumber(a5, Nested(j, "main", "humidity"), Humidity);
    ReadNumber(a6, Nested(j, "wind", "speed"), WindSpeed)
  }

  /** `weather[0]`, when it is read at all, is an object whose description
      is a string and whose icon, if any, is a string. */
  predicate ConditionOk(c: Option<Json>) {
    c.None? ||
    (c.value.JObj? && "description" in c.value.fields && c.value.fields["description"].JStr?
     && TextOk(Member(c.value, "icon")))
  }

  /** Every present field has the type its reader converts it to. */
  predicate WellTyped(j: Json) {
    && TextOk(Member(j, "name"))
    && TextOk(Nested(j, "sys", "country"))
    && ConditionOk(FirstCondition(j))
    && NumberOk(Nested(j, "main", "temp"))
    && NumberOk(Nested(j, "main", "feels_like"))
    && NumberOk(Nested(j, "main", "humidity"))
    && NumberOk(Nested(j, "wind", "speed"))
  }

  function TextOr(v: Option<Json>, default: string): string {
    if v.Some? && v.value.JStr? then v.value.s else default
  }

  function NumberOr(v: Option<Json>, default: real): real {
    if v.Some? && v.value.JNum? then v.value.n else default
  }

  /** The payload read as a sparse record: each field taken from its own
      path when present, left at its default otherwise. */
  function Extract(j: Json, uninit: Measures): WeatherData {
    var c := FirstCondition(j);
    WeatherData(
      city := TextOr(Member(j, "name"), ""),
      description := if c.Some? then TextOr(Member(c.value, "description"), "") else "",
      temperature := NumberOr(Nested(j, "main", "temp"), uninit.temperature),
      feelsLike := NumberOr(Nested(j, "main", "feels_like"), uninit.feelsLike),
      humidity := NumberOr(Nested(j, "main", "humidity"), uninit.humidity),
      windSpeed := NumberOr(Nested(j, "wind", "speed"), uninit.windSpeed),
      country := TextOr(Nested(j, "sys", "country"), ""),
      icon := if c.Some? then TextOr(Member(c.value, "icon"), "") else "",
      isValid := true)
  }

  /** `parseWeatherJson`: a rejected status code stops the reading at once;
      otherwise the fields are read in order and a conversion that throws
      leaves the result invalid. */
  function ParseWeatherJson(j: Payload, uninit: Measures): (d: WeatherData)
    ensures CodRejected(j) ==> d == Blank(uninit)
    ensures d.isValid <==> !CodRejected(j) && WellTyped(j)
    ensures d.isValid ==> d == Extract(j, uninit)
  {
    var d0 := Blank(uninit);
    if CodRejected(j) then d0
    else
      var a := ReadFields(j, d0);
      ReadFieldsSucceedsIffWellTyped(j, d0);
      if a.Reading? then
        ReadFieldsAgreesWithExtract(j, uninit);
        a.data.(isValid := true)
      else a.data
  }

  /** The sequential reader succeeds exactly on well-typed payloads. */
  lemma ReadFieldsSucceedsIffWellTyped(j: Json, d0: WeatherData)
    requires !ReadsMissingDescription(j) && !CodRejected(j)
    ensures ReadFields(j, d0).Reading? <==> WellTyped(j)
    ensures ReadFields(j, d0).data.isValid == d0.isValid
  {
  }

  /** When the sequential reader succeeds it agrees field by field with the
      sparse-record reading. */
  lemma ReadFieldsAgreesWithExtract(j: Json, uninit: Measures)
    requires !ReadsMissingDescription(j) && !CodRejected(j)
    requires ReadFields(j, Blank(uninit)).Reading?
    ensures ReadFields(j, Blank(uninit)).data.(isValid := true) == Extract(j, uninit)
  {
    var d0 := Blank(uninit);
    var a1 := ReadText(Reading(d0), Member(j, "name"), City);
    var a2 := ReadText(a1, Nested(j, "sys", "country"), Country);
    var a3 := ReadCondition(a2, j);
    var a4 := ReadNumber(a3, Nested(j, "main", "temp"), Temperature);
    var a5 := ReadNumber(a4, Nested(j, "main", "feels_like"), FeelsLike);
    var a6 := ReadNumber(a5, Nested(j, "main", "humidity"), Humidity);
    var a7 := ReadNumber(a6, Nested(j, "wind", "speed"), WindSpeed);
    assert a7 == ReadFields(j, d0);
    var e := Extract(j, uninit);
    assert a2.data.city == e.city && a2.data.country == e.country;
    assert a3.data.description == e.description && a3.data.icon == e.icon;
  }

  /** Fields whose member is absent keep their empty defaults, valid result
      or not: the city without `name`, the country without `sys.country`,
      description and icon without a non-empty `weather` array, and the icon
      without `weather[0].icon`. */
  lemma AbsentFieldsStayEmpty(j: Payload, uninit: Measures)
    ensures Member(j, "name").None? ==> ParseWeatherJson(j, uninit).city == ""
    ensures Nested(j, "sys", "country").None? ==> ParseWeatherJson(j, uninit).country == ""
    ensures FirstCondition(j).None? ==>
              ParseWeatherJson(j, uninit).description == ParseWeatherJson(j, uninit).icon == ""
    ensures ParseWeatherJson(j, uninit).icon != "" ==>
              FirstCondition(j).Some? && Member(FirstCondition(j).value, "icon").Some?
  {
    if !CodRejected(j) {
      var d0 := Blank(uninit);
      var a1 := ReadText(Reading(d0), Member(j, "name"), City);
      var a2 := ReadText(a1, Nested(j, "sys", "country"), Country);
      var a3 := ReadCondition(a2, j);
      var a4 := ReadNumber(a3, Nested(j, "main", "temp"), Temperature);
      var a5 := ReadNumber(a4, Nested(j, "main", "feels_like"), FeelsLike);
      var a6 := ReadNumber(a5, Nested(j, "main", "humidity"), Humidity);
      var a7 := ReadNumber(a6, Nested(j, "wind", "speed"), WindSpeed);
      assert a7 == ReadFields(j, d0);
      var d := ParseWeatherJson(j, uninit);
      assert d.city == a1.data.city && d.country == a2.data.country;
      assert d.icon == a3.data.icon && d.description == a3.data.description;
    }
  }

  /** A document that is not an object has none of the members looked
      for, so it reads as a valid result whose strings are all empty. */
  lemma NonObjectIsValidAndEmpty(j: Payload, uninit: Measures)
    requires !j.JObj?
    ensures ParseWeatherJson(j, uninit) == Blank(uninit).(isValid := true)
  {
  }

  /** The status is compared with the number 200: the same digits as a
      string are a different status. */
  lemma StatusMustBeNumeric(j: Payload, uninit: Measures)
    requires Member(j, "cod") == Some(JStr("200"))
    ensures !ParseWeatherJson(j, uninit).isValid
  {
  }

  /** The transfer failing (an empty body) and the parser rejecting the body
      both give the invalid result; a parsed body is read as above. */
  function Interpret(response: string, parse: string -> Option<Payload>, uninit: Measures): (d: WeatherData)
    ensures response == "" || parse(response).None? ==> d == Blank(uninit)
    ensures d.isValid <==> response != "" && parse(response).Some?
                           && !CodRejected(parse(response).value) && WellTyped(parse(response).value)
  {
    if response == "" then Blank(uninit)
    else match parse(response)
      case None => Blank(uninit)
      case Some(j) => ParseWeatherJson(j, uninit)
  }

  /** The client: the body the server returns for each query shape (empty
      when the transfer fails), the JSON parser, and the values an
      uninitialised double happens to hold. */
  datatype Client = Client(
    cityResponse: string -> string,
    coordinateResponse: (real, real) -> string,
    parse: string -> Option<Payload>,
    uninit: Measures)

  function GetWeatherByCity(c: Client, cityName: string): (d: WeatherData)
    ensures var body := c.cityResponse(cityName);
            d.isValid <==> body != "" && c.parse(body).Some?
                           && !CodRejected(c.parse(body).value) && WellTyped(c.parse(body).value)
    ensures d.isValid ==> d == Extract(c.parse(c.cityResponse(cityName)).value, c.uninit)
  {
    Interpret(c.cityResponse(cityName), c.parse, c.uninit)
  }

  function GetWeatherByCoordinates(c: Client, latitude: real, longitude: real): (d: WeatherData)
    ensures var body := c.coordinateResponse(latitude, longitude);
            d.isValid <==> body != "" && c.parse(body).Some?
                           && !CodRejected(c.parse(body).value) && WellTyped(c.parse(body).value)
    ensures d.isValid ==> d == Extract(c.parse(c.coordinateResponse(latitude, longitude)).value, c.uninit)
  {
    Interpret(c.coordinateResponse(latitude, longitude), c.parse, c.uninit)
  }

  /** The printed report: the fixed error text for an invalid result, the
      bordered panel of its fields for a valid one. */
  datatype Report = ErrorText(text: string) | Panel(data: WeatherData)

  function FormatWeatherReport(d: WeatherData): (r: Report)
    ensures r.ErrorText? <==> !d.isValid
  {
    if !d.isValid then ErrorText(InvalidReport) else Panel(d)
  }

  /** The report of an invalid result interpolates none of its fields: every
      invalid result prints the same fixed text. */
  lemma InvalidReportIsFixed(d: WeatherData, e: WeatherData)
    requires !d.isValid && !e.isValid
    ensures FormatWeatherReport(d) == FormatWeatherReport(e) == ErrorText(InvalidReport)
  {
  }
}
