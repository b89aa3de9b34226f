/**
 * The notification log of the weather bot: an append-only sequence of
 * messages, each tagged with one of four severities, that is emptied only by
 * an explicit clear (which then records that it cleared).
 *
 * Timestamps are not part of this model: a notification is its message and
 * its severity.
 */
module Notifications {
  import opened Wrappers

  /** The closed set of notification types. */
  datatype Severity = Info | Warning | Error | Success

  datatype Notification = Notification(message: string, severity: Severity)

  /** The log, oldest entry first. */
  type Log = seq<Notification>

  const ClearedMessage: string := "All notifications cleared."
  const EmptyHistory: string := "No notifications."
  const AlertPrefix: string := "Weather Alert for "
  const AlertSeparator: string := ": "

  /** The banner lines framing a non-empty history listing. */
  const Rule: string := "═══════════════════════════════════════"
  const Title: string := "         NOTIFICATION HISTORY          "
  const Header: seq<string> := ["", Rule, Title, Rule]
  const Footer: seq<string> := [Rule, ""]

  /** The symbol printed in front of a notification of the given type. */
  function Symbol(t: Severity): (r: string)
    ensures |r| == 3 && r[0] == '[' && r[2] == ']'
  {
    match t
    case Info => "[i]"
    case Warning => "[!]"
    case Error => "[X]"
    case Success => "[\U{2713}]"
  }

  /** The console colour a notification of the given type is printed in. */
  function Color(t: Severity): string {
    match t
    case Info => "blue"
    case Warning => "yellow"
    case Error => "red"
    case Success => "green"
  }

  /** Reads a printed symbol back to the severity it stands for. */
  function SeverityOfSymbol(sym: string): (r: Option<Severity>)
    ensures r.Some? ==> Symbol(r.value) == sym
  {
    if sym == "[i]" then Some(Info)
    else if sym == "[!]" then Some(Warning)
    else if sym == "[X]" then Some(Error)
    else if sym == "[\U{2713}]" then Some(Success)
    else None
  }

  /** Reads a colour name back to the severity printed in it. */
  function SeverityOfColor(color: string): (r: Option<Severity>)
    ensures r.Some? ==> Color(r.value) == color
  {
    if color == "blue" then Some(Info)
    else if color == "yellow" then Some(Warning)
    else if color == "red" then Some(Error)
    else if color == "green" then Some(Success)
    else None
  }

  /** The symbol and colour tables are total and one-to-one: each severity is
      recovered from its symbol and from its colour. */
  lemma PresentationIsInjective(t: Severity)
    ensures SeverityOfSymbol(Symbol(t)) == Some(t)
    ensures SeverityOfColor(Color(t)) == Some(t)
    ensures forall u: Severity :: Symbol(u) == Symbol(t) ==> u == t
    ensures forall u: Severity :: Color(u) == Color(t) ==> u == t
  {
    forall u: Severity | Symbol(u) == Symbol(t) ensures u == t {
      assert SeverityOfSymbol(Symbol(u)) == Some(u);
    }
  }

  /** Appends one notification at the end of the log. */
  function ShowNotification(log: Log, message: string, severity: Severity): (r: Log)
    ensures |r| == |log| + 1
    ensures r[..|log|] == log
    ensures r[|log|] == Notification(message, severity)
  {
    log + [Notification(message, severity)]
  }

  /** The message of a weather alert about `condition` in `city`. */
  function AlertMessage(city: string, condition: string): (m: string)
    ensures |m| == |AlertPrefix| + |city| + |AlertSeparator| + |condition|
  {
    AlertPrefix + city + AlertSeparator + condition
  }

  /** Recovers the city from an alert message, given its condition. */
  function AlertCity(message: string, condition: string): Option<string> {
    var head := |AlertPrefix|;
    var tail := |AlertSeparator| + |condition|;
    if head + tail <= |message|
       && message[..head] == AlertPrefix
       && message[|message| - tail..] == AlertSeparator + condition
    then Some(message[head..|message| - tail])
    else None
  }

  /** The alert template loses nothing: the city can be read back, so two
      alerts about the same condition in different cities differ. */
  lemma AlertCityRoundTrip(city: string, condition: string)
    ensures AlertCity(AlertMessage(city, condition), condition) == Some(city)
  {
    var m := AlertMessage(city, condition);
    assert m == AlertPrefix + city + (AlertSeparator + condition);
  }

  /** Alerts for one city with different conditions have different
      messages. */
  lemma AlertMessageDeterminesCondition(city: string, c1: string, c2: string)
    ensures AlertMessage(city, c1) == AlertMessage(city, c2) ==> c1 == c2
  {
    var k := |AlertPrefix| + |city| + |AlertSeparator|;
    assert AlertMessage(city, c1)[k..] == c1;
    assert AlertMessage(city, c2)[k..] == c2;
  }

  /** Appends one warning announcing `condition` for `city`. */
  function ShowWeatherAlert(log: Log, city: string, condition: string): (r: Log)
    ensures |r| == |log| + 1
    ensures r[..|log|] == log
    ensures r[|log|] == Notification(AlertPrefix + city + AlertSeparator + condition, Warning)
  {
    ShowNotification(log, AlertMessage(city, condition), Warning)
  }

  /** Forgets every entry, then records that the log was cleared. */
  function ClearNotifications(log: Log): (r: Log)
    ensures |r| == 1
    ensures r[0].severity == Info
  {
    ShowNotification([], ClearedMessage, Info)
  }

  /** The printed form of one notification: its symbol, a space, its message. */
  function Row(n: Notification): (row: string)
    ensures |row| == |n.message| + 4
    ensures row[..3] == Symbol(n.severity)
    ensures row[3] == ' ' && row[4..] == n.message
  {
    Symbol(n.severity) + " " + n.message
  }

  /** The rows of one row per notification, in log order. */
  function Rows(log: Log): (rows: seq<string>)
    ensures |rows| == |log|
    ensures forall i :: 0 <= i < |log| ==> rows[i] == Row(log[i])
  {
    seq(|log|, i requires 0 <= i < |log| => Row(log[i]))
  }

  /** The history listing: a fixed line for an empty log, otherwise every
      entry in insertion order between a header and a footer. */
  function Render(log: Log): (rows: seq<string>)
    ensures log == [] ==> rows == [EmptyHistory]
    ensures log != [] ==> |rows| == |Header| + |log| + |Footer|
    ensures log != [] ==> forall i :: 0 <= i < |log| ==> rows[|Header| + i] == Row(log[i])
  {
    if log == [] then [EmptyHistory] else Header + Rows(log) + Footer
  }

  /** Reads one printed row back into a notification. */
  function ParseRow(row: string): Option<Notification> {
    if |row| < 4 || row[3] != ' ' then None
    else match SeverityOfSymbol(row[..3])
      case None => None
      case Some(t) => Some(Notification(row[4..], t))
  }

  /** Reads a sequence of printed rows back into notifications. */
  function ParseRows(rows: seq<string>): Option<Log>
    decreases |rows|
  {
    if rows == [] then Some([])
    else match ParseRow(rows[0])
      case None => None
      case Some(n) =>
        match ParseRows(rows[1..])
        case None => None
        case Some(rest) => Some([n] + rest)
  }

  /** Reads a whole history listing back into the log it shows. */
  function ParseHistory(rows: seq<string>): Option<Log> {
    if rows == [EmptyHistory] then Some([])
    else if |rows| >= |Header| + |Footer| + 1
            && rows[..|Header|] == Header
            && rows[|rows| - |Footer|..] == Footer
    then ParseRows(rows[|Header|..|rows| - |Footer|])
    else None
  }

  lemma {:induction false} ParseRowsRoundTrip(log: Log)
    ensures ParseRows(Rows(log)) == Some(log)
    decreases |log|
  {
    if log != [] {
      var n := log[0];
      PresentationIsInjective(n.severity);
      assert Row(n)[..3] == Symbol(n.severity);
      assert ParseRow(Row(n)) == Some(n);
      assert Rows(log)[1..] == Rows(log[1..]);
      ParseRowsRoundTrip(log[1..]);
      assert log == [n] + log[1..];
    }
  }

  /** The history listing shows exactly the log: every entry, in insertion
      order, with the symbol of its own severity, and nothing else. */
  lemma RenderRoundTrip(log: Log)
    ensures ParseHistory(Render(log)) == Some(log)
  {
    if log != [] {
      var rows := Render(log);
      assert rows[..|Header|] == Header;
      assert rows[|rows| - |Footer|..] == Footer;
      assert rows[|Header|..|rows| - |Footer|] == Rows(log);
      assert rows != [EmptyHistory];
      ParseRowsRoundTrip(log);
    }
  }

  /** After a clear the log holds the single "cleared" entry whatever it held
      before, so its listing is never the empty-history line. */
  lemma ClearLeavesOneEntry(log: Log)
    ensures ClearNotifications(log) == [Notification(ClearedMessage, Info)]
    ensures Render(ClearNotifications(log)) != [EmptyHistory]
  {
  }
}
