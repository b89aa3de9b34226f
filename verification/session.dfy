/**
 * A whole session: the welcome, then each input line in turn until a line
 * stops the loop.
 */
module Session {
  import opened Text
  import opened Notifications
  import opened WeatherBot

  /** The read loop over the lines still to come: an empty line is skipped,
      any other is processed, and nothing is read once the loop stopped. */
  function Run(s: State, lines: seq<string>, env: Env): Transition
    decreases |lines|
  {
    if lines == [] || !s.running then Idle(s)
    else
      var step := if lines[0] == "" then Idle(s) else ProcessCommand(s, lines[0], env);
      var rest := Run(step.after, lines[1..], env);
      Transition(rest.after, step.effects + rest.effects)
  }

  /** `start`: the banner, the welcome notification and the command
      reference, then the read loop. */
  function Start(lines: seq<string>, env: Env): Transition {
    var welcome := Notification(Welcome, Info);
    var rest := Run(State([welcome], true), lines, env);
    Transition(rest.after, [Banner, Echo(welcome), HelpText] + rest.effects)
  }

  predicate HasExit(lines: seq<string>) {
    exists i :: 0 <= i < |lines| && Verb(lines[i]) == Exit
  }

  /** An exit verb is among the lines exactly when it is on the first line
      or among the rest. */
  lemma HasExitCons(lines: seq<string>)
    requires lines != []
    ensures HasExit(lines) <==> Verb(lines[0]) == Exit || HasExit(lines[1..])
  {
    if HasExit(lines[1..]) {
      var i :| 0 <= i < |lines[1..]| && Verb(lines[1..][i]) == Exit;
      assert Verb(lines[i + 1]) == Exit;
    }
    if HasExit(lines) && Verb(lines[0]) != Exit {
      var i :| 0 <= i < |lines| && Verb(lines[i]) == Exit;
      assert lines[1..][i - 1] == lines[i];
    }
  }

  lemma Associative<T>(a: seq<T>, b: seq<T>, c: seq<T>)
    ensures a + b + c == a + (b + c)
  {
  }

  /** One line of the loop, empty or not, is the line processed. */
  lemma StepIsProcessCommand(s: State, line: string, env: Env)
    ensures (if line == "" then Idle(s) else ProcessCommand(s, line, env)) == ProcessCommand(s, line, env)
  {
    if line == "" {
      BlankLineIsIgnored(s, line, env);
    }
  }

  lemma StoppedRunIsIdle(s: State, lines: seq<string>, env: Env)
    requires !s.running
    ensures Run(s, lines, env) == Idle(s)
  {
  }

  /** One turn of a running loop with a line left to read. */
  lemma RunStep(s: State, lines: seq<string>, env: Env)
    requires lines != [] && s.running
    ensures var step := ProcessCommand(s, lines[0], env);
            var rest := Run(step.after, lines[1..], env);
            Run(s, lines, env) == Transition(rest.after, step.effects + rest.effects)
  {
    StepIsProcessCommand(s, lines[0], env);
  }

  /** The loop ends stopped exactly when it was already stopped or one of
      the lines has an exit verb. */
  lemma {:induction false} RunStopsIffExit(s: State, lines: seq<string>, env: Env)
    ensures !Run(s, lines, env).after.running <==> !s.running || HasExit(lines)
    decreases |lines|
  {
    if lines == [] || !s.running {
    } else {
      var line := lines[0];
      RunStep(s, lines, env);
      var step := ProcessCommand(s, line, env);
      OnlyExitStops(s, line, env);
      RunStopsIffExit(step.after, lines[1..], env);
      HasExitCons(lines);
      assert Run(s, lines, env).after == Run(step.after, lines[1..], env).after;
    }
  }

  /** Once a line stops the loop, the lines after it are never read. */
  lemma {:induction false} LinesAfterExitIgnored(s: State, lines: seq<string>, more: seq<string>, env: Env)
    requires HasExit(lines)
    ensures Run(s, lines + more, env) == Run(s, lines, env)
    decreases |lines|
  {
    if s.running {
      var line := lines[0];
      var tail := lines[1..];
      var step := ProcessCommand(s, line, env);
      assert (lines + more)[0] == line;
      assert (lines + more)[1..] == tail + more;
      if Verb(line) == Exit {
        OnlyExitStops(s, line, env);
        StoppedRunIsIdle(step.after, tail, env);
        StoppedRunIsIdle(step.after, tail + more, env);
      } else {
        HasExitCons(lines);
        LinesAfterExitIgnored(step.after, tail, more, env);
      }
      assert Run(step.after, tail + more, env) == Run(step.after, tail, env);
      RunStep(s, lines, env);
      RunStep(s, lines + more, env);
    }
  }

  /** Without a `clear`, the log at the end of the loop is the log at its
      start followed by every notification printed on the way. */
  lemma {:induction false} RunRecordsWhatItPrints(s: State, lines: seq<string>, env: Env)
    requires forall i :: 0 <= i < |lines| ==> Verb(lines[i]) != Clear
    ensures var t := Run(s, lines, env);
            t.after.log == s.log + Echoes(t.effects)
    decreases |lines|
  {
    if lines == [] || !s.running {
      assert s.log + [] == s.log;
    } else {
      var line := lines[0];
      RunStep(s, lines, env);
      var step := ProcessCommand(s, line, env);
      PrintedIsRecorded(s, line, env);
      RunRecordsWhatItPrints(step.after, lines[1..], env);
      var rest := Run(step.after, lines[1..], env);
      FiltersDistribute(step.effects, rest.effects);
      Associative(s.log, Echoes(step.effects), Echoes(rest.effects));
    }
  }

  /** The loop sends at most one query per line it reads. */
  lemma {:induction false} AtMostOneQueryPerLine(s: State, lines: seq<string>, env: Env)
    ensures |Fetches(Run(s, lines, env).effects)| <= |lines|
    decreases |lines|
  {
    if lines == [] || !s.running {
    } else {
      var line := lines[0];
      RunStep(s, lines, env);
      var step := ProcessCommand(s, line, env);
      AtMostOneQuery(s, line, env);
      AtMostOneQueryPerLine(step.after, lines[1..], env);
      FiltersDistribute(step.effects, Run(step.after, lines[1..], env).effects);
    }
  }

  /** A session opens with the banner, the welcome notification recorded as
      the first log entry, and the command reference. */
  lemma SessionOpens(lines: seq<string>, env: Env)
    requires forall i :: 0 <= i < |lines| ==> Verb(lines[i]) != Clear
    ensures var t := Start(lines, env);
            && t.effects[..3] == [Banner, Echo(Notification(Welcome, Info)), HelpText]
            && |t.after.log| >= 1 && t.after.log[0] == Notification(Welcome, Info)
  {
    var welcome := Notification(Welcome, Info);
    RunRecordsWhatItPrints(State([welcome], true), lines, env);
  }
}
