/**
 * The interactive test client: one mutable template, a writer on the
 * server connection, and the menu loop that dispatches on the user's
 * option. Console reads become fields of a Round; the clock becomes a
 * function from the number of lines already sent to the rendered time.
 */
module LogClient {
  import opened Wrappers
  import opened LogFormat
  import opened Wire
  import opened SeqLaws
  import opened ClientMessages

  /** A log entry the client sends on its own. */
  datatype Entry = Entry(level: LogLevel, message: string)

  /** The five entries of the "Auto" option, in sending order. */
  const AutoEntries: seq<Entry> := [
    Entry(Info, ConnectMessage),
    Entry(Info, AutoMessage),
    Entry(Error, DatabaseMessage),
    Entry(Warning, DiskMessage),
    Entry(Debug, DebugMessage)
  ]

  /** The preset a reconfiguration answer selects, if any. */
  function PresetFor(choice: string): (preset: Option<string>)
    ensures preset.Some? <==> choice == "1" || choice == "2" || choice == "3"
    ensures choice == "1" ==> preset == Some(DefaultFormat)
    ensures choice == "2" ==> preset == Some(LevelFirstFormat)
    ensures choice == "3" ==> preset == Some(MessageFirstFormat)
  {
    if choice == "1" then Some(DefaultFormat)
    else if choice == "2" then Some(LevelFirstFormat)
    else if choice == "3" then Some(MessageFirstFormat)
    else None
  }

  /** The template after the reconfiguration prompt is answered with `choice`. */
  function ChooseFormat(current: string, choice: string): (chosen: string)
    ensures choice != "1" && choice != "2" && choice != "3" ==> chosen == current
    ensures chosen == current || chosen in {DefaultFormat, LevelFirstFormat, MessageFirstFormat}
  {
    match PresetFor(choice)
    case Some(preset) => preset
    case None => current
  }

  /** The entries formatted with `template`, the first timestamped by clock(k), the next by clock(k + 1), and so on. */
  function Lines(template: string, entries: seq<Entry>, clock: nat -> string, k: nat): (lines: seq<string>)
    ensures |lines| == |entries|
  {
    seq(|entries|, i requires 0 <= i < |entries| =>
      FormatLine(template, entries[i].level, clock(k + i), entries[i].message))
  }

  /** A single entry makes a single line. */
  lemma LinesOfOne(template: string, entry: Entry, clock: nat -> string, k: nat)
    ensures Lines(template, [entry], clock, k) == [FormatLine(template, entry.level, clock(k), entry.message)]
  {
  }

  /** The five lines of the "Auto" option, written out. */
  lemma AutoLinesSpelled(template: string, clock: nat -> string, k: nat)
    ensures Lines(template, AutoEntries, clock, k) == [
      FormatLine(template, Info, clock(k), ConnectMessage),
      FormatLine(template, Info, clock(k + 1), AutoMessage),
      FormatLine(template, Error, clock(k + 2), DatabaseMessage),
      FormatLine(template, Warning, clock(k + 3), DiskMessage),
      FormatLine(template, Debug, clock(k + 4), DebugMessage)]
  {
  }

  /** The entries of a manual entry: the typed message when its level parsed, nothing otherwise. */
  function ManualEntries(message: string, level: Option<LogLevel>): (entries: seq<Entry>)
    ensures |entries| <= 1 && (|entries| == 1 <==> level.Some?)
    ensures level.Some? ==> entries[0] == Entry(level.value, message)
  {
    match level
    case Some(l) => [Entry(l, message)]
    case None => []
  }

  /**
   * Where the session is: waiting at the menu, or ended, either by "Exit"
   * returning from the loop (byExit) or by "Noisy" closing the writer and
   * ending the process.
   */
  datatype Status = MenuWait | Terminated(byExit: bool)

  /**
   * What the user types in one pass of the menu loop: the option, and for
   * the first two options the format choice; for "Manual" also the message
   * and the parsed level (None when the level name did not parse).
   */
  datatype Round = Round(option: string, formatChoice: string, message: string, level: Option<LogLevel>)

  /** The effect of some passes of the loop: the template, the lines sent, the status. */
  datatype Effect = Effect(template: string, lines: seq<string>, status: Status)

  predicate IsMenuOption(option: string)
  {
    option == "1" || option == "2" || option == "3" || option == "4"
  }

  /** One pass of the menu loop; k lines have been sent before it. */
  function Dispatch(template: string, r: Round, clock: nat -> string, k: nat): Effect
  {
    if r.option == "1" then
      var t := ChooseFormat(template, r.formatChoice);
      Effect(t, Lines(t, AutoEntries, clock, k), MenuWait)
    else if r.option == "2" then
      var t := ChooseFormat(template, r.formatChoice);
      Effect(t, Lines(t, ManualEntries(r.message, r.level), clock, k), MenuWait)
    else if r.option == "3" then
      Effect(template, [], Terminated(false))
    else if r.option == "4" then
      Effect(template, Lines(template, [Entry(Info, DisconnectMessage)], clock, k), Terminated(true))
    else
      Effect(template, [], MenuWait)
  }

  /**
   * Only the two logging options may change the template; "Noisy" and
   * "Exit" end the session; "Auto" sends five lines, a manual entry one
   * when its level parsed, "Exit" one, anything else none.
   */
  lemma DispatchShape(template: string, r: Round, clock: nat -> string, k: nat)
    ensures var e := Dispatch(template, r, clock, k);
      && (r.option != "1" && r.option != "2" ==> e.template == template)
      && e.status == (if r.option == "3" then Terminated(false)
                      else if r.option == "4" then Terminated(true)
                      else MenuWait)
      && |e.lines| == (if r.option == "1" then 5
                       else if r.option == "2" && r.level.Some? then 1
                       else if r.option == "4" then 1
                       else 0)
  {
  }

  /** The menu loop over the user's rounds, stopping at the first terminating option. */
  function Play(template: string, rounds: seq<Round>, clock: nat -> string, k: nat): Effect
    decreases |rounds|
  {
    if rounds == [] then Effect(template, [], MenuWait)
    else
      var e := Dispatch(template, rounds[0], clock, k);
      if e.status.Terminated? then e
      else
        var rest := Play(e.template, rounds[1..], clock, k + |e.lines|);
        Effect(rest.template, e.lines + rest.lines, rest.status)
  }

  class LoggingTestClient {
    /** The active template. */
    var logMessageFormat: string
    /** The lines written to the server so far, in order; Stream(sent) is the text on the connection. */
    var sent: seq<string>
    var status: Status

    /** A freshly connected client with the default template. */
    constructor ()
      ensures logMessageFormat == DefaultFormat && sent == [] && status == MenuWait
    {
      logMessageFormat := DefaultFormat;
      sent := [];
      status := MenuWait;
    }

    /** Writes the line and a terminator, then flushes. */
    method SendLogMessage(line: string)
      modifies this`sent
      ensures sent == old(sent) + [line]
      ensures Stream(sent) == Stream(old(sent)) + line + NewLine
    {
      StreamAppend(sent, line);
      sent := sent + [line];
    }

    /** Formats an entry with the active template and the current clock reading, then sends it. */
    method LogMessage(level: LogLevel, message: string, clock: nat -> string)
      modifies this`sent
      ensures sent == old(sent) + [FormatLine(logMessageFormat, level, clock(|old(sent)|), message)]
    {
      var line := FormatLine(logMessageFormat, level, clock(|sent|), message);
      SendLogMessage(line);
    }

    /** Replaces the template by the chosen preset; any other answer keeps it. */
    method ConfigureLogFormat(choice: string)
      modifies this`logMessageFormat
      ensures logMessageFormat == ChooseFormat(old(logMessageFormat), choice)
    {
      if choice == "1" {
        logMessageFormat := DefaultFormat;
      } else if choice == "2" {
        logMessageFormat := LevelFirstFormat;
      } else if choice == "3" {
        logMessageFormat := MessageFirstFormat;
      }
    }

    /** Reconfigures, then sends the five fixed entries with the new template. */
    method AutoLogs(choice: string, clock: nat -> string)
      modifies this`logMessageFormat, this`sent
      ensures logMessageFormat == ChooseFormat(old(logMessageFormat), choice)
      ensures sent == old(sent) + Lines(logMessageFormat, AutoEntries, clock, |old(sent)|)
    {
      ConfigureLogFormat(choice);
      ghost var s := sent;
      AutoLinesSpelled(logMessageFormat, clock, |sent|);
      LogMessage(Info, ConnectMessage, clock);
      ghost var s1 := sent;
      LogMessage(Info, AutoMessage, clock);
      ghost var s2 := sent;
      LogMessage(Error, DatabaseMessage, clock);
      ghost var s3 := sent;
      LogMessage(Warning, DiskMessage, clock);
      ghost var s4 := sent;
      LogMessage(Debug, DebugMessage, clock);
      AppendFive(s, s1[|s|], s2[|s1|], s3[|s2|], s4[|s3|], sent[|s4|]);
    }

    /** Reconfigures, then sends the typed message if its level parsed. */
    method ManualLogEntry(choice: string, message: string, level: Option<LogLevel>, clock: nat -> string)
      modifies this`logMessageFormat, this`sent
      ensures logMessageFormat == ChooseFormat(old(logMessageFormat), choice)
      ensures sent == old(sent) + Lines(logMessageFormat, ManualEntries(message, level), clock, |old(sent)|)
    {
      ConfigureLogFormat(choice);
      match level {
        case Some(l) =>
          LinesOfOne(logMessageFormat, Entry(l, message), clock, |sent|);
          LogMessage(l, message, clock);
        case None =>
      }
    }

    /** Closes the connection and ends the process without sending anything. */
    method NoisyLogs()
      modifies this`status
      ensures status == Terminated(false)
    {
      status := Terminated(false);
    }

    /** Sends the disconnect entry with the active template. */
    method Exit(clock: nat -> string)
      modifies this`sent
      ensures sent == old(sent) + Lines(logMessageFormat, [Entry(Info, DisconnectMessage)], clock, |old(sent)|)
    {
      LinesOfOne(logMessageFormat, Entry(Info, DisconnectMessage), clock, |sent|);
      LogMessage(Info, DisconnectMessage, clock);
    }

    /** One pass of the menu loop. */
    method Step(r: Round, clock: nat -> string)
      modifies this
      ensures var e := Dispatch(old(logMessageFormat), r, clock, |old(sent)|);
        logMessageFormat == e.template && sent == old(sent) + e.lines && status == e.status
    {
      if r.option == "1" {
        AutoLogs(r.formatChoice, clock);
        status := MenuWait;
      } else if r.option == "2" {
        ManualLogEntry(r.formatChoice, r.message, r.level, clock);
        status := MenuWait;
      } else if r.option == "3" {
        NoisyLogs();
      } else if r.option == "4" {
        Exit(clock);
        status := Terminated(true);
      } else {
        status := MenuWait;
      }
    }

    /**
     * The menu loop: runs the user's rounds until one ends the session or
     * the input is exhausted.
     */
    method Run(rounds: seq<Round>, clock: nat -> string)
      requires status == MenuWait
      modifies this
      ensures var e := Play(old(logMessageFormat), rounds, clock, |old(sent)|);
        logMessageFormat == e.template && sent == old(sent) + e.lines && status == e.status
    {
      ghost var s0 := sent;
      ghost var whole := Play(logMessageFormat, rounds, clock, |sent|);
      ghost var out: seq<string> := [];
      var i := 0;
      AppendEmpty(whole.lines);
      while i < |rounds| && status == MenuWait
        invariant 0 <= i <= |rounds|
        invariant sent == s0 + out
        invariant status == MenuWait ==>
          whole == After(out, Play(logMessageFormat, rounds[i..], clock, |sent|))
        invariant status != MenuWait ==> whole == Effect(logMessageFormat, out, status)
      {
        var r := rounds[i];
        ghost var e := Dispatch(logMessageFormat, r, clock, |sent|);
        PlayAdvance(whole, rounds, i, logMessageFormat, out, clock, |sent|, e);
        Step(r, clock);
        Associative(s0, out, e.lines);
        out := out + e.lines;
        i := i + 1;
      }
      if status == MenuWait {
        AppendEmpty(out);
      }
    }
  }

  /** The lines `out` already sent, followed by the effect `p` of the remaining rounds. */
  function After(out: seq<string>, p: Effect): Effect
  {
    Effect(p.template, out + p.lines, p.status)
  }

  /** The first round's pass, then, unless it ended the session, the rest. */
  lemma PlayHead(template: string, rounds: seq<Round>, clock: nat -> string, k: nat)
    requires rounds != []
    ensures var e := Dispatch(template, rounds[0], clock, k);
      Play(template, rounds, clock, k)
        == if e.status.Terminated? then e
           else After(e.lines, Play(e.template, rounds[1..], clock, k + |e.lines|))
  {
  }

  /** The rounds from the i-th on: the i-th round's pass, then, unless it ended the session, the rest. */
  lemma PlayFrom(template: string, rounds: seq<Round>, i: nat, clock: nat -> string, k: nat)
    requires i < |rounds|
    ensures var e := Dispatch(template, rounds[i], clock, k);
      Play(template, rounds[i..], clock, k)
        == if e.status.Terminated? then e
           else After(e.lines, Play(e.template, rounds[i + 1..], clock, k + |e.lines|))
  {
    assert rounds[i..][0] == rounds[i];
    assert rounds[i..][1..] == rounds[i + 1..];
  }

  /** Lines sent in two stretches are the lines of both, in order. */
  lemma AfterAfter(out: seq<string>, lines: seq<string>, p: Effect)
    ensures After(out, After(lines, p)) == After(out + lines, p)
  {
    Associative(out, lines, p.lines);
  }

  /**
   * One more pass of the loop: if the session `whole` went on to round i
   * with the template `template` after sending `out` (k lines in all), and
   * round i has the effect `e`, then the session either goes on to round
   * i + 1 or has ended with `e`.
   */
  lemma PlayAdvance(whole: Effect, rounds: seq<Round>, i: nat, template: string, out: seq<string>,
                    clock: nat -> string, k: nat, e: Effect)
    requires i < |rounds| && e == Dispatch(template, rounds[i], clock, k)
    requires whole == After(out, Play(template, rounds[i..], clock, k))
    ensures e.status.MenuWait? ==>
      whole == After(out + e.lines, Play(e.template, rounds[i + 1..], clock, k + |e.lines|))
    ensures !e.status.MenuWait? ==> whole == Effect(e.template, out + e.lines, e.status)
  {
    PlayFrom(template, rounds, i, clock, k);
    AfterAfter(out, e.lines, Play(e.template, rounds[i + 1..], clock, k + |e.lines|));
  }

  // ---------------------------------------------------------------------
  // Properties of the session.
  // ---------------------------------------------------------------------

  /**
   * The line the user gets after answering the reconfiguration prompt with
   * "1", "2" or "3": the layout printed next to that answer, whatever the
   * template was before.
   */
  lemma ChosenFormatLine(current: string, choice: string, level: LogLevel, timestamp: string, message: string)
    requires choice == "1" || choice == "2" || choice == "3"
    requires '{' !in timestamp
    ensures FormatLine(ChooseFormat(current, choice), level, timestamp, message)
         == if choice == "1" then "[" + timestamp + "] [" + LevelName(level) + "]: " + message
            else if choice == "2" then "[" + LevelName(level) + "] " + timestamp + ": " + message
            else message + ": [" + LevelName(level) + "] " + timestamp
  {
    PresetLines(level, timestamp, message);
  }

  /** With the default template, "Auto" sends these five lines, in this order. */
  lemma AutoLinesWithDefaultFormat(clock: nat -> string, k: nat)
    requires forall j :: k <= j < k + 5 ==> '{' !in clock(j)
    ensures Lines(DefaultFormat, AutoEntries, clock, k) == [
      "[" + clock(k) + "] [" + "Info" + "]: " + ConnectMessage,
      "[" + clock(k + 1) + "] [" + "Info" + "]: " + AutoMessage,
      "[" + clock(k + 2) + "] [" + "Error" + "]: " + DatabaseMessage,
      "[" + clock(k + 3) + "] [" + "Warning" + "]: " + DiskMessage,
      "[" + clock(k + 4) + "] [" + "Debug" + "]: " + DebugMessage]
  {
    AutoLinesSpelled(DefaultFormat, clock, k);
    assert '{' !in clock(k) && '{' !in clock(k + 1) && '{' !in clock(k + 2);
    assert '{' !in clock(k + 3) && '{' !in clock(k + 4);
    PresetLines(Info, clock(k), ConnectMessage);
    PresetLines(Info, clock(k + 1), AutoMessage);
    PresetLines(Error, clock(k + 2), DatabaseMessage);
    PresetLines(Warning, clock(k + 3), DiskMessage);
    PresetLines(Debug, clock(k + 4), DebugMessage);
  }

  /** Once a prefix of the rounds has ended the session, later rounds change nothing. */
  lemma {:induction false} PlayStopsAtTermination(template: string, rounds: seq<Round>, more: seq<Round>, clock: nat -> string, k: nat)
    requires Play(template, rounds, clock, k).status.Terminated?
    ensures Play(template, rounds + more, clock, k) == Play(template, rounds, clock, k)
    decreases |rounds|
  {
    assert rounds != [];
    HeadTailAppend(rounds, more);
    var e := Dispatch(template, rounds[0], clock, k);
    PlayHead(template, rounds, clock, k);
    PlayHead(template, rounds + more, clock, k);
    if e.status.MenuWait? {
      PlayStopsAtTermination(e.template, rounds[1..], more, clock, k + |e.lines|);
    }
  }

  /** A round with an unknown option sends nothing and leaves the template alone. */
  lemma InvalidOptionIsIgnored(template: string, r: Round, rounds: seq<Round>, clock: nat -> string, k: nat)
    requires !IsMenuOption(r.option)
    ensures Play(template, [r] + rounds, clock, k) == Play(template, rounds, clock, k)
  {
    assert ([r] + rounds)[1..] == rounds;
  }

  /** "Exit" sends exactly the disconnect entry with the active template and ends the session. */
  lemma ExitSendsDisconnect(template: string, r: Round, rounds: seq<Round>, clock: nat -> string, k: nat)
    requires r.option == "4"
    ensures Play(template, [r] + rounds, clock, k)
         == Effect(template, [FormatLine(template, Info, clock(k), DisconnectMessage)], Terminated(true))
  {
    LinesOfOne(template, Entry(Info, DisconnectMessage), clock, k);
  }

  /** "Noisy" ends the session at once, sending nothing. */
  lemma NoisySendsNothing(template: string, r: Round, rounds: seq<Round>, clock: nat -> string, k: nat)
    requires r.option == "3"
    ensures Play(template, [r] + rounds, clock, k) == Effect(template, [], Terminated(false))
  {
  }

  /** A manual entry whose level did not parse sends nothing but keeps the reconfigured template. */
  lemma UnparsedLevelSendsNothing(template: string, r: Round, clock: nat -> string, k: nat)
    requires r.option == "2" && r.level.None?
    ensures Dispatch(template, r, clock, k) == Effect(ChooseFormat(template, r.formatChoice), [], MenuWait)
  {
  }

  /** No pass of the loop sends more than five lines. */
  lemma {:induction false} PlayLineBound(template: string, rounds: seq<Round>, clock: nat -> string, k: nat)
    ensures |Play(template, rounds, clock, k).lines| <= 5 * |rounds|
    decreases |rounds|
  {
    if rounds != [] {
      var e := Dispatch(template, rounds[0], clock, k);
      PlayHead(template, rounds, clock, k);
      if e.status.MenuWait? {
        PlayLineBound(e.template, rounds[1..], clock, k + |e.lines|);
      }
    }
  }

  /** Neither the typed messages nor the clock readings hold a line terminator. */
  ghost predicate SingleLineInput(rounds: seq<Round>, clock: nat -> string)
  {
    && (forall i :: 0 <= i < |rounds| ==> '\n' !in rounds[i].message)
    && (forall j: nat :: '\n' !in clock(j))
  }

  /** The rounds after the first keep the inputs free of terminators. */
  lemma SingleLineInputTail(rounds: seq<Round>, clock: nat -> string)
    requires rounds != [] && SingleLineInput(rounds, clock)
    ensures SingleLineInput(rounds[1..], clock)
  {
    forall i | 0 <= i < |rounds[1..]|
      ensures '\n' !in rounds[1..][i].message
    {
      assert rounds[1..][i] == rounds[i + 1];
    }
  }

  /** Entries and a template without terminators are formatted into lines without terminators. */
  lemma LinesSingleLine(template: string, entries: seq<Entry>, clock: nat -> string, k: nat)
    requires '\n' !in template
    requires forall i :: 0 <= i < |entries| ==> '\n' !in entries[i].message
    requires forall j: nat :: '\n' !in clock(j)
    ensures SingleLines(Lines(template, entries, clock, k))
  {
    forall i | 0 <= i < |entries|
      ensures '\n' !in Lines(template, entries, clock, k)[i]
    {
      FormatLineCharacters(template, entries[i].level, clock(k + i), entries[i].message);
    }
  }

  /** The fixed messages the client sends hold no line terminator. */
  lemma FixedMessagesSingleLine()
    ensures forall i :: 0 <= i < |AutoEntries| ==> '\n' !in AutoEntries[i].message
    ensures '\n' !in DisconnectMessage
  {
    ConnectSingleLine();
    AutoSingleLine();
    DatabaseSingleLine();
    DiskSingleLine();
    DebugSingleLine();
    DisconnectSingleLine();
  }

  /** One pass of the loop keeps the template free of terminators and sends no line holding one. */
  lemma DispatchSingleLine(template: string, r: Round, clock: nat -> string, k: nat)
    requires '\n' !in template && '\n' !in r.message
    requires forall j: nat :: '\n' !in clock(j)
    ensures '\n' !in Dispatch(template, r, clock, k).template
    ensures SingleLines(Dispatch(template, r, clock, k).lines)
  {
    DefaultSingleLine();
    LevelFirstSingleLine();
    MessageFirstSingleLine();
    FixedMessagesSingleLine();
    var t := ChooseFormat(template, r.formatChoice);
    if r.option == "1" {
      LinesSingleLine(t, AutoEntries, clock, k);
    } else if r.option == "2" {
      LinesSingleLine(t, ManualEntries(r.message, r.level), clock, k);
    } else if r.option == "4" {
      LinesSingleLine(template, [Entry(Info, DisconnectMessage)], clock, k);
    }
  }

  /** A pass that keeps the menu open, followed by the rest of the session. */
  lemma PlaySingleLineStep(template: string, rounds: seq<Round>, clock: nat -> string, k: nat)
    requires rounds != []
    requires Dispatch(template, rounds[0], clock, k).status.MenuWait?
    requires SingleLines(Dispatch(template, rounds[0], clock, k).lines)
    requires SingleLines(Play(Dispatch(template, rounds[0], clock, k).template, rounds[1..], clock,
                              k + |Dispatch(template, rounds[0], clock, k).lines|).lines)
    ensures SingleLines(Play(template, rounds, clock, k).lines)
  {
    var e := Dispatch(template, rounds[0], clock, k);
    PlayHead(template, rounds, clock, k);
    SingleLinesAppend(e.lines, Play(e.template, rounds[1..], clock, k + |e.lines|).lines);
  }

  /** A whole session sends no line holding a terminator. */
  lemma {:induction false} PlaySingleLine(template: string, rounds: seq<Round>, clock: nat -> string, k: nat)
    requires '\n' !in template && SingleLineInput(rounds, clock)
    ensures SingleLines(Play(template, rounds, clock, k).lines)
    decreases |rounds|
  {
    if rounds != [] {
      var e := Dispatch(template, rounds[0], clock, k);
      DispatchSingleLine(template, rounds[0], clock, k);
      if e.status.MenuWait? {
        SingleLineInputTail(rounds, clock);
        PlaySingleLine(e.template, rounds[1..], clock, k + |e.lines|);
        PlaySingleLineStep(template, rounds, clock, k);
      } else {
        PlayHead(template, rounds, clock, k);
      }
    }
  }

  /**
   * The server's line reader recovers, in order, exactly the lines the loop
   * sent, provided the template, the typed messages and the clock readings
   * hold no terminator.
   */
  lemma ServerReadsPlayedLines(template: string, rounds: seq<Round>, clock: nat -> string, k: nat)
    requires '\n' !in template && SingleLineInput(rounds, clock)
    ensures ReadLines(Stream(Play(template, rounds, clock, k).lines)) == Play(template, rounds, clock, k).lines
  {
    PlaySingleLine(template, rounds, clock, k);
    ReadLinesInverts(Play(template, rounds, clock, k).lines);
  }

  /** A whole session, which starts from the default format, is read back line for line. */
  lemma ServerReadsSessionLines(rounds: seq<Round>, clock: nat -> string)
    requires SingleLineInput(rounds, clock)
    ensures ReadLines(Stream(Play(DefaultFormat, rounds, clock, 0).lines)) == Play(DefaultFormat, rounds, clock, 0).lines
  {
    DefaultSingleLine();
    ServerReadsPlayedLines(DefaultFormat, rounds, clock, 0);
  }
}
