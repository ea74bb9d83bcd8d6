/**
 * The client's log-line formatter: a template string whose placeholder
 * tokens are replaced literally, level first, then timestamp, then message.
 */
module LogFormat {
  import opened TextReplace
  import opened SeqLaws

  /** The client's log levels, in declaration order. */
  datatype LogLevel = Info | Error | Warning | Debug | Custom | Fatal

  /** The level's name as the enum's ToString renders it. */
  function LevelName(level: LogLevel): (name: string)
    ensures |name| > 0 && '{' !in name && '\n' !in name
  {
    match level
    case Info => "Info"
    case Error => "Error"
    case Warning => "Warning"
    case Debug => "Debug"
    case Custom => "Custom"
    case Fatal => "Fatal"
  }

  const LevelToken: string := "{level}"
  const TimestampToken: string := "{timestamp}"
  const MessageToken: string := "{message}"

  /** The three templates the user can choose; the first is also the start-up default. */
  const DefaultFormat: string := "[{timestamp}] [{level}]: {message}"
  const LevelFirstFormat: string := "[{level}] {timestamp}: {message}"
  const MessageFirstFormat: string := "{message}: [{level}] {timestamp}"

  /**
   * One rendered log line. `timestamp` is the clock reading already rendered
   * as text; the three replacements run in the source's order.
   */
  function FormatLine(template: string, level: LogLevel, timestamp: string, message: string): string
  {
    ReplaceAll(ReplaceAll(ReplaceAll(template, LevelToken, LevelName(level)),
                          TimestampToken, timestamp),
               MessageToken, message)
  }

  // None of the three preset formats holds a line terminator; one lemma
  // each, because the verifier handles one literal at a time far more cheaply.

  lemma DefaultSingleLine()
    ensures '\n' !in DefaultFormat
  {
  }

  lemma LevelFirstSingleLine()
    ensures '\n' !in LevelFirstFormat
  {
  }

  lemma MessageFirstSingleLine()
    ensures '\n' !in MessageFirstFormat
  {
  }

  /** Every character of a formatted line comes from the template or one of the three values. */
  lemma FormatLineCharacters(template: string, level: LogLevel, timestamp: string, message: string)
    ensures forall c :: c in FormatLine(template, level, timestamp, message) ==>
      c in template || c in LevelName(level) || c in timestamp || c in message
  {
    var s1 := ReplaceAll(template, LevelToken, LevelName(level));
    ReplaceCharacters(template, LevelToken, LevelName(level));
    ReplaceCharacters(s1, TimestampToken, timestamp);
    ReplaceCharacters(ReplaceAll(s1, TimestampToken, timestamp), MessageToken, message);
  }

  // ---------------------------------------------------------------------
  // An independent description of templates: literal text and placeholders.
  // ---------------------------------------------------------------------

  datatype Placeholder = Timestamp | Level | Message

  function TokenOf(p: Placeholder): (tok: string)
    ensures |tok| >= 2 && tok[0] == '{' && '{' !in tok[1..]
  {
    match p
    case Timestamp => TimestampToken
    case Level => LevelToken
    case Message => MessageToken
  }

  /** A template piece: text copied verbatim, or a placeholder. */
  datatype Piece = Text(text: string) | Slot(slot: Placeholder)

  /** The template string a sequence of pieces spells. */
  function Render(ps: seq<Piece>): string
  {
    if ps == [] then []
    else Spell(ps[0]) + Render(ps[1..])
  }

  function Spell(piece: Piece): string
  {
    match piece
    case Text(t) => t
    case Slot(p) => TokenOf(p)
  }

  /** What a piece stands for in the expansion. */
  function Value(piece: Piece, level: LogLevel, timestamp: string, message: string): string
  {
    match piece
    case Text(t) => t
    case Slot(Level) => LevelName(level)
    case Slot(Timestamp) => timestamp
    case Slot(Message) => message
  }

  /** The line a template ought to produce: each placeholder stands for its value. */
  function Expand(ps: seq<Piece>, level: LogLevel, timestamp: string, message: string): string
  {
    if ps == [] then []
    else Value(ps[0], level, timestamp, message) + Expand(ps[1..], level, timestamp, message)
  }

  /** No literal text contains '{', the character every placeholder starts with. */
  predicate Plain(ps: seq<Piece>)
  {
    forall i :: 0 <= i < |ps| && ps[i].Text? ==> '{' !in ps[i].text
  }

  /** The pieces with placeholder `p` turned into the literal text `value`. */
  function Fill(ps: seq<Piece>, p: Placeholder, value: string): (r: seq<Piece>)
    ensures |r| == |ps|
    ensures forall i :: 0 <= i < |ps| ==> r[i] == (if ps[i] == Slot(p) then Text(value) else ps[i])
  {
    if ps == [] then []
    else [if ps[0] == Slot(p) then Text(value) else ps[0]] + Fill(ps[1..], p, value)
  }

  /** One replacement step acts on the rendered template exactly as Fill acts on its pieces. */
  lemma {:induction false} ReplaceRendersFill(ps: seq<Piece>, p: Placeholder, value: string)
    requires Plain(ps)
    ensures ReplaceAll(Render(ps), TokenOf(p), value) == Render(Fill(ps, p, value))
  {
    var pat := TokenOf(p);
    if ps == [] {
      ReplaceShort([], pat, value);
    } else {
      var rest := Render(ps[1..]);
      var fps := Fill(ps, p, value);
      assert fps[1..] == Fill(ps[1..], p, value);
      assert Plain(ps[1..]) by {
        forall i | 0 <= i < |ps[1..]| && ps[1..][i].Text? ensures '{' !in ps[1..][i].text {
          assert ps[1..][i] == ps[i + 1];
        }
      }
      ReplaceRendersFill(ps[1..], p, value);
      match ps[0]
      case Text(t) =>
        assert '{' !in t by { assert ps[0].Text?; }
        ReplaceSkipsPlain(t, rest, pat, value);
      case Slot(q) =>
        if q == p {
          ReplaceAtMatch(rest, pat, value);
        } else {
          ReplaceAtMismatch(TokenOf(q), rest, pat, value);
        }
    }
  }

  /** Filling a plain template with text free of '{' keeps it plain. */
  lemma FillKeepsPlain(ps: seq<Piece>, p: Placeholder, value: string)
    requires Plain(ps) && '{' !in value
    ensures Plain(Fill(ps, p, value))
  {
  }

  /** Filling the three placeholders in turn spells the expansion. */
  lemma {:induction false} FillAllExpands(ps: seq<Piece>, level: LogLevel, timestamp: string, message: string)
    ensures Render(Fill(Fill(Fill(ps, Level, LevelName(level)), Timestamp, timestamp), Message, message))
         == Expand(ps, level, timestamp, message)
  {
    if ps != [] {
      var f1 := Fill(ps, Level, LevelName(level));
      var f2 := Fill(f1, Timestamp, timestamp);
      var f3 := Fill(f2, Message, message);
      assert f1[1..] == Fill(ps[1..], Level, LevelName(level));
      assert f2[1..] == Fill(f1[1..], Timestamp, timestamp);
      assert f3[1..] == Fill(f2[1..], Message, message);
      FillAllExpands(ps[1..], level, timestamp, message);
    }
  }

  /**
   * Formatting a template made of plain text and placeholders yields its
   * expansion: every placeholder is replaced by its value, text is kept,
   * and the message, inserted last, is never re-substituted. The timestamp
   * must not bring in a '{' of its own.
   */
  lemma FormatExpands(ps: seq<Piece>, level: LogLevel, timestamp: string, message: string)
    requires Plain(ps) && '{' !in timestamp
    ensures FormatLine(Render(ps), level, timestamp, message) == Expand(ps, level, timestamp, message)
  {
    var f1 := Fill(ps, Level, LevelName(level));
    var f2 := Fill(f1, Timestamp, timestamp);
    ReplaceRendersFill(ps, Level, LevelName(level));
    FillKeepsPlain(ps, Level, LevelName(level));
    ReplaceRendersFill(f1, Timestamp, timestamp);
    FillKeepsPlain(f1, Timestamp, timestamp);
    ReplaceRendersFill(f2, Message, message);
    FillAllExpands(ps, level, timestamp, message);
  }

  /** A template holding none of the three tokens comes back unchanged. */
  lemma TokenFreeTemplateUnchanged(template: string, level: LogLevel, timestamp: string, message: string)
    requires !Occurs(template, LevelToken)
    requires !Occurs(template, TimestampToken)
    requires !Occurs(template, MessageToken)
    ensures FormatLine(template, level, timestamp, message) == template
  {
    ReplaceWithoutOccurrence(template, LevelToken, LevelName(level));
    ReplaceWithoutOccurrence(template, TimestampToken, timestamp);
    ReplaceWithoutOccurrence(template, MessageToken, message);
  }

  /**
   * The template "{message}" yields the message verbatim, whatever it holds:
   * a message "{level}" stays "{level}".
   */
  lemma MessageNotResubstituted(level: LogLevel, timestamp: string, message: string)
    ensures FormatLine(MessageToken, level, timestamp, message) == message
  {
    ReplaceAtMismatch(MessageToken, [], LevelToken, LevelName(level));
    ReplaceShort([], LevelToken, LevelName(level));
    assert MessageToken + [] == MessageToken;
    ReplaceAtMismatch(MessageToken, [], TimestampToken, timestamp);
    ReplaceShort([], TimestampToken, timestamp);
    ReplaceAtMatch([], MessageToken, message);
    ReplaceShort([], MessageToken, message);
    assert message + [] == message;
  }

  // ---------------------------------------------------------------------
  // The three presets.
  // ---------------------------------------------------------------------

  const DefaultPieces: seq<Piece> :=
    [Text("["), Slot(Timestamp), Text("] ["), Slot(Level), Text("]: "), Slot(Message)]
  const LevelFirstPieces: seq<Piece> :=
    [Text("["), Slot(Level), Text("] "), Slot(Timestamp), Text(": "), Slot(Message)]
  const MessageFirstPieces: seq<Piece> :=
    [Slot(Message), Text(": ["), Slot(Level), Text("] "), Slot(Timestamp)]

  /** The default preset spelled as pieces. */
  lemma DefaultLayout()
    ensures Plain(DefaultPieces) && Render(DefaultPieces) == DefaultFormat
  {
    DefaultSpelling();
    DefaultLiteral();
    assert Plain(DefaultPieces) by {
      forall i | 0 <= i < |DefaultPieces| && DefaultPieces[i].Text?
        ensures '{' !in DefaultPieces[i].text
      {
      }
    }
  }

  lemma DefaultLiteral()
    ensures DefaultFormat == "[" + (TimestampToken + ("] [" + (LevelToken + ("]: " + MessageToken))))
  {
  }

  lemma DefaultSpelling()
    ensures Render(DefaultPieces) == "[" + (TimestampToken + ("] [" + (LevelToken + ("]: " + MessageToken))))
  {
    var ps := DefaultPieces;
    assert ps[1..][1..][1..][1..][1..][1..] == [];
    assert Render(ps[5..]) == MessageToken;
    assert Render(ps[4..]) == "]: " + MessageToken;
    assert Render(ps[3..]) == LevelToken + ("]: " + MessageToken);
    assert Render(ps[2..]) == "] [" + (LevelToken + ("]: " + MessageToken));
    assert Render(ps[1..]) == TimestampToken + ("] [" + (LevelToken + ("]: " + MessageToken)));
  }

  /** What the default preset's pieces expand to. */
  lemma DefaultExpansion(level: LogLevel, timestamp: string, message: string)
    ensures Expand(DefaultPieces, level, timestamp, message)
         == "[" + timestamp + "] [" + LevelName(level) + "]: " + message
  {
    var ps := DefaultPieces;
    assert ps[1..][1..][1..][1..][1..][1..] == [];
    var name := LevelName(level);
    assert Expand(ps[5..], level, timestamp, message) == message;
    assert Expand(ps[4..], level, timestamp, message) == "]: " + message;
    assert Expand(ps[3..], level, timestamp, message) == name + ("]: " + message);
    assert Expand(ps[2..], level, timestamp, message) == "] [" + (name + ("]: " + message));
    assert Expand(ps[1..], level, timestamp, message) == timestamp + ("] [" + (name + ("]: " + message)));
    Regroup6("[", timestamp, "] [", name, "]: ", message);
  }

  /** The level-first preset spelled as pieces. */
  lemma LevelFirstLayout()
    ensures Plain(LevelFirstPieces) && Render(LevelFirstPieces) == LevelFirstFormat
  {
    LevelFirstSpelling();
    LevelFirstLiteral();
    assert Plain(LevelFirstPieces) by {
      forall i | 0 <= i < |LevelFirstPieces| && LevelFirstPieces[i].Text?
        ensures '{' !in LevelFirstPieces[i].text
      {
      }
    }
  }

  lemma LevelFirstLiteral()
    ensures LevelFirstFormat == "[" + (LevelToken + ("] " + (TimestampToken + (": " + MessageToken))))
  {
  }

  lemma LevelFirstSpelling()
    ensures Render(LevelFirstPieces) == "[" + (LevelToken + ("] " + (TimestampToken + (": " + MessageToken))))
  {
    var ps := LevelFirstPieces;
    assert ps[1..][1..][1..][1..][1..][1..] == [];
    assert Render(ps[5..]) == MessageToken;
    assert Render(ps[4..]) == ": " + MessageToken;
    assert Render(ps[3..]) == TimestampToken + (": " + MessageToken);
    assert Render(ps[2..]) == "] " + (TimestampToken + (": " + MessageToken));
    assert Render(ps[1..]) == LevelToken + ("] " + (TimestampToken + (": " + MessageToken)));
  }

  /** What the level-first preset's pieces expand to. */
  lemma LevelFirstExpansion(level: LogLevel, timestamp: string, message: string)
    ensures Expand(LevelFirstPieces, level, timestamp, message)
         == "[" + LevelName(level) + "] " + timestamp + ": " + message
  {
    var ps := LevelFirstPieces;
    assert ps[1..][1..][1..][1..][1..][1..] == [];
    var name := LevelName(level);
    assert Expand(ps[5..], level, timestamp, message) == message;
    assert Expand(ps[4..], level, timestamp, message) == ": " + message;
    assert Expand(ps[3..], level, timestamp, message) == timestamp + (": " + message);
    assert Expand(ps[2..], level, timestamp, message) == "] " + (timestamp + (": " + message));
    assert Expand(ps[1..], level, timestamp, message) == name + ("] " + (timestamp + (": " + message)));
    Regroup6("[", name, "] ", timestamp, ": ", message);
  }

  /** The message-first preset spelled as pieces. */
  lemma MessageFirstLayout()
    ensures Plain(MessageFirstPieces) && Render(MessageFirstPieces) == MessageFirstFormat
  {
    MessageFirstSpelling();
    MessageFirstLiteral();
    assert Plain(MessageFirstPieces) by {
      forall i | 0 <= i < |MessageFirstPieces| && MessageFirstPieces[i].Text?
        ensures '{' !in MessageFirstPieces[i].text
      {
      }
    }
  }

  lemma MessageFirstLiteral()
    ensures MessageFirstFormat == MessageToken + (": [" + (LevelToken + ("] " + TimestampToken)))
  {
  }

  lemma MessageFirstSpelling()
    ensures Render(MessageFirstPieces) == MessageToken + (": [" + (LevelToken + ("] " + TimestampToken)))
  {
    var ps := MessageFirstPieces;
    assert ps[1..][1..][1..][1..][1..] == [];
    assert Render(ps[4..]) == TimestampToken;
    assert Render(ps[3..]) == "] " + TimestampToken;
    assert Render(ps[2..]) == LevelToken + ("] " + TimestampToken);
    assert Render(ps[1..]) == ": [" + (LevelToken + ("] " + TimestampToken));
  }

  /** What the message-first preset's pieces expand to. */
  lemma MessageFirstExpansion(level: LogLevel, timestamp: string, message: string)
    ensures Expand(MessageFirstPieces, level, timestamp, message)
         == message + ": [" + LevelName(level) + "] " + timestamp
  {
    var ps := MessageFirstPieces;
    assert ps[1..][1..][1..][1..][1..] == [];
    var name := LevelName(level);
    assert Expand(ps[4..], level, timestamp, message) == timestamp;
    assert Expand(ps[3..], level, timestamp, message) == "] " + timestamp;
    assert Expand(ps[2..], level, timestamp, message) == name + ("] " + timestamp);
    assert Expand(ps[1..], level, timestamp, message) == ": [" + (name + ("] " + timestamp));
    Regroup5(message, ": [", name, "] ", timestamp);
  }

  /** The lines the three presets produce. */
  lemma PresetLines(level: LogLevel, timestamp: string, message: string)
    requires '{' !in timestamp
    ensures FormatLine(DefaultFormat, level, timestamp, message)
         == "[" + timestamp + "] [" + LevelName(level) + "]: " + message
    ensures FormatLine(LevelFirstFormat, level, timestamp, message)
         == "[" + LevelName(level) + "] " + timestamp + ": " + message
    ensures FormatLine(MessageFirstFormat, level, timestamp, message)
         == message + ": [" + LevelName(level) + "] " + timestamp
  {
    DefaultLayout();
    DefaultExpansion(level, timestamp, message);
    FormatExpands(DefaultPieces, level, timestamp, message);
    LevelFirstLayout();
    LevelFirstExpansion(level, timestamp, message);
    FormatExpands(LevelFirstPieces, level, timestamp, message);
    MessageFirstLayout();
    MessageFirstExpansion(level, timestamp, message);
    FormatExpands(MessageFirstPieces, level, timestamp, message);
  }
}
