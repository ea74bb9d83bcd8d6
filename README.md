# Logging service: client formatter and session, server rate limiter

This project models, in Dafny, the two pieces of logic in the logging
service that are not socket or console plumbing. Each piece is proved
against a specification.

**The test client** (`logservice-client/Program.cs`):

- A log line is built from one mutable template by three literal,
  ordinal, left-to-right replacements, in this order: `{level}`, then
  `{timestamp}`, then `{message}`.
- The line is written with a terminator and flushed.
- The template is changed only by choosing one of three presets.
- The menu loop works as follows:
  - "1" (Auto) reconfigures the template, then sends five fixed entries.
  - "2" (Manual) reconfigures the template, then sends one entry if its level parses, and nothing otherwise.
  - "3" (Noisy) ends the session without sending anything.
  - "4" (Exit) sends one disconnect entry, then ends the session.
  - Any other input changes nothing.

**The server** (`logservice-server/src/logservice/LoggingService.java`):

- `isAllowedToLog` keeps the timestamps of recent admissions in a FIFO queue of at most five entries.
- It admits a line when fewer than five timestamps are stored, or when the oldest one is at least 1000 ms old.
- `handleClient` writes to the log file exactly the lines the limiter admits, in order. It answers each one with a ready reply.

Files and modules:

- `wrappers.dfy` (`Wrappers`): `Option`, for the level parse that can fail.
- `seq_laws.dfy` (`SeqLaws`): laws of sequence concatenation, stated once for any element type.
- `text_replace.dfy` (`TextReplace`): `ReplaceAll`, the behaviour of .NET `String.Replace(string, string)`, and its laws.
- `log_format.dfy` (`LogFormat`):
  - the `LogLevel` enum, `FormatLine` and the three presets;
  - an independent description of templates as a list of text pieces and placeholder slots (`Render`, `Expand`);
  - the theorem that `FormatLine` on such a template produces its expansion.
- `wire.dfy` (`Wire`): the newline-terminated text written on the connection, and the line reader that splits it again.
- `client_messages.dfy` (`ClientMessages`): the fixed texts the client sends, and the fact that none holds a line terminator.
- `client.dfy` (`LogClient`):
  - the class `LoggingTestClient`, whose fields are the template, the lines sent and the session status;
  - the specification of one pass of the menu loop (`Dispatch`) and of the whole loop (`Play`);
  - the loop itself (`Run`), proved against `Play`.
- `server.dfy` (`LogServer`):
  - the limiter as a function (`Admit`) and over a run of calls (`Serve`);
  - the class `LoggingService`, whose methods `IsAllowedToLog` and `HandleClient` are proved against those functions;
  - the properties of runs of the limiter.

Inputs the program reads at run time become parameters:

- the k-th line the client sends carries the timestamp `clock(k)`;
- the level a user types reaches the model already parsed, as `Option<LogLevel>`;
- every line the server reads carries the millisecond time at which the limiter was consulted (`Arrival`).

As written, the limiter removes the oldest timestamp even when it denies a
line, and does not put it back. After a denial the queue holds four
timestamps, so the next call is always admitted (`NoTwoDenialsInARow`).
Seven lines checked within the same millisecond are answered admit ×5,
deny, admit (`BurstAtOneInstant`). Six lines are therefore logged within
one window, although the constant's name promises at most five per
second. The model keeps this behaviour exactly as the code has it.

A manual entry whose level does not parse leaves the template as the
reconfiguration just before the level prompt set it. It does not restore
the previous template (Program.cs lines 163 and 174-181). The lemma
`UnparsedLevelSendsNothing` states this.

## Model

| member | source | states |
|---|---|---|
| TextReplace.ReplaceAll | logservice-client/Program.cs:240-242 | .NET `String.Replace(string, string)`: ordinal, left to right, non-overlapping, the inserted text never rescanned. The result is no longer than the input when the replacement is no longer than the token, and no shorter when it is no shorter. |
| TextReplace.ReplaceCharacters | logservice-client/Program.cs:240-242 | Every character of the result comes from the input or from the replacement text. |
| TextReplace.ReplaceWithoutOccurrence | logservice-client/Program.cs:239-242 | A string in which the token does not occur comes back from the replacement unchanged. |
| TextReplace.ReplaceSkipsPlain | logservice-client/Program.cs:239-242 | Text that does not contain the token's first character is copied through, and replacement carries on after it. |
| TextReplace.ReplaceAtMatch | logservice-client/Program.cs:239-242 | An occurrence at the front becomes the replacement text, and scanning resumes after the occurrence. The inserted text is never rescanned. |
| TextReplace.ReplaceAtMismatch | logservice-client/Program.cs:239-242 | A different placeholder token at the front (one that starts with '{' and differs in its second character) is copied through untouched. |
| TextReplace.ReplaceShort | logservice-client/Program.cs:239-242 | A string shorter than the token is returned unchanged. |
| LogFormat.LevelName | logservice-client/Program.cs:9-17 | Every level's name is non-empty and contains no '{', so it cannot form a placeholder. |
| LogFormat.FormatLine | logservice-client/Program.cs:239-242 | The line `LogMessage` builds: the template with `{level}`, then `{timestamp}`, then `{message}` replaced. What it produces is stated by `FormatExpands`, `PresetLines`, `TokenFreeTemplateUnchanged`, `MessageNotResubstituted` and `FormatLineCharacters`. |
| LogFormat.FormatLineCharacters | logservice-client/Program.cs:239-242 | Every character of a formatted line comes from the template, the level's name, the timestamp or the message. |
| LogFormat.ReplaceRendersFill | logservice-client/Program.cs:240-242 | On a template made of '{'-free text and placeholders, one replacement call acts exactly as turning every slot of that placeholder into the value. |
| LogFormat.FillAllExpands | logservice-client/Program.cs:239-242 | Filling the level, timestamp and message slots in turn gives the template's expansion. |
| LogFormat.FormatExpands | logservice-client/Program.cs:239-242 | For every template of text and placeholders, and any timestamp without '{', the formatted line is the template's expansion. Each placeholder becomes its value, text is kept, and the message is inserted verbatim. |
| LogFormat.TokenFreeTemplateUnchanged | logservice-client/Program.cs:239-242 | A template holding none of the three tokens is returned unchanged, whatever the level, timestamp and message. |
| LogFormat.MessageNotResubstituted | logservice-client/Program.cs:239-242 | The template "{message}" yields the message verbatim for every message, so a message "{level}" stays "{level}". |
| LogFormat.DefaultLayout | logservice-client/Program.cs:39 | The default template is the pieces `[`, timestamp, `] [`, level, `]: `, message. |
| LogFormat.LevelFirstLayout | logservice-client/Program.cs:123 | The second preset is the pieces `[`, level, `] `, timestamp, `: `, message. |
| LogFormat.MessageFirstLayout | logservice-client/Program.cs:126 | The third preset is the pieces message, `: [`, level, `] `, timestamp. |
| LogFormat.PresetLines | logservice-client/Program.cs:239-242 | The exact lines the three presets produce, e.g. `"[" + ts + "] [" + levelName + "]: " + message` for the default. |
| Wire.Stream | logservice-client/Program.cs:255-259 | The text on the connection after the given lines were written: empty exactly when no line was written, and otherwise ending with a terminator. |
| Wire.ReadLines | logservice-server/src/logservice/LoggingService.java:90 | The lines `readLine` returns, up to end of stream: none of them holds a terminator. |
| Wire.StreamAppend | logservice-client/Program.cs:255-259 | Sending one more line appends that line and a terminator to the connection's text. |
| Wire.ReadLinesInverts | logservice-server/src/logservice/LoggingService.java:90 | The server's line reader recovers exactly the lines written, in order, when none contains a terminator. |
| LogClient.PresetFor | logservice-client/Program.cs:117-131 | Answers "1", "2" and "3", and only those, select a preset: "1" the default `[{timestamp}] [{level}]: {message}`, "2" `[{level}] {timestamp}: {message}`, "3" `{message}: [{level}] {timestamp}`. |
| LogClient.ChooseFormat | logservice-client/Program.cs:117-131 | Any other answer leaves the current template. The result is always the current template or one of the presets. |
| LogClient.ChosenFormatLine | logservice-client/Program.cs:110-131 | After answering "1", "2" or "3", every line has the layout printed next to that answer, whatever the template was before: `"[" + ts + "] [" + level + "]: " + message`, `"[" + level + "] " + ts + ": " + message`, or `message + ": [" + level + "] " + ts`. |
| LogClient.ManualEntries | logservice-client/Program.cs:174-181 | A parsed level gives exactly one entry, with that level and the typed message. An unparsed level gives none. |
| LogClient.Lines | logservice-client/Program.cs:237-245 | One formatted line per entry. |
| LogClient.AutoLinesSpelled | logservice-client/Program.cs:146-150 | "Auto" sends five lines: Info, Info, Error, Warning, Debug, with the fixed messages, the current template and successive timestamps. |
| LogClient.AutoLinesWithDefaultFormat | logservice-client/Program.cs:142-151 | With the default template the five "Auto" lines are exactly `"[" + clock(k+i) + "] [" + level + "]: " + message`. |
| LogClient.Dispatch | logservice-client/Program.cs:57-74 | One pass of the menu loop: the template, the lines sent and whether the session ends, for each option. What it does per option is stated by `DispatchShape`, `InvalidOptionIsIgnored`, `ExitSendsDisconnect`, `NoisySendsNothing` and `UnparsedLevelSendsNothing`. |
| LogClient.Play | logservice-client/Program.cs:50-75 | The menu loop over the user's rounds, stopping at the first round that ends the session. `Run` is proved against it; `PlayStopsAtTermination`, `PlayLineBound` and `PlaySingleLine` state its properties. |
| LogClient.DispatchShape | logservice-client/Program.cs:57-74 | Per option: which options may change the template, which end the session, and how many lines each sends (5, 1 if the level parsed, 0, 1, 0). |
| LogClient.LoggingTestClient.constructor | logservice-client/Program.cs:39 | A new session starts with the default template, nothing sent, at the menu. |
| LogClient.LoggingTestClient.SendLogMessage | logservice-client/Program.cs:255-259 | Appends exactly the line to the lines sent, so the connection's text gains the line and a terminator. |
| LogClient.LoggingTestClient.LogMessage | logservice-client/Program.cs:237-245 | Appends exactly one line, formatted with the current template and the current clock reading. |
| LogClient.LoggingTestClient.ConfigureLogFormat | logservice-client/Program.cs:106-132 | The new template is the chosen preset, or the old template for any other answer. |
| LogClient.LoggingTestClient.AutoLogs | logservice-client/Program.cs:142-151 | Reconfigures, then appends exactly the five "Auto" lines formatted with the new template. |
| LogClient.LoggingTestClient.ManualLogEntry | logservice-client/Program.cs:161-182 | Reconfigures, then appends the typed message's line if the level parsed, and nothing otherwise. |
| LogClient.LoggingTestClient.NoisyLogs | logservice-client/Program.cs:206-211 | Ends the session and sends nothing. |
| LogClient.LoggingTestClient.Exit | logservice-client/Program.cs:221-225 | Appends exactly the Info disconnect line, formatted with the current template. |
| LogClient.LoggingTestClient.Step | logservice-client/Program.cs:57-74 | One pass of the menu loop leaves the template, lines and status that `Dispatch` specifies. |
| LogClient.LoggingTestClient.Run | logservice-client/Program.cs:50-75 | The loop over the user's rounds leaves the template, lines and status that `Play` specifies, and stops at the first ending option. |
| LogClient.PlayStopsAtTermination | logservice-client/Program.cs:65-70 | Once a round has ended the session, later rounds change nothing. |
| LogClient.InvalidOptionIsIgnored | logservice-client/Program.cs:71-73 | A round with an unknown option sends nothing, keeps the template and continues the loop. |
| LogClient.ExitSendsDisconnect | logservice-client/Program.cs:68-70 | "4" sends exactly one Info line "Client disconnected from the server" with the current template, then ends the session. |
| LogClient.NoisySendsNothing | logservice-client/Program.cs:65-67 | "3" sends nothing and ends the session. |
| LogClient.UnparsedLevelSendsNothing | logservice-client/Program.cs:163-181 | A manual entry whose level does not parse sends nothing but keeps the reconfigured template. |
| LogClient.PlayLineBound | logservice-client/Program.cs:57-74 | A session sends at most five lines per round. |
| LogClient.LinesSingleLine | logservice-client/Program.cs:237-245 | Entries whose messages hold no terminator, formatted with a template and clock readings that hold none, give lines that hold none. |
| LogClient.DispatchSingleLine | logservice-client/Program.cs:57-74 | If the template and the typed message hold no terminator, nor does any clock reading, then one pass keeps the template free of terminators and sends no line holding one. The presets and the fixed messages hold none. |
| LogClient.PlaySingleLine | logservice-client/Program.cs:50-75 | A session whose typed messages and clock readings hold no terminator sends no line holding one. |
| LogClient.ServerReadsPlayedLines | logservice-server/src/logservice/LoggingService.java:90 | Under the same conditions, the server's line reader recovers from the connection exactly the lines the loop sent, in order. |
| LogClient.ServerReadsSessionLines | logservice-client/Program.cs:39-75 | A whole session, which starts from the default template, is read back by the server line for line when the typed messages and clock readings hold no terminator. |
| LogServer.Admit | logservice-server/src/logservice/LoggingService.java:118-134 | A line is admitted iff fewer than five timestamps are stored, or the oldest is at least 1000 ms before now. An admission stores now last. The size grows by one, stays or drops by one. The bound of five is kept, and a denial leaves four. |
| LogServer.AdmitKeepsOrder | logservice-server/src/logservice/LoggingService.java:121-131 | Removal only at the front, insertion only at the back. An admission leaves a suffix of the queue extended by now, a denial a suffix of the queue. |
| LogServer.Serve | logservice-server/src/logservice/LoggingService.java:90-102 | Successive calls of the limiter from a given queue: one verdict per call, and the final queue. |
| LogServer.Select | logservice-server/src/logservice/LoggingService.java:90-102 | The received lines whose verdict was "admit", in their original order; never more lines than were received. |
| LogServer.LoggingService.constructor | logservice-server/src/logservice/LoggingService.java:19 | The timestamp queue starts empty. |
| LogServer.LoggingService.IsAllowedToLog | logservice-server/src/logservice/LoggingService.java:118-134 | The answer and the new queue are exactly those of `Admit`. |
| LogServer.LoggingService.HandleClient | logservice-server/src/logservice/LoggingService.java:84-111 | The log file gains exactly the received lines the limiter admitted, in order. One ready reply per logged line, none for dropped lines. The queue ends as `Serve` says. |
| LogServer.ServeBound | logservice-server/src/logservice/LoggingService.java:16 | Over any run of calls the queue never holds more than five timestamps. |
| LogServer.DenialLeavesRoom | logservice-server/src/logservice/LoggingService.java:125-128 | After a denial the queue holds exactly four timestamps. |
| LogServer.NoTwoDenialsInARow | logservice-server/src/logservice/LoggingService.java:121-131 | In any run, a denial is always followed by an admission. |
| LogServer.QueueHoldsLatestAdmissions | logservice-server/src/logservice/LoggingService.java:121-131 | The queue is always a suffix of the initial queue followed by all admitted times, in arrival order. |
| LogServer.FirstFiveAdmitted | logservice-server/src/logservice/LoggingService.java:121-123 | From an empty queue, the first five calls are admitted and their times stored in order. |
| LogServer.BurstAtOneInstant | logservice-server/src/logservice/LoggingService.java:121-131 | Seven calls in the same millisecond give admit ×5, deny, admit. |
| LogServer.QuietClientFullyLogged | logservice-server/src/logservice/LoggingService.java:90-99 | A client sending at most five lines to a fresh server has every line logged, in order. |

## Left out

- Networking is not modelled: `TcpClient`, `NetworkStream`, `ServerSocket`, `accept`, socket exceptions and their handlers are I/O.
- The server starts a thread per client, and all of them share the static queue. Only one sequential caller of the limiter is modelled.
- Console prompts, menus and messages, `DisplayMenu` and `DisplayLogLevelOptions` are terminal output and are not modelled.
- `Environment.Exit` is not modelled. The usage check on the argument count (Program.cs lines 29-33) is left out.
- `DateTime.Now` and its culture-dependent `"yyyy-MM-dd hh:mm:ss tt"` rendering are not modelled. The rendered timestamp is the parameter `clock(k)`. The template theorem assumes it holds no '{'.
- `System.currentTimeMillis` is not modelled; the time is a parameter of each call.
- `Enum.TryParse<LogLevel>` is library behaviour (names, ordinals and out-of-range numbers). It is abstracted to an already parsed `Option<LogLevel>`.
- `int.Parse` of the port, `loadProperties`, and the server's `logEvent`/`logError` console output are left out.
- The denial warning the server prints is not modelled.
- The log file is modelled as the sequence of its lines, without file I/O or buffering.
- The line terminator is modelled as "\n". `Environment.NewLine` is "\r\n" on Windows, and Java's `readLine` also accepts "\r" and "\r\n"; neither is modelled.
- The UTF-8 encoding of the writer and reader is not modelled; lines are character sequences. In particular, `new StreamWriter(stream, Encoding.UTF8)` on a `NetworkStream`, which cannot seek, writes the byte-order mark EF BB BF before the first line. Java's `InputStreamReader` keeps it, so the first line the server reads and logs starts with U+FEFF. `ServerReadsPlayedLines` and `ServerReadsSessionLines` hold only apart from that mark.
- A console read that returns null (end of input) is not modelled; every round carries a string.
- The top-level `catch (Exception)` in the client, which ends the program after any fault, is not modelled.
- Time values are unbounded integers, so 64-bit `long` overflow in `currentTimeMillis - oldestTimestamp` is not modelled.
- Wire.ReadLinesInverts: stated only for lines that hold no terminator. A line containing "\n" is read back as two lines. `PlaySingleLine` shows that the client sends no such line when the typed messages and the rendered clock hold none.
- LogClient.ServerReadsSessionLines: assumes the typed messages and the rendered clock hold no "\n". A console line never does, and the `"yyyy-MM-dd hh:mm:ss tt"` rendering does not either, but both are outside the model.
- LogFormat.FormatExpands: stated only for templates whose literal text holds no '{' and timestamps without '{'. This covers the three presets.
