# multipilot in Dafny

multipilot runs several GitHub Copilot tasks at once, each as a Temporal
workflow, from one JSON configuration file. This project models the
orchestration logic around those runs and proves what it promises:

- **The task model** (`shared.dfy`, from `shared/models.go`). A batch is
  validated by `Validate`: no two tasks may share a working directory or a
  log file, and the working directory is checked first. `GetLogFile`
  rejects an empty log file. `GetMcpServers` merges the local and the remote
  MCP servers; a remote server wins a name clash, and an empty merge is nil.
- **Loading** (`helpers.dfy`, from `cmd/helpers.go`). `ReadConfigToTasks`
  reads, decodes and validates a configuration. `LoadEvents` splits an
  event log on newlines, skips empty lines and decodes the others. Either
  every line decodes or nothing is returned.
- **The root command** (`root.dfy`, from `cmd/root.go`).
  - A configuration that fails to load launches nothing.
  - Otherwise every task's outcome is folded into a count of successes,
    a count of failures and a list of failure reasons, in arrival order.
  - The printed summary is specified exactly. Its two counts always read
    back; its reasons read back when none holds a newline.
  - The counts do not depend on the arrival order.
- **The activity** (`activities.dfy`, from `workflow/activities.go`).
  - `RunCopilot` fills in defaults (model, system message, timeout) and
    creates the client and the session.
  - Its listener writes the line of each streamed event whose append
    succeeds, and logs the failure of each append that does not. A failed
    send is only logged. Only the log-file check, the client start, the
    session creation and the append of the final response can fail the
    activity.
  - `dataToString` renders an event's data as `key: value` items joined
    by `"; "`, in no promised order.
  - `eventToLog` formats one line per event. For an event whose data
    renders, the line is proved to read back as its event type and, except for
    the two turn boundaries (whose lines carry no data), its data,
    under two conditions on the time and on unlisted type names (see
    "Left out"). An event whose data cannot be rendered gets the empty
    line, which reads back as nothing.

Two shared modules support these:

- `strings.dfy` holds the parts of Go's `strings` and `fmt` packages that
  the code uses: `Join`, `Split` on one character, `TrimSuffix`, and `%d`.
- `wrappers.dfy` holds `Option` (Go's `nil`) and `Result` (a value or an
  error's message).

Abstract parameters stand for:

- the file reads and the JSON decoder;
- the Copilot SDK calls and the log-file appends, as the results they
  return;
- the clock (the formatted time `now`);
- the MCP type test.

The code is followed where it differs from prose about it:

- The session's tool list is the task's `AllowedTools`, passed as the SDK's
  available tools. The repository's tests speak of an `ExcludeTools` field;
  it does not exist in the code.
- `eventToLog` never returns an error. When the data cannot be rendered, it
  returns the empty line with no error. So `RunCopilot`'s branch on a
  conversion error (`workflow/activities.go:104-106`) is never taken. An
  event whose data cannot be rendered is written as an empty line.

## Model

| member | source | states |
|---|---|---|
| Shared.GetMcpServers | shared/models.go:32-48 | The merged map has exactly the names of the local and the remote servers. A name with a remote server maps to that remote server, even if a local one shares the name. A name with only a local server maps to it. The result is nil exactly when both maps (nil or empty) have no names. |
| Shared.ValidationError | shared/models.go:60-68 | The outcome of the validation loop over a batch: nil, or one of the two collision messages. A batch of at most one task always validates. |
| Shared.GetLogFile | shared/models.go:50-55 | Fails with "log_file cannot be empty" exactly when the log file is empty. Otherwise returns the log file unchanged. |
| Shared.ValidationOkIffNoSharedResources | shared/models.go:57-71 | A batch validates exactly when no two tasks share a working directory and no two share a log file. The empty string collides like any other value. |
| Shared.ValidationErrorIsFirstCollision | shared/models.go:60-66 | A failing batch fails with the message of its first task that repeats an earlier working directory or log file. A task repeating both gets the working-directory message. |
| Shared.ValidationErrorSticks | shared/models.go:60-66 | Once a prefix of the batch fails, later tasks do not change the error (the loop returns at the first collision). |
| Shared.NextTaskDecides | shared/models.go:60-68 | After a prefix that validates, the next task decides the outcome: a repeated working directory first, then a repeated log file, else the batch still validates. |
| Shared.ValidationStopsAt | shared/models.go:60-66 | Suppose the tasks before the i-th validate and the i-th repeats a resource. Then the batch fails with that task's message, that task is the first collision, and the batch shares a resource. |
| Shared.NoRepeatsBelowValidPrefix | shared/models.go:60-68 | In a prefix that validates, no task repeats an earlier task's working directory or log file. |
| Shared.SeenIffRepeats | shared/models.go:61-65 | The next task's working directory (or log file) is among those recorded so far exactly when it repeats an earlier task's. |
| Shared.SeenOneMore | shared/models.go:67-68 | Recording a task adds exactly its working directory and its log file to those seen. |
| Shared.Validate | shared/models.go:57-71 | Returns exactly the specified validation outcome. The result is nil exactly when no two tasks share a working directory or a log file. On failure, the message is that of the first colliding task, with the working directory checked first. Validate only reads the batch, so validating twice gives the same result. |
| Strings.Join | cmd/root.go:68 | strings.Join: the parts with the separator between each adjacent pair; no parts give the empty text. |
| Strings.Split | cmd/helpers.go:82 | Splitting gives at least one piece, and no piece holds the separator. |
| Strings.SplitThenJoin | cmd/helpers.go:82 | Joining the pieces of a split with the separator gives back the text. |
| Strings.JoinThenSplit | cmd/root.go:68 | Splitting a join of parts without the separator gives back the parts. |
| Strings.SplitTrailingSeparator | cmd/helpers.go:82 | A trailing newline adds exactly one empty piece at the end. |
| Strings.TrimSuffix | cmd/helpers.go:85 | strings.TrimSuffix: the text without the suffix when it ends with it, else the text unchanged. |
| Strings.TrimSuffixCases | cmd/helpers.go:85 | Trimming gives the text itself, or the text whose end, once the suffix is put back, is the original. |
| Strings.TrimAbsentSuffix | cmd/helpers.go:85 | Trimming a "\n" from a piece that has none changes nothing. |
| Strings.JoinOfTwo | cmd/root.go:68 | Joining a concatenation of two non-empty lists is joining each, with the separator between. |
| Strings.NatToString | cmd/root.go:70 | The `%d` text of a count is non-empty and all digits, with no leading zero. |
| Strings.NatToStringRoundTrip | cmd/root.go:70 | Reading back the `%d` text of a count gives the count. |
| Helpers.NonEmptyLines | cmd/helpers.go:84-86 | Every line kept is non-empty and is one of the given lines. |
| Helpers.Records | cmd/helpers.go:82-86 | The records of a log are non-empty and hold no newline. |
| Helpers.NonEmptyLinesAppend | cmd/helpers.go:84-86 | Skipping empty lines keeps the others in order: it distributes over concatenation. |
| Helpers.TrailingNewlineAddsNoRecord | cmd/helpers.go:82-86 | A newline at the end of the log adds no record. |
| Helpers.RecordsOfJoinedLogs | cmd/helpers.go:82-86 | The records of two logs joined by a newline are the first log's records followed by the second's. |
| Helpers.NonEmptyLinesStep | cmd/helpers.go:84-93 | One more line of the log adds itself to the records when it is not empty, and adds nothing otherwise. |
| Helpers.NonEmptyLinesSplit | cmd/helpers.go:84-93 | The records of the log are the records of any prefix of its lines, followed by those of the rest. |
| Helpers.FirstUndecodableRecord | cmd/helpers.go:86-91 | A non-empty line that does not decode, after records that all decode, is the first record that does not decode, with its error. |
| Helpers.LoadEvents | cmd/helpers.go:76-96 | A read error is returned unchanged. The load succeeds exactly when every record decodes. On success, the events are the decoded records, one per record and in file order. On failure, the error is that of the first record that does not decode, and no events come back. |
| Helpers.ReadConfigToTasks | cmd/helpers.go:16-31 | A configuration comes back exactly when the file was read, decoded and validated; it is the decoded batch, and no two of its tasks share a resource. A read or decode error is returned unchanged. A validation failure returns Validate's error unchanged. |
| Root.SuccessCount | cmd/root.go:55-62 | The number of successes is at most the number of outcomes, and equals it exactly when every outcome succeeded. |
| Root.FailureMessages | cmd/root.go:55-62 | At most one message per outcome, and each message listed is that of a failure that arrived. |
| Root.CollectOutcomes | cmd/root.go:51-62 | `success` counts the successful outcomes. `reasonsFailed` holds each failure's message in arrival order. `failed` is the number of reasons. `success + failed` is the number of outcomes received. |
| Root.CountsAddUp | cmd/root.go:55-62 | Every outcome is counted once: as a success or as a failure reason. |
| Root.SuccessCountIsMultiplicity | cmd/root.go:55-62 | The success count is the number of successful outcomes, wherever they are in the sequence. |
| Root.FailureMessagesMultiplicity | cmd/root.go:55-62 | A message is listed as often as a failure with that message arrived. |
| Root.OrderIndependence | cmd/root.go:38-62 | Two arrival orders of the same outcomes give the same success count, the same failure count and the same reasons up to order. |
| Root.FailureReasons | cmd/root.go:63-69 | The tail is "\n" exactly when there are no reasons, and it always ends with a newline. |
| Root.Summary | cmd/root.go:70 | The printed text: "Successfull tasks: n\nFailed tasks: m\n" followed by the failure-reasons tail. |
| Root.Bulleted | cmd/root.go:68 | Each reason becomes one line, "- " followed by the reason. |
| Root.BulletedJoin | cmd/root.go:68 | "- " followed by the reasons joined by "\n- " is the bulleted lines joined by newlines. |
| Root.JoinAfterTwo | cmd/root.go:70 | Joining two lines and a non-empty tail puts one newline after each of the two lines. |
| Root.FailureReasonsAsLines | cmd/root.go:63-69 | With no failures the tail is "\n": two empty lines. Otherwise it is the header "Failure reasons:", one bulleted line per reason, and a closing newline. |
| Root.SummaryAsLines | cmd/root.go:63-70 | The summary is its lines joined by newlines: "Successfull tasks: n", "Failed tasks: m", then the tail's lines. |
| Root.CountLine | cmd/root.go:70 | A count line is one line and reads back as its count. |
| Root.ReadBulletsRoundTrip | cmd/root.go:68 | The bulleted lines read back as the reasons, in order. |
| Root.TailLinesAreLines | cmd/root.go:63-69 | No line of the tail holds a newline, when no reason does. |
| Root.SummaryLinesAreLines | cmd/root.go:70 | No line of the summary holds a newline, when no reason does. |
| Root.SummarySplit | cmd/root.go:63-70 | Splitting the summary on newlines gives exactly its lines, when no reason holds a newline. |
| Root.ReadCounts | cmd/root.go:70 | Reads the two counts from the first two lines of a printed text. |
| Root.SummaryCountsRoundTrip | cmd/root.go:63-70 | For every summary, whatever its reasons hold, the printed text reads back as its success count and its failure count. |
| Root.CountLinesOfSummary | cmd/root.go:70 | The first two lines of a summary read back as its success count and its failure count. |
| Root.TailOfSummary | cmd/root.go:63-70 | A summary has at least four lines, and the last is empty. With no reasons, the lines after the counts are two empty lines. Otherwise they are the header, the bulleted reasons and an empty line. |
| Root.ReadLines | cmd/root.go:63-70 | Reads the counts, then either two empty lines or the header, the bulleted reasons and an empty line. |
| Root.ReadSummaryLines | cmd/root.go:63-70 | A summary's lines read back as that summary's counts and reasons. |
| Root.ReadSummary | cmd/root.go:63-70 | Reads a printed text by splitting it into lines. |
| Root.SummaryRoundTrip | cmd/root.go:63-70 | When no reason holds a newline, the printed text reads back as the success count, the failure count and the reasons in order (the counts alone read back for every summary: Root.SummaryCountsRoundTrip). So the format is exactly "Successfull tasks: n\nFailed tasks: m\n" followed by "\n" or by "Failure reasons:\n- " + reasons joined by "\n- " + "\n". |
| Root.ConfigErrorLog | cmd/root.go:33 | The message logged when the configuration cannot be loaded: the fixed text, a space, then the error. |
| Root.Outcomes | cmd/root.go:38-44 | Each launched task sends exactly one outcome. |
| Root.Run | cmd/root.go:31-70 | If the configuration cannot be read, decoded or validated: the error is logged with the configuration message, nothing is launched and no summary is printed. Otherwise every task of the batch is launched, and the outcomes arrive in any order. The printed summary is the fold of that arrival order. Its success count and its failure reasons (up to order) are those of the tasks' outcomes, and the two counts add up to the number of tasks. |
| Activities.Item | workflow/activities.go:134 | One rendered item: the key, ": ", then the value. |
| Activities.IsRendering | workflow/activities.go:132-137 | A text renders the data when it is the items of some enumeration of the data's keys, joined by "; ". |
| Activities.Items | workflow/activities.go:133-136 | One item per listed key, "key: value", in the order of the keys. |
| Activities.ItemsAppend | workflow/activities.go:133-135 | Handling one more key appends its item at the end. |
| Activities.DataToString | workflow/activities.go:122-138 | A conversion error is returned unchanged. Otherwise the text is the items of the data, one per key in some order of the keys, joined by "; ". |
| Activities.EnumerationMultiplicity | workflow/activities.go:133-136 | Each key of the data is listed exactly once. |
| Activities.EnumerationsArePermutations | workflow/activities.go:132-137 | Two renderings of the same data list the same keys; they differ only in the order of their items. |
| Activities.EnumerationLength | workflow/activities.go:132-137 | A rendering has exactly one item per key of the data. |
| Activities.RenderingOfNothing | workflow/activities.go:132-137 | Data with no keys renders as the empty text, and only as that. |
| Activities.RenderingOfOne | workflow/activities.go:132-137 | Data with one key renders as that key's single item, and only as that. |
| Activities.Label | workflow/activities.go:146-185 | The fixed label of each listed type that carries data. |
| Activities.EventLine | workflow/activities.go:146-188 | The line of an event: the time, " - " and the turn boundary, or the label, ": " and the data; an unlisted type gets "Event [<type>]: <data>" with no time. |
| Activities.IsLogLine | workflow/activities.go:140-190 | A line eventToLog may write for an event: the empty line when the data does not render, else the event's line for one rendering of its data. |
| Activities.UnrenderedLineReadsNothing | workflow/activities.go:143-145 | The empty line written for data that cannot be rendered reads back as no entry: that event's type is not recoverable from the log. |
| Activities.EventToLog | workflow/activities.go:140-190 | Never returns an error. When the data cannot be rendered, the line is empty. Otherwise the line is the event type's line for one rendering of its data. |
| Activities.IndexOf | workflow/activities.go:146-188 | Finds the first position of a character, or reports that it is absent. |
| Activities.Cut | workflow/activities.go:146-188 | A cut splits a line into the text before the separator and the text after it. The text before holds no copy of the separator's first character. |
| Activities.TypeOfLabel | workflow/activities.go:148-185 | A label that names a type is that data-carrying type's label. |
| Activities.TypeOfLabelInverse | workflow/activities.go:148-185 | Each fixed label names its own type and no other, so the labels are distinct. |
| Activities.NoColonInLabels | workflow/activities.go:148-185 | No fixed label holds a ':'. |
| Activities.IndexOfFirst | workflow/activities.go:146-188 | The first occurrence of a character comes right after a text that does not hold it. |
| Activities.CutAfter | workflow/activities.go:146-188 | A text without the separator's first character, followed by the separator, is cut right after that text. |
| Activities.ReadHeadedLine | workflow/activities.go:148-185 | A line that starts with the time is read by what follows the time and " - ". |
| Activities.ReadLabelledRest | workflow/activities.go:148-185 | A label, ": " and data read back as the label's type and that data. |
| Activities.ReadLabelledEventLine | workflow/activities.go:148-157 | The line "<now> - <Label>: <data>" of a data-carrying listed type reads back as its type and data. |
| Activities.NotPrefixByFirst | workflow/activities.go:146-188 | A line whose first character differs from a prefix's first character does not start with that prefix. |
| Activities.ReadOpenedLine | workflow/activities.go:187-188 | A line that starts with "Event [" and not with the time is read as an unlisted type. |
| Activities.ReadUnlistedEventLine | workflow/activities.go:187-188 | The line "Event [<type>]: <data>" of an unlisted type, with no time, reads back as that type's text and data. |
| Activities.EventLineRoundTrip | workflow/activities.go:146-190 | For an event whose data renders, the line eventToLog writes reads back as its event's type. It also gives back the data, except for turn boundaries, whose lines ("<now> - Assistant Turn Started" / "Ended") carry none. Two conditions apply: the time does not begin with 'E', and an unlisted type's text holds no ']'. |
| Activities.EventLineInjective | workflow/activities.go:146-190 | At the same time, distinct event types give distinct lines, and a data-carrying type's line fixes its data. Same two conditions as the round trip: the time does not begin with 'E', and no unlisted type's text holds a ']'. |
| Activities.AppendedDeliveries | workflow/activities.go:77-93 | No more lines are written than events were delivered. |
| Activities.AllAppended | workflow/activities.go:77-93 | When every append succeeds, every delivered event is written, in order; repeated events are not merged. |
| Activities.AppendFailureLog | workflow/activities.go:83-117 | The message logged when opening or writing the log file fails, with the error's text. |
| Activities.AppendError | workflow/activities.go:108-117 | The final append returns an error exactly when it did not succeed. |
| Activities.FailureLogs | workflow/activities.go:83-92 | One failure message per delivery whose append failed, in order. Together with the lines written, there is exactly one per delivery. |
| Activities.SessionLog | workflow/activities.go:77-118 | What is logged once the session exists: the streamed events' append failures, then the send error, then the final append's failure. |
| Activities.Listen | workflow/activities.go:77-93 | Each event is converted and appended, in order. The lines written are the log lines of the events whose append succeeded. The messages logged are exactly the failure messages of the other appends, in order, and the listener goes on. |
| Activities.KeepServers | workflow/activities.go:48-54 | The session keeps exactly the merged servers that pass the type test, with their values unchanged. A nil merge keeps none. |
| Activities.RunCopilot | workflow/activities.go:16-120 | An empty log file fails first with GetLogFile's error, before any client exists. The client gets the task's working directory, log level and environment, and the token only when it is set. A start error fails the activity with its message. The session gets "gpt-4.1" when no model is given, no system message when the prompt is empty, the task's working directory, tools and skills, and exactly the merged MCP servers that pass the type test. A session error fails the activity with its message. The task's prompt is sent, with timeout 120 when the task's is not positive, and the task's timeout otherwise. Every streamed event whose append succeeds is written, in order. The messages logged are exactly the session log: the streamed append failures, then the send error, then the final append's failure. A send error is only logged. The activity fails only when the final response's append fails, with that append's error. |
| Activities.Converse | workflow/activities.go:77-119 | Once the session exists: the streamed events and then the final response are written in order, and the messages logged are exactly the session log. A failed send is logged and does not fail the activity. Only the final append's error is returned. |
| Activities.FinalDelivery | workflow/activities.go:102-118 | Appending the final response adds its line exactly when its append succeeds. |

## Left out

- Concurrency in the root command (the goroutines, the wait group and the channel, `cmd/root.go:36-49`). The outcomes are a sequence in any arrival order: `Root.Run` chooses a permutation of the launch order.
- Temporal: `RunCopilotWorkflow`, `CopilotWorkflow` and `StartWorker`, including retries. `Root.Run` takes each task's outcome as a function of the task.
- The Copilot SDK and the file system. Client start, session creation, the send and each append are inputs to `RunCopilot`, as the error or result they produce. `client.Stop` and `session.Destroy` have no effect on what the activity returns and are not modelled.
- A partial write: a failed append is modelled as writing nothing.
- The type test on MCP servers (`v.(map[string]any)`): it depends on SDK types. It is a parameter `isGenericMap`.
- The unit of the timeout: it is passed on as a raw `time.Duration` (nanoseconds). Only the defaulted integer is modelled.
- JSON encoding and decoding, and `%v` rendering. The decoder is an abstract partial function, and an event's data arrives already rendered to text per key. Go's map iteration order is left open: `Activities.DataToString` promises no order.
- The clock and RFC 1123 formatting: the formatted time `now` is a parameter.
- The exact text of `log.Println`/`log.Printf` output (its date prefix and trailing newline). Logged messages are modelled as their text.
- Activities.RunCopilot: the final response may also reach the listener, if the SDK streams it, and then be written twice. That depends on the SDK and is not claimed either way.
- The command-line flags, the `render` command and the HTML components.
- `GetToken`, `serializeEvent`, the `CopilotEvent` type and the components' helpers: their code is not part of this model.
- A round trip from `eventToLog`'s text lines to `LoadEvents`. `LoadEvents` decodes each line as JSON and `RunCopilot` writes plain text, so no such round trip exists.
- Activities.EventToLog: an event whose data cannot be rendered is written as an empty line, which reads back as nothing (Activities.UnrenderedLineReadsNothing). The round trip holds only for events whose data renders.
- Activities.Converse: assumes the listener runs sequentially and has finished every streamed event before the send returns, so the streamed lines come before the final response's line. In the code the listener stays registered until the deferred `session.Destroy`, so its appends could interleave with or follow the final line, and events delivered after the send returns are not captured.
- Activities.RunCopilot: the same sequential-listener assumption as Activities.Converse: the log order is fixed as streamed events first, then the final response, and post-send or interleaved listener appends are not captured.
- Activities.EventLineInjective: holds under the same two conditions as Activities.EventLineRoundTrip.
- Activities.EventLineRoundTrip: assumes the formatted time does not begin with 'E', as RFC 1123 dates begin with a day name. It also assumes an unlisted type's text holds no ']'; otherwise such a line is ambiguous.
- Root.SummaryRoundTrip: assumes no failure reason spans several lines; otherwise the printed reasons cannot be told apart.
