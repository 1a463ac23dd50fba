# hackatime-lsp heartbeat pipeline in Dafny

hackatime-lsp is a language server that watches an editor's change and save
notifications and reports coding activity ("heartbeats") to the wakatime
command-line tool. This project models its heartbeat pipeline and proves
properties about it:

- the **event handlers** turn a notification into a heartbeat record. A
  change gives the line number, cursor column and line count of its first
  content change. A save gives a write at line 1 with the last recorded
  cursor column.
- the **throttle** admits every save, and admits a change only when the file
  has had no admitted event for 50 ms.
- the **queue** is first in, first out. An admitted record gets its project
  fields filled in and is appended. The queue is flushed at once when it
  reaches 100 records, and a timer is armed when it goes from empty to one
  record. Each flush dispatches exactly one record and re-arms the timer
  while records remain.
- the **cursor tracker** keeps the last column per file.
- **sending** fails without starting anything when no tool path is
  configured. Otherwise it builds the tool's argument vector.
- the **argument builder** emits six fixed flag/value pairs and then optional
  flags in a fixed order. The entity, plugin, API key and URL, project
  fields and local file go through `quoteArg`, which quotes a value when it
  contains a space, tab, double quote or backslash. The category, the time
  and the integers are passed as they are.
- the **configuration reader** returns the value of the first `key = value`
  line that declares a key, skipping blank lines and `#` comments.

Files:

- `wrappers.dfy`: `Option` and `Result`.
- `heartbeat.dfy`: the heartbeat record.
- `text.dfy`: the Go string helpers the code relies on: `strings.Split`,
  `TrimSpace`, `HasPrefix`, `TrimPrefix` and `strconv.Itoa`, and `IndexOf`,
  the position of the first `=` where `strings.SplitN(line, "=", 2)` cuts a
  configuration line in two.
- `events.dfy`: URI-to-path, `filepath.Base`, filling the project fields,
  and deriving heartbeats from notifications.
- `cli_args.dfy`: quoting and the argument vector.
- `config.dfy`: configuration lookup.
- `server.dfy`: the server state as a class, with the throttle, queue,
  timer, cursor tracker and notification handlers as methods.

Goroutines and timer callbacks are modelled as running to completion at the
point where they start or fire. A record is "dispatched" when a flush hands
it to the sending step, and the ghost logs `enqueued` and `dispatched` record
this. The class invariant `Valid` states three things:

- what was dispatched, followed by the queue, is everything enqueued (FIFO);
- the queue stays below 100 records;
- a timer is armed exactly while records wait.

Two facts about the code shape the model:

- `buildHeartbeatArgs` (`hackatime-lsp/utils.go:15-66`) quotes only some
  values. The entity, plugin, API key and URL, project fields and local file
  go through `quoteArg`. The category, time and integers are passed as they
  are.
- `Heartbeat` in `hackatime-lsp/types.go` declares no `AILineChanges` or
  `HumanLineChanges` fields, yet `hackatime-lsp/utils.go:26-30` reads them.
  The record here carries both as integers, as the builder uses them.

## Model

| member | source | states |
|---|---|---|
| Text.Split | hackatime-lsp/utils.go:99 | `strings.Split` on one separator character: at least one piece, and no piece holds the separator; JoinSplit, SplitLength, SplitAppend and SplitNoSeparator carry the rest |
| Text.SplitLength | hackatime-lsp/main.go:211 | splitting on a separator yields one more piece than there are separators |
| Text.JoinSplit | hackatime-lsp/utils.go:99 | splitting the configuration text into lines loses and adds nothing: joining the lines gives the text back |
| Text.SplitAppend | hackatime-lsp/utils.go:99 | splitting text, a separator and separator-free text gives the pieces of the first followed by the second |
| Text.SplitNoSeparator | hackatime-lsp/utils.go:99 | text without the separator splits into itself alone |
| Text.TrimSpace | hackatime-lsp/utils.go:101 | `strings.TrimSpace`; TrimSpaceSpec carries its properties |
| Text.TrimSpaceOmits | hackatime-lsp/utils.go:107 | trimming adds no character, so a key cut before the first `=` holds no `=` after trimming |
| Text.TrimSpaceSpec | hackatime-lsp/utils.go:101 | a trimmed line is a contiguous slice of the line with no white space at either end, and everything dropped before and after it is white space |
| Text.IndexOf | hackatime-lsp/utils.go:106 | the position of the first `=`, or -1 exactly when there is none |
| Text.Itoa | hackatime-lsp/utils.go:18-20 | `strconv.Itoa`; ItoaRoundTrip and NegativeRoundTrip carry its properties |
| Text.ItoaRoundTrip | hackatime-lsp/utils.go:18-20 | the decimal text of every integer reads back as that integer |
| Text.NegativeRoundTrip | hackatime-lsp/utils.go:18-20 | a negative integer is written as '-' followed by the text of its magnitude, and reads back as itself |
| CliArgs.NeedsQuoting | hackatime-lsp/utils.go:78-85 | the rune scan returns true iff the argument contains a space, tab, double quote or backslash |
| CliArgs.EscapeQuotes | hackatime-lsp/utils.go:73 | replacing `"` with `\"` adds one character per double quote and never starts with a quote |
| CliArgs.UnescapeEscape | hackatime-lsp/utils.go:73 | the escaping is undone by reading `\"` back as `"`, so no information is lost |
| CliArgs.QuoteArg | hackatime-lsp/utils.go:71-76 | `quoteArg`: quotes and escapes an argument that needs it; QuoteArgRoundTrip and QuotedForm carry its properties |
| CliArgs.QuoteArgRoundTrip | hackatime-lsp/utils.go:71-76 | quoteArg returns its argument unchanged iff it needs no quoting, and unquoting always recovers the argument |
| CliArgs.QuotedForm | hackatime-lsp/utils.go:72-73 | a quoted argument is `"`, then the argument with each `"` written `\"` and backslashes left alone, then `"`, so its length grows by two plus the number of quotes |
| CliArgs.FlagOfText | hackatime-lsp/utils.go:15-66 | every flag's text is recognised as that flag |
| CliArgs.RankOfFlag | hackatime-lsp/utils.go:15-66 | each flag has a distinct position in the builder's order |
| CliArgs.FlattenAppend | hackatime-lsp/utils.go:12-69 | appending options to the vector appends their words |
| CliArgs.ParseFlatten | hackatime-lsp/utils.go:12-69 | a vector of well-formed options, with switches alone and every other flag followed by its value, reads back into exactly those options |
| CliArgs.ArgsUpToFlatten | hackatime-lsp/utils.go:12-69 | appending each chosen option's words in turn yields the flattened list of chosen options |
| CliArgs.OptionsUpToMembers | hackatime-lsp/utils.go:12-69 | the options after the first k flags are exactly the options chosen for those flags |
| CliArgs.OptionsUpToOrdered | hackatime-lsp/utils.go:12-69 | the chosen options appear in strictly increasing flag order, each flag at most once |
| CliArgs.ArgsUpToGrows | hackatime-lsp/utils.go:12-69 | later appends never change what is already in the vector: it only grows at the end |
| CliArgs.OptionFor | hackatime-lsp/utils.go:15-66 | per flag, whether `buildHeartbeatArgs` appends it and with which value; OptionsByFlag and HeartbeatChoiceConsistent carry its properties |
| CliArgs.HeartbeatChoiceConsistent | hackatime-lsp/utils.go:15-66 | every flag is emitted with a value, except `--write` and `--is-unsaved-entity`, which stand alone |
| CliArgs.AlwaysPresent | hackatime-lsp/utils.go:15-20 | entity, time, plugin, line number, cursor position and line count are always emitted |
| CliArgs.OptionsByFlag | hackatime-lsp/utils.go:22-66 | each optional flag appears iff its condition holds (non-empty category, key, URL, project fields and local file; positive line-change counts; write and unsaved set) and then with the value the source gives it; flags appear in source order |
| CliArgs.ArgsFixedPrefix | hackatime-lsp/utils.go:15-20 | every heartbeat's vector begins with those twelve words |
| CliArgs.ArgsParse | hackatime-lsp/utils.go:12-69 | the vector is unambiguous: it reads back into exactly the heartbeat's options |
| CliArgs.ArgsByFlag | hackatime-lsp/utils.go:12-69 | the flag-by-flag vector equals the flattened options of the heartbeat |
| CliArgs.BuildHeartbeatArgs | hackatime-lsp/utils.go:12-69 | the vector built by successive appends is the flag-by-flag vector and the flattened option list, so every property above holds of it |
| CliArgs.FixedArgs | hackatime-lsp/utils.go:13-20 | the six fixed pairs, in order |
| CliArgs.AppendActivity | hackatime-lsp/utils.go:22-31 | appends the category and the AI and human line-change counts, each only when set |
| CliArgs.AppendApiSettings | hackatime-lsp/utils.go:33-38 | appends the quoted API key and API URL, each only when non-empty |
| CliArgs.AppendProject | hackatime-lsp/utils.go:40-45 | appends the quoted alternate project and project folder, each only when non-empty |
| CliArgs.AppendFileState | hackatime-lsp/utils.go:47-66 | appends `--write`, `--is-unsaved-entity` and the quoted local file, each only when set |
| Config.Entry | hackatime-lsp/utils.go:101-108 | a line declares nothing iff it trims to empty, starts with `#` or holds no `=`; otherwise the key and value are trimmed and the key holds no `=`, as only the first `=` splits; DeclarationOfLine ties them to the text before and after that `=` |
| Config.ConfigValue | hackatime-lsp/utils.go:99-112 | the value of the first declaring line, or "": always trimmed; FirstDeclarationWins and UndeclaredIsEmpty carry the rest |
| Config.GetConfigValue | hackatime-lsp/utils.go:87-113 | the line scan returns the value of the first declaring line, or "" when there is none or the file cannot be read |
| Config.FirstDeclarationWins | hackatime-lsp/utils.go:100-109 | the value comes from the first line declaring the key, whatever follows |
| Config.UndeclaredIsEmpty | hackatime-lsp/utils.go:112 | with no declaring line the value is "" |
| Config.SkippedLines | hackatime-lsp/utils.go:101-104 | blank lines and lines starting with `#` declare nothing |
| Config.DeclarationOfLine | hackatime-lsp/utils.go:101-108 | a line that trims to `k=v`, with no `=` in `k` and `k` not a comment, declares the trimmed `k` with the trimmed `v`, so `apiKey = waka_123` declares `apiKey` as `waka_123` |
| Config.DeclarationReadBack | hackatime-lsp/utils.go:101-108 | a line `key=value` declares that key with that value when the key is trimmed, non-empty, free of `=` and not a comment, and the value is trimmed; only the first `=` splits |
| Config.DeclarationAfter | hackatime-lsp/utils.go:100-110 | a declaring line after lines that do not declare the key supplies the value |
| Config.AppendedLine | hackatime-lsp/utils.go:99 | appending a line break and such a line to the text adds exactly that line to the split |
| Config.AppendedDeclaration | hackatime-lsp/utils.go:99-112 | a declaration appended to a file that does not yet declare the key is the value read back |
| Events.CleanFileUri | hackatime-lsp/main.go:264-265 | a `file://` URI becomes the path after the scheme; anything else is unchanged |
| Events.CleanFileUriOfPath | hackatime-lsp/main.go:265 | the path of `file://` + p is p |
| Events.LastSegment | hackatime-lsp/main.go:110 | the text after the last `/`: a suffix of the path containing no `/` that reaches back to a `/` or to the start |
| Events.TrimTrailingSlashes | hackatime-lsp/main.go:110 | a prefix of the path, not ending in `/`, where only slashes were dropped |
| Events.Base | hackatime-lsp/main.go:110 | the base name of the project root is its last element once trailing slashes are dropped: a suffix of that path reaching back to a `/` or to its start, never empty, and `/` or free of `/`; the empty path gives `.` and a path of slashes gives `/` |
| Events.BaseOfPath | hackatime-lsp/main.go:110 | the base name of a directory, a `/` and a name without `/` is that name, as `/repo` gives `repo` |
| Events.BaseOfName | hackatime-lsp/main.go:110 | a name without `/` is its own base name |
| Events.FillProject | hackatime-lsp/main.go:109-114 | an empty alternate project becomes the base of the project root, and an empty project folder becomes the project folder, each only when the server knows one; all other fields are unchanged |
| Events.FillProjectIdempotent | hackatime-lsp/main.go:109-114 | filling a record twice is filling it once |
| Events.LineCount | hackatime-lsp/main.go:211 | the number of pieces when text is split on line breaks is the number of line breaks plus one |
| Events.ChangeLocation | hackatime-lsp/main.go:198-213 | defaults are line 1, column 0 and 1 line, kept for no changes or a whole-document change. For an incremental first change: line = start.line + 1 and column = start.character when it has a range, and the line count is the number of line breaks plus one |
| Events.OnlyFirstChangeCounts | hackatime-lsp/main.go:202-203 | changes after the first never affect the result |
| Events.ChangeHeartbeat | hackatime-lsp/main.go:218-227 | a change heartbeat is a `file` entity for the cleaned path in the `coding` category from plugin `Zed`, not a write and not unsaved, at the derived line, column and line count, with no project fields, local file or line-change counts yet |
| Events.SaveHeartbeat | hackatime-lsp/main.go:237-252 | a save heartbeat is a write of a `file` entity in the `coding` category from plugin `Zed`, not unsaved, at line 1 with the given cursor column, with no project fields, local file or line-change counts yet; its line count is the saved text's line breaks plus one, or 1 without text |
| Server.Admits | hackatime-lsp/main.go:164-169 | the throttle's test: a save, a file with no admitted event, or one whose last admitted event is at least 50 ms old; DebounceWindow carries its consequence |
| Server.DebounceWindow | hackatime-lsp/main.go:164-172 | after an event for a file is admitted at t, a later event for that file is admitted iff it is a save or at least 50 ms later |
| Server.Server.constructor | hackatime-lsp/main.go:29-46 | an empty queue, no timer, empty time and cursor tables, empty logs |
| Server.Server.Initialize | hackatime-lsp/main.go:180-188 | the project root and folder come from the root URI's path, else the root path, else they are unchanged |
| Server.Server.SaveCursorPosition | hackatime-lsp/main.go:48-56 | the file's column becomes pos and every other file's entry is unchanged |
| Server.Server.GetCursorPosition | hackatime-lsp/main.go:58-66 | the saved column for the file, or 0 when none was saved |
| Server.Server.SendHeartbeat | hackatime-lsp/main.go:90-96 | with an empty tool path, the error "wakatime-cli path not provided" and nothing started; otherwise the argument vector for the heartbeat, using the configuration's apiKey and apiUrl |
| Server.Server.ScheduleBatchSend | hackatime-lsp/main.go:125-134 | afterwards a timer is armed and nothing else changes, so scheduling again changes nothing (idempotent) |
| Server.Server.Flush | hackatime-lsp/main.go:136-153 | an empty queue is left alone. Otherwise exactly the head is dispatched, the queue becomes its tail, the send time becomes now, and the timer is re-armed iff records remain. Dispatched followed by queued is preserved |
| Server.Server.TimerFires | hackatime-lsp/main.go:130-133 | the callback disarms the timer, then flushes: the head is dispatched and the invariant is kept |
| Server.Server.Enqueues | hackatime-lsp/main.go:117-122 | the enqueue effect: the record is appended and logged, and when the queue reaches 100 its head is dispatched at once |
| Server.Server.QueueHeartbeat | hackatime-lsp/main.go:105-123 | the filled record is appended to the queue and the log. When that reaches 100 records, the head is dispatched at once; a timer is armed afterwards; the invariant (FIFO, bound, timer) is kept |
| Server.Server.Throttles | hackatime-lsp/main.go:164-172 | the throttle's effect: on admission the file's time becomes now and the record is enqueued; on refusal no field changes |
| Server.Server.ThrottledHeartbeat | hackatime-lsp/main.go:155-173 | a save is always queued; a change is queued iff its file has no entry or its last admitted event is at least 50 ms old. On admission the file's time becomes now; on refusal nothing changes |
| Server.Server.DidChange | hackatime-lsp/main.go:195-232 | records the derived column for the cleaned path, then offers the change heartbeat to the throttle |
| Server.Server.DidSave | hackatime-lsp/main.go:234-257 | offers a save heartbeat carrying the last saved column (or 0), which is always admitted, so the file's time becomes now |

## Left out

- `logEvent` (`hackatime-lsp/main.go:68-88`) appends JSON to a log file. It is file I/O and is not modelled.
- Server.Server.SendHeartbeat returns the argument vector rather than running the tool. The subprocess call, its 10-second timeout and its exit status are not modelled. The flush also discards the result.
- Goroutines, mutexes and real timers are not modelled. Each `go` call and each timer callback runs at the point where it starts or fires. Interleavings are not modelled, such as a timer callback clearing its reference outside the queue lock, or two queued records racing. The 120-second delay is not modelled either: when the timer fires is an input, TimerFires.
- Server.Server.TimerFires requires the invariant and an armed timer. Under the sequential model an armed timer means a non-empty queue, so the callback's empty-queue case is reached only through Flush.
- Server.Server.Valid states "a timer is armed iff records wait" and "the queue stays below 100 records". Both hold only in the sequential model. With real concurrency, a timer can be armed over an empty queue. Also, the flush started when the queue reaches 100 (`hackatime-lsp/main.go:118-119`) is a goroutine that waits for the queue lock, so other pending `queueHeartbeat` goroutines (`hackatime-lsp/main.go:168, 171`) can push the queue past 100 before it runs.
- Events.CleanFileUri: only the `file://` prefix is stripped. `filepath.Clean` is not applied, and the Windows branch that drops a leading `/` is not modelled.
- Server.Server.Initialize: the root path is used as given, without `filepath.Clean`.
- `filepath.Base` is modelled with Unix separators only.
- The Windows-only `--config` and `--log-file` arguments (`hackatime-lsp/utils.go:51-58`) and the home-directory lookups `getConfigFilePath` and `getLogFilePath` are platform queries and are not modelled. The non-Windows vector is modelled.
- Reading the configuration file (`hackatime-lsp/utils.go:88-97`) is a parameter: its contents, or None when the home directory or the file cannot be read.
- Floating-point time is not modelled. A heartbeat's time is whole milliseconds, which is also the throttle's clock. The `%.3f` seconds text is a parameter of the argument builder.
- LSP server setup, flag parsing and the protocol library's decoding (`hackatime-lsp/main.go:175-193, 258-262`) are library plumbing. Notifications arrive as already-decoded values, and `lastSentTime` starts at 0 instead of Go's zero time.
- The `Heartbeat` fields `Branch`, `Language`, `Hostname` and `UserAgent` are never read by the logic and are left out. So are the JSON field names.
- Strings are sequences of Unicode scalar values. Invalid UTF-8 and Go's byte-level string indexing are not modelled.
- Arguments are passed to the tool without a shell. Any quotes that quoteArg adds therefore reach the tool as literal characters. The model states what the code builds and does not judge it.
