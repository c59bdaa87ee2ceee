# A verified model of the go-commons `logging` package

This project models the core of the `logging` package of codemanch/go-commons
in Dafny and proves properties of the model. The core covered is:

- the severity scale (`Levels`, `LevelsMap`, `Severity.String`);
- the `Logger` with its five level flags, `updateLvlFlags`, `IsEnabled` and
  the ten level methods (`Error` … `TraceF`);
- the package state (the logger cache, the writer list, the configuration)
  with `init`, `Configure`, `GetLogger` and `handleLog`;
- `writeLogMsg`, which lays a record out as JSON or as a text line;
- the file writer and the console writer (`InitConfig`, `DoLog`, `Close`);
- the pooled messages of `logmsg.go` (`getLogMessage`, `getLogMessageF`,
  `putLogMessage`).

Files and modules:

| file | module | models |
|---|---|---|
| `wrappers.dfy` | `Wrappers` | `Option` (Go's nil / error results) |
| `gostrings.dfy` | `GoStrings` | `strings.Split`, its inverse join, `strconv.Itoa`, `fmt.Fprintln` over strings |
| `severity.dfy` | `Severity` | the scale, `Levels`, `LevelsMap`, `Severity.String` |
| `config.dfy` | `Config` | the configuration records, `loadDefaultConfig`, the defaults `Configure` fills in, the override scan |
| `output.dfy` | `Output` | the log record, destinations, writes, the per-severity switch of `DoLog`, `writeLogMsg` |
| `filewriter.dfy` | `FileWriters` | `FileWriter`, plus the file system it opens files in |
| `consolewriter.dfy` | `ConsoleWriters` | `ConsoleWriter` |
| `logmsg.dfy` | `Pool` | the message pool of `logmsg.go` |
| `logger.dfy` | `Logging` | `Logger`, and the package state as the class `Engine` |

How the model is built:

- **Writes are values.** A write is a destination plus the bytes written. Each
  operation that writes returns its writes in the order the source performs
  them. Destinations are standard output, standard error, `io.Discard` and
  opened files.
- **Opened files.** A file handle is `Handle(id, path)`, where `id` is the
  handle's position in the `FileSystem`'s open log. Every `os.OpenFile` call
  therefore yields a distinct handle, even for the same path.
- **Severity.** A severity is a Go `int`, so values off the scale are modelled.
- **Package globals.** The variables `loggers`, `writers` and `logConfig` are
  the fields of one `Engine` object. `init` is its constructor, given the
  configuration that `loadConfig` would have returned.
- **Foreign calls.** `runtime.Caller` becomes a `Caller` argument holding the
  qualified function name and the line. The text of `fmt.Sprint` /
  `fmt.Sprintf` is a string argument. The clock reading is an opaque `Instant`.
  `Time.Format` and `json.Marshal` are function-typed fields of a `Foreign`
  parameter.
- **The message record.** The package declares three incompatible
  `LogMessage` types: logging/logger.go:89-95, logging/logmsg.go:20-27 and
  logging/logmessage.go:6-12. Writers and `handleLog` use the datatype
  `Output.LogMessage`. Its content string plays the role of both `Msg` and
  the pool's `Buf`. The pool updates its messages in place, so there the
  record is the class `Pool.PooledMessage`.

Properties proved, in outline:

- **`Configure`.** The writers it appends are exactly one per entry with a
  file or console part, in order. `BuiltAll` ties each new writer's routing
  table to its entry. Consequences:
  - `BuiltWrites`: fanning a record out to those writers gives exactly the
    writes the configuration alone predicts (`PlannedWrites`).
  - `LogAfterInit`: `init` followed by `handleLog` delivers a record exactly
    there.
- **`FileWriter.InitConfig`.** The files it opens are exactly the set paths,
  with the default path first (`OpenList`). Every slot ends as
  `SlotAfterInit` says, and the lemmas about `SlotAfterInit` give the
  promised routing.
- **`GetLogger`.** A cache hit returns the cached logger and leaves the cache
  unchanged. A miss adds exactly one entry. On that entry:
  - the threshold comes from the last matching override, or from the default
    level;
  - the flags match the threshold.
- **Text layout.** A text line splits back into its fields
  (`TextLineFields`), using the `Split`/join round trips of `GoStrings`.
- **The pool.** Reuse after a put yields exactly the new text
  (`ReuseAfterPut`).

Behaviour kept as the code has it, where the comments or the
natural reading suggest otherwise:

- `IsEnabled(s)` is `s <= TraceLvl && s >= l.sev`. It accepts the severities
  from the threshold upwards, which is the opposite of the flags, and the
  package's own tests expect exactly this.
- The console writer sends Info, Debug and Trace to `io.Discard`. The comment
  on `ConsoleConfig` says standard output, but the later assignment in
  `InitConfig` wins.
- `Configure` appends writers to the existing list, even when called again,
  and never clears the logger cache.
- The override scan has no `break`, so the last matching override wins. A
  level name missing from `LevelsMap` resolves to Off.
- `Configure` never fills in a default `Format`, although the comment on the
  field says text is the default. A configuration with no format therefore
  writes nothing: `writeLogMsg` handles only "json" and "text" (`FanOutSilent`).
- No fallback to standard output or standard error exists for a level that no
  writer covers, although the comment on `Writers` promises one. Such a
  record is simply not written.
- `FileWriter.Close` closes only the debug slot's handle. With a nil debug
  slot the Go call panics; the model returns the outcome `NilPanic`.

## Model

| member | source | states |
|---|---|---|
| Severity.LevelsRoundTrip | logging/logger.go:129-146 | `Levels` and `LevelsMap` are inverse tables on the six ordinals |
| Severity.Name | logging/logger.go:354-359 | `String` gives an error and "" exactly for values off the scale, otherwise a name that `LevelsMap` maps back to the value |
| Severity.LevelOf | logging/logger.go:283 | `LevelsMap[Level]` is always on the scale; a known name maps to the ordinal whose name it is, an unknown one to Off |
| Severity.NameThenLevel | logging/logger.go:354-359 | resolving the name of an ordinal gives the ordinal back |
| Config.WithDefaults | logging/logger.go:171-183 | an empty date pattern becomes RFC 3339, and a zero queue size becomes 512 exactly in async mode; no other field changes |
| Config.WithDefaultsIdempotent | logging/logger.go:171-183 | filling in the defaults a second time changes nothing |
| Config.Plan | logging/logger.go:184-197 | the entries that get a writer are exactly those with a file or console part |
| Config.PlanAppend | logging/logger.go:184-197 | the plan of a concatenation is the plan of each part in turn, so configuration order and repeated entries are kept |
| Config.PlanSingle | logging/logger.go:185-195 | a single entry gets a writer exactly when it has a file or console part |
| Config.LastMatchDefault | logging/logger.go:272-280 | with no override naming the package, the default level is kept |
| Config.LastMatchLastWins | logging/logger.go:272-280 | with overrides naming the package, the last one wins |
| Config.DefaultConfigShape | logging/logger.go:214-227 | the built-in configuration already has its defaults, resolves to INFO and plans a single console writer |
| GoStrings.Split | logging/logger.go:265-266 | `strings.Split` gives at least one piece and no piece holds the separator |
| GoStrings.JoinSplit | logging/logger.go:265-266 | joining the pieces of a split gives back the string |
| GoStrings.SplitJoin | logging/logger.go:265-266 | splitting a join of separator-free pieces gives back the pieces |
| GoStrings.SplitCons | logging/logger.go:265-266 | a separator-free piece followed by the separator is split off as the first piece |
| GoStrings.SplitJoinLast | logging/logger.go:349-351 | splitting a join whose leading pieces are separator-free gives those pieces, then the split of the last one |
| GoStrings.FirstSegment | logging/logger.go:266-267 | the first split piece is the longest separator-free prefix |
| GoStrings.LastSegment | logging/logger.go:321-322 | the last split piece is the longest separator-free suffix |
| GoStrings.Itoa | logging/logger.go:301 | `strconv.Itoa` has a leading '-' exactly for negatives, then at least one digit and no leading zero |
| GoStrings.DecimalRoundTrip | logging/logger.go:301 | the digits of a natural number, read back as a decimal, give the number |
| GoStrings.ItoaValue | logging/logger.go:301 | reading the output of `strconv.Itoa` back as a signed decimal gives `n` |
| GoStrings.ItoaInjective | logging/logger.go:301 | distinct line numbers print as distinct strings |
| GoStrings.Println | logging/logger.go:349-351 | `fmt.Fprintln` output is the operands joined by single spaces, then a newline |
| GoStrings.PrintlnFields | logging/logger.go:349-351 | when no operand holds a space, the line splits back into exactly its operands |
| Output.Slots.At | logging/filewriter.go:58-71 | the severity switch selects nothing for Off or any value off the scale |
| Output.TextLine | logging/logger.go:299-304 | a text line ends in a newline |
| Output.TextLineFields | logging/logger.go:299-304 | a text line is `time SEV msg` or `time SEV fn:line msg`, and splitting it at spaces recovers those fields |
| Output.TextLineLayout | logging/logger.go:299-304 | for any message text, even one with spaces, the line splits into the time stamp, the severity name, `fn:line` when set, and then the pieces of the text |
| Output.WriteLogMsg | logging/logger.go:293-307 | json gives the marshalled record then a newline, text gives one text line, any other format nothing; all to the given destination |
| Output.Route | logging/filewriter.go:55-76 | a record is written only to the slot of its severity, and not at all when that slot is nil |
| ConsoleWriters.ConsoleRouting | logging/consolewriter.go:15-35 | Error and Warn reach standard output exactly when their flag is set, otherwise standard error; Info, Debug and Trace reach `io.Discard` |
| ConsoleWriters.ConsoleQuiet | logging/consolewriter.go:38-60 | every write of an Info, Debug or Trace record goes to `io.Discard`; an Off record writes nothing |
| ConsoleWriters.ConsoleWriter.constructor | logging/logger.go:191 | `&ConsoleWriter{}` has every slot nil |
| ConsoleWriters.ConsoleWriter.InitConfig | logging/consolewriter.go:15-35 | the slots after the five assignments, the later Discard ones winning |
| ConsoleWriters.ConsoleWriter.DoLog | logging/consolewriter.go:38-60 | the record goes only to the slot of its severity; Off or a nil slot writes nothing |
| ConsoleWriters.ConsoleWriter.Close | logging/consolewriter.go:63-65 | always returns nil |
| FileWriters.FileSystem.Open | logging/filewriter.go:17 | every `os.OpenFile` yields a new handle, recorded in the open log |
| FileWriters.FileSystem.Close | logging/filewriter.go:79 | closing marks the handle closed; a second close reports an error |
| FileWriters.SetPathsShape | logging/filewriter.go:16-35 | only set paths are opened, at most one file each, and nothing exactly when all are empty |
| FileWriters.OpenedBeforeStep | logging/filewriter.go:16-35 | the opens happen in order: default path, then Error, Warn, Info, Debug, Trace |
| FileWriters.DefaultOpenedFirst | logging/filewriter.go:16-18 | the default path is opened before every severity's own path |
| FileWriters.OpenListAround | logging/filewriter.go:16-35 | the open list splits around each severity's own open |
| FileWriters.OwnPathHandle | logging/filewriter.go:19-35 | a severity with its own path gets a handle for that path, never the default handle, whatever the slot held |
| FileWriters.OwnHandlesDistinct | logging/filewriter.go:19-35 | two severities with their own paths never share a handle, even for equal paths |
| FileWriters.FallbackHandle | logging/filewriter.go:36-52 | a severity without its own path falls back to the one shared default handle, or stays nil |
| FileWriters.OtherSlotsKeepPath | logging/filewriter.go:19-52 | changing one severity's path leaves every other severity writing to the same file |
| FileWriters.OpenListShape | logging/filewriter.go:16-35 | at most six opens, all of set paths, the default path first when set |
| FileWriters.FileWriter.constructor | logging/logger.go:187 | `&FileWriter{}` has every slot nil |
| FileWriters.FileWriter.InitConfig | logging/filewriter.go:13-53 | opens exactly the set paths, leaves every slot as `SlotAfterInit` says, echoes the error path to standard error |
| FileWriters.FileWriter.OpenAll | logging/filewriter.go:15-35 | the six conditional opens, each slot getting its own handle or keeping what it held |
| FileWriters.FileWriter.OpenLevel | logging/filewriter.go:19-35 | one severity's conditional open, at its place in the open order |
| FileWriters.FileWriter.Backfill | logging/filewriter.go:36-52 | a nil slot takes the default handle, a set one is kept |
| FileWriters.FileWriter.BackfillSlot | logging/filewriter.go:36-52 | open step then back-fill step give `SlotAfterInit` |
| FileWriters.FileWriter.OpenSlot | logging/filewriter.go:24-26 | a set path is opened into the slot, an empty one leaves it |
| FileWriters.FileWriter.DoLog | logging/filewriter.go:55-76 | the record goes only to the slot of its severity; Off or a nil slot writes nothing |
| FileWriters.FileWriter.Close | logging/filewriter.go:78-80 | closes only the debug slot's handle; a nil debug slot panics |
| FileWriters.NewInitialised | logging/logger.go:187-188 | a new file writer after `InitConfig` routes as `FileSlots` says |
| Pool.PooledMessage.constructor | logging/logmsg.go:11-17 | the pool's `New` gives an empty buffer |
| Pool.MessagePool.constructor | logging/logmsg.go:11-17 | a new pool is empty |
| Pool.MessagePool.Get | logging/logmsg.go:30 | removes exactly the chosen pooled message, or allocates one with an empty buffer; other pooled messages stay |
| Pool.MessagePool.GetLogMessage | logging/logmsg.go:39-48 | sets severity and time, clears function and line, appends the text to the buffer without emptying it |
| Pool.MessagePool.PutLogMessage | logging/logmsg.go:50-53 | empties the buffer and returns the message to the pool, other fields kept |
| Pool.ReuseAfterPut | logging/logmsg.go:29-53 | a message put back and handed out again holds exactly the new text |
| Logging.FanOutAppend | logging/logger.go:332-334 | fanning out to a concatenated list is fanning out to each part in turn |
| Logging.FanOutSingle | logging/logger.go:332-334 | one writer produces exactly its own writes |
| Logging.FanOutSilent | logging/logger.go:332-334 | an Off record, or an unknown format, produces no write |
| Logging.PackageName | logging/logger.go:263-267 | the package name is the text after the last '/', up to the first '.' |
| Logging.ResolveLevel | logging/logger.go:272-280 | the scan settles on the last matching override, or the default level |
| Logging.Logger.constructor | logging/logger.go:282-287 | the logger literal, with every flag false |
| Logging.Logger.UpdateLvlFlags | logging/logger.go:201-211 | on the scale the flags follow the threshold; off it an error, flags unchanged |
| Logging.Logger.Log | logging/logger.go:366-371 | `Error` (and alike `Warn`, `Info`, `Debug`, `Trace`) hands on the record exactly when its flag is set and an operand was passed |
| Logging.Logger.LogF | logging/logger.go:373-378 | `ErrorF` (and alike the other four) hands on the record exactly when its flag is set |
| Logging.FlagsChain | logging/logger.go:201-211 | trace ⇒ debug ⇒ info ⇒ warn ⇒ error, and each flag holds exactly at or below the threshold |
| Logging.Logger.IsEnabled | logging/logger.go:362-364 | with flags matching the threshold, a level of the scale is accepted exactly when it is the threshold or its own flag is off: the inverse of the flags' range |
| Logging.IsEnabledAgainstFlags | logging/logger.go:362-364 | `IsEnabled` holds from the threshold upward, the flags from it downward; they agree only at the threshold |
| Logging.IsEnabledCases | logging/logger.go:362-364 | `IsEnabled` is upward closed, never holds above Trace, and rejects the cases the package's tests name |
| Logging.Engine.constructor | logging/logger.go:167-169 | `init` starts with an empty cache and builds the writers of the loaded configuration |
| Logging.Engine.ConfigureFresh | logging/logger.go:167-198 | `Configure` run by `init` on an empty writer list: the writers are exactly those built for the plan, and the opens and echoes are the plan's |
| Logging.Engine.HandleLog | logging/logger.go:310-336 | the record's fields as set, then queued in async mode, otherwise fanned out to every writer in order |
| Logging.Engine.GetLogger | logging/logger.go:262-291 | a hit returns the cached logger, cache unchanged; a miss adds one logger with the resolved threshold, no other entry changed |
| Logging.Engine.Configure | logging/logger.go:171-198 | defaults filled in; old writers kept, one new writer per planned entry appended, built for that entry |
| Logging.Engine.ConfigureEntry | logging/logger.go:185-196 | one loop pass keeps the writers, opens and echoes in step with the plan |
| Logging.Engine.AddWriter | logging/logger.go:186-194 | appends the writer built for the entry, if any |
| Logging.BuildWriter | logging/logger.go:186-194 | a file part gets a file writer, else a console part a console writer, else nothing |
| Logging.BuildFileWriter | logging/logger.go:186-189 | the new file writer routes as its entry says |
| Logging.NewFileOut | logging/logger.go:187-188 | a fresh, initialised file writer |
| Logging.BuildConsoleWriter | logging/logger.go:190-193 | a fresh console writer, initialised from the entry, routes as its entry says and joins the writers built so far |
| Logging.PlanStep | logging/logger.go:185-196 | one more entry adds itself to the plan exactly when it has a file or console part |
| Logging.BuiltAllStep | logging/logger.go:185-196 | appending a writer built for the next entry keeps the writers in step with the plan |
| Logging.BuiltForWrites | logging/logger.go:332-334 | a writer built for an entry writes a record where the entry says |
| Logging.BuiltWrites | logging/logger.go:332-334 | the configured writers deliver a record exactly to the destinations the configuration names, in order |
| Logging.LogAfterInit | logging/logger.go:167-169 | after `init`, a synchronous `handleLog` writes exactly the planned writes; an async one queues |
| Logging.DefaultConfigWrites | logging/logger.go:214-227 | under the built-in configuration Error and Warn text lines go to standard error, Info, Debug and Trace to `io.Discard` |

## Left out

- Asynchronous delivery: the channel, its goroutine and `doAsyncLog` are concurrency. In async mode `handleLog` only reports the record as queued, and the queue size default is kept in `WithDefaults`.
- `loadConfig`: the environment lookup, the file checks, reading and JSON decoding are I/O. `init` takes the loaded configuration as an argument; `loadDefaultConfig` is the constant `DefaultConfig`.
- `runtime.Caller` and `runtime.FuncForPC` are replaced by the `Caller` argument.
- `time.Now`, `Time.Format`, `json.Marshal`, `fmt.Sprint` and `fmt.Sprintf` are foreign. The clock reading and the formatted text are arguments, and the two formatters are function parameters.
- A failed `os.OpenFile`, which stores a typed-nil handle, is left out: opening always succeeds. Writing to a file or stream is only recorded as a write.
- The `bufio.Writer` around standard error in the console writer is never flushed in the source. The model treats its writes as reaching standard error.
- `sync.Pool`'s thread safety and garbage-collector eviction are left out. The pool is a sequential free list, and the caller chooses whether `Get` reuses or allocates.
- A negative queue size, which makes `make(chan …)` panic, is async-only and is not modelled.
- Calling `GetLogger` or `handleLog` before `init` has set `logConfig` (a nil dereference) cannot happen in the model: an `Engine` always holds a configuration.
- `Configure` takes a `*LogConfig` and writes the defaults into the caller's struct, so the caller sees them. The model takes the configuration by value: the `Engine` keeps `WithDefaults(l)`, and the caller's own copy is left unchanged.
- Go strings are byte sequences, while the model's `string` is a sequence of characters. Every separator the package splits or joins on ('/', '.', ' ') is ASCII, so the pieces are the same. Byte lengths of non-ASCII text are not modelled.
- Nil entries in `PkgConfigs` or `Writers` are not modelled: the sequences hold values.
- Pool.MessagePool.PutLogMessage: requires that the message is not already in the pool. `putLogMessage` accepts a second put of the same message, after which `sync.Pool` could hand one message to two borrowers; the model assumes each message is released exactly once, as the package does.
- codec/codec.go, pool/objectpool.go and config/properties_test.go are not part of this model: they hold no logging logic.
