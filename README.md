# boxgo/logger redaction filters, modelled in Dafny

boxgo/logger wraps zap. Every buffer zap writes passes through a chain of
redaction filters before it reaches stdout or stderr. A filter pairs a
compiled regular expression with replacement bytes; the chain is a left fold
of `ReplaceAll`, each filter's output feeding the next. Filters come from
operator specs of the form `pattern==>replacement`. When none are given, five
built-in password filters are used. Around the chain sit the configuration
rules of the `Logger`: defaulting of empty fields, the choice of encoder and
output stream, the level-name mapping and the name given to a traced logger.

The project has six modules:

- `Wrappers`: `Option` and `Result`.
- `GoStrings`: Go strings as byte sequences, and `strings.Index`, `strings.Split` and `strings.Join` for a non-empty separator, with their round trips and the count of parts.
- `Filters` (filter.go): filters, the default set, spec parsing, `newFilterBySlice` as a loop proved against the specification function `BuildFilters`, and the chain `Chain` with `filterDefault`.
- `Writer` (writer.go): the output file as a class that records the calls it receives, and `filterWriter` as a class whose `Write` runs the chain and forwards to the file.
- `Levels` (helper.go): zap's levels and `levelString2Level`.
- `Config` (logger.go): the `Logger` class with `ConfigWillLoad` and `apply`, and the trace name.

The regular-expression library is a parameter. The `Engine` value says which
pattern texts compile and what `ReplaceAll` returns; every filter operation
takes it. `regexp.MustCompile` panicking is the `Failure(CompilePanic(p))`
result. A filter keeps the pattern's source text in place of the compiled
regexp.

`newFilterBySlice` calls `Warnf` on the branch of a well-formed spec, so the
model's `warned` output lists exactly the kept specs. The warning text says
"invalid spec", but the model follows the code.

## Model

| member | source | states |
|---|---|---|
| GoStrings.Index | filter.go:34 | -1 exactly when the separator does not occur; otherwise an occurrence with none before it |
| GoStrings.Split | filter.go:34 | `strings.Split` with a non-empty separator always yields at least one part |
| GoStrings.SplitJoin | filter.go:34 | joining the parts of a split with the separator gives back the original string |
| GoStrings.SplitPartsFree | filter.go:34 | no part produced by a split contains the separator |
| GoStrings.JoinSplit | filter.go:34 | for an unbordered separator, splitting a join of separator-free parts gives back those parts |
| GoStrings.SplitCount | filter.go:34 | for an unbordered separator, the number of parts is the number of occurrences plus one |
| Filters.NewFilter | filter.go:47-52 | succeeds exactly when the rule compiles, keeping the rule and the replacement verbatim; otherwise panics with that rule |
| Filters.NewFilters | filter.go:20-27 | the rules compiled in order: success iff every rule compiles, one filter per rule, in the same position; otherwise the panic of the first rule that fails |
| Filters.Init | filter.go:19-28 | the package `init`: `newFilter` over the five built-in rules in order; its outcome is stated by `InitYieldsDefaults` |
| Filters.DefaultFilters | filter.go:20-27 | the default set is the five built-in rules, each as a filter, in declared order |
| Filters.InitYieldsDefaults | filter.go:19-28 | `init` succeeds iff all five built-in patterns compile, and then produces exactly the default filters |
| Filters.DefaultOrder | filter.go:20-27 | there are five default filters; the `password=…&` rule is fourth and the `password=…\S` rule fifth |
| Filters.ParseSpec | filter.go:34-35 | the two-word test on `strings.Split(spec, "==>")`: the pattern and the replacement when the spec splits into exactly two words, nothing otherwise; what that means is stated by `ParseSpecKeptIffOneArrow` and `ParseSpecParts` |
| Filters.ParseSpecKeptIffOneArrow | filter.go:33-36 | a spec is kept iff `==>` occurs in it exactly once |
| Filters.ParseSpecParts | filter.go:34-41 | a kept spec is its pattern, `==>`, and its replacement, neither containing `==>` |
| Filters.ParseSpecOfJoined | filter.go:34-41 | writing a `==>`-free pattern and replacement as a spec and parsing it returns them unchanged |
| Filters.ArrowAloneKept | filter.go:34-41 | the spec `==>` alone is kept, with an empty pattern and an empty replacement |
| Filters.SkippedWithoutArrow | filter.go:34-37 | a spec with no `>` byte is skipped |
| Filters.KeptSpecs | filter.go:33-37 | the kept specs are no more than the specs, and every one of them parses; their order is stated by `KeptSpecsAppend` |
| Filters.KeptSpecsMembers | filter.go:33-37 | a spec is among the kept specs iff it is one of the specs and it parses |
| Filters.KeptSpecsAppend | filter.go:33-44 | keeping specs distributes over concatenation, so kept specs stay in input order |
| Filters.FiltersOf | filter.go:33-44 | one filter per kept spec, in the same order, holding that spec's pattern and replacement |
| Filters.BuildFilters | filter.go:30-45 | what `newFilterBySlice` does, spec by spec from the first: skip a spec that does not split into two words, warn about and compile one that does, and stop at the first panic; its outcome is stated by `BuildFiltersSucceeds` and `BuildFiltersPanics` |
| Filters.BuildFiltersSucceeds | filter.go:30-45 | `newFilterBySlice` succeeds iff every kept spec's pattern compiles; it then returns the kept specs' filters in spec order and warns about exactly the kept specs |
| Filters.BuildFiltersPanics | filter.go:30-45 | on a panic, it is the panic of the first kept spec whose pattern fails to compile; every earlier kept spec compiles, and the warnings cover the kept specs up to it |
| Filters.BuildFiltersBounds | filter.go:31-44 | never more filters than specs; no specs give no filters and no warnings |
| Filters.BuildFiltersSkipsMalformed | filter.go:33-41 | a well-formed spec followed by one without `==>` yields only the first spec's filter |
| Filters.BuildFiltersStops | filter.go:41 | once a spec panics, the later specs change nothing |
| Filters.NewFilterBySlice | filter.go:30-45 | the loop returns the result and the warnings `BuildFilters` specifies |
| Filters.ApplyFilter | filter.go:57 | one filter applied: the library's `ReplaceAll` of the filter's pattern, with its replacement, over the data |
| Filters.Chain | filter.go:55-61 | the left fold of `ApplyFilter` over a chain, each output feeding the next filter; its laws are `ChainAppend`, `ChainPassesUntouched` and `ChainOrderMatters` |
| Filters.ChainAppend | filter.go:55-61 | running two chains one after the other is the same as running their concatenation |
| Filters.ChainPassesUntouched | filter.go:55-61 | data that no filter changes passes through the chain unchanged; the empty chain is the identity |
| Filters.ChainOrderMatters | filter.go:55-61 | the order of filters is observable: with a library that replaces a whole-input match and leaves other input alone, a filter whose output the next filter matches gives a different result when the two are swapped |
| Filters.FilterDefault | filter.go:54-61 | `filterDefault(data)` is the left fold of `ReplaceAll` over the default filters in order |
| Writer.File.constructor | writer.go:28 | a new output file has received no calls |
| Writer.File.Write | writer.go:28 | the file records the write, and its answer is a function of the calls before it |
| Writer.File.Sync | writer.go:32 | the file records the sync, and its answer is a function of the calls before it |
| Writer.ChainFor | writer.go:15-17 | never empty: the given filters unchanged and in order when there are any, otherwise exactly the default filters |
| Writer.FilterWriter.constructor | writer.go:14-23 | the writer keeps the file and holds the given filters, or the defaults when none are given |
| Writer.FilterWriter.Filter | writer.go:35-41 | `w.filter(data)` is the left fold of `ReplaceAll` over the writer's filters |
| Writer.FilterWriter.Write | writer.go:25-29 | the filtered buffer, and nothing else, is written to the file; the file's `(n, err)` comes back unchanged |
| Writer.FilterWriter.Sync | writer.go:31-33 | the sync is passed to the file and the file's error is returned |
| Writer.DefaultWriterMatchesFilterDefault | writer.go:15-17 | the chain of a writer built without filters folds every buffer exactly as the default chain of `filterDefault` does |
| Levels.LevelString2Level | helper.go:12-33 | the level whose name is the string, or `InfoLevel` when no level has that name |
| Levels.NameRoundTrip | helper.go:15-30 | each of the seven names maps to its own level |
| Levels.UnknownNameIsInfo | helper.go:13-32 | any string that names no level maps to `InfoLevel` |
| Levels.EmptyNameIsInfo | helper.go:13-32 | the empty string names no level and maps to `InfoLevel` |
| Levels.NamesDistinct | helper.go:16-29 | the seven names map to seven distinct levels |
| Config.Logger.constructor | logger.go:15-26 | a new logger holds the given settings and no zap logger yet |
| Config.Logger.FillDefaults | logger.go:55-72 | each empty field among level, encoding and the four trace keys gets its default, the others are kept; all six are then non-empty, and a second call changes nothing |
| Config.Logger.ConfigWillLoad | logger.go:54-75 | fields defaulted as above, caller key, caller skip and filter specs untouched, then `apply` run on the defaulted settings |
| Config.Logger.Apply | logger.go:92-149 | installs the core `BuildCore` describes, or leaves the logger as it was and reports the panic of a pattern that does not compile |
| Config.WithDefault | logger.go:55-72 | one field's defaulting: the value when non-empty, the default otherwise; stated by `FillDefaults` and `WithDefaultIdempotent` |
| Config.EncoderFor | logger.go:127-131 | the encoder chosen for an `Encoding` setting; stated by `EncoderSelection` |
| Config.OutputFor | logger.go:133-137 | the stream chosen for a `Level` setting; stated by `OutputFollowsSeverity` and `UnknownLevelGoesToStderr` |
| Config.BuildCore | logger.go:92-149 | what `apply` builds from the settings (encoder, stream, filters, level, caller options) or the filter panic; stated by `BuildCoreFilters` and the selection lemmas |
| Config.WithDefaultIdempotent | logger.go:55-72 | defaulting a field twice is the same as once, and leaves it non-empty |
| Config.EncoderSelection | logger.go:127-131 | the console encoder is chosen iff the encoding is `console`; any other value selects JSON |
| Config.OutputFollowsSeverity | logger.go:133-137 | for the seven level names, output goes to stdout iff the level is no more severe than warn |
| Config.UnknownLevelGoesToStderr | logger.go:133-137 | a level string that names no level logs at info but goes to stderr |
| Config.EmptyLevelIsDebugOnStdout | logger.go:55-57 | an empty level, once defaulted, is debug on stdout |
| Config.BuildCoreFilters | logger.go:133-137 | `apply` succeeds iff every kept spec's pattern compiles; the writer then holds the kept specs' filters, or the defaults when none is kept; neither depends on the level, so both output branches build the same filters |
| Config.ContextString | logger.go:271-282 | the context's string value under the key, or empty when the key is missing or holds no string |
| Config.TraceName | logger.go:284 | `[uid][requestId][spanId][bizId]`, the four fields bracketed and joined by `][`; stated by `TraceNameRoundTrip` and `ParseTraceNameSound` |
| Config.TraceNameRoundTrip | logger.go:284 | when no field contains `][`, the four fields can be read back from the trace name |
| Config.ParseTraceNameSound | logger.go:284 | every name that parses is the trace name of the fields read from it |
| Config.Logger.TraceLoggerName | logger.go:268-284 | the name `trace` gives the traced logger, built from the context's strings under the four configured keys; stated by `TraceLoggerNameFields` |
| Config.TraceLoggerNameFields | logger.go:268-284 | the traced logger's name holds the four context values under the configured keys, in order |

## Left out

- Regular-expression semantics (`regexp.MustCompile`, `ReplaceAll`). RE2 is a foreign library, so it is the `Engine` parameter. Which patterns compile and what a replacement yields are not modelled.
- The concrete redaction outputs in filter_test.go depend on RE2 matching. Properties that need them are not stated: idempotence of the default chain, and which default filter rewrites a given line.
- `Warnf` (filter.go:38) writes through the global zap logger. That output is modelled only as the list of specs warned about.
- Filters.NewFilterBySlice: the Go function panics inside `MustCompile`. The model returns the panic as a `Failure` result instead of unwinding.
- Writes to and syncs of `*os.File` are I/O. The file's answers are the injected functions `onWrite` and `onSync`.
- The zap construction in `apply` (`zap.Config`, `cfg.Build`, `WrapCore`, `NewCore`, the sampling and encoder settings, `log.Sync`) is library code. It is reduced to the `Core` value: encoder, output stream, filters, level and caller options.
- `cfg.Build` errors, such as zap rejecting an unknown encoding name, come from zap and are not modelled. `Config.Logger.Apply` reports only the filter panic.
- `init` of logger.go, the package globals, `sync.Once`, `sync.Mutex` and `ConfigDidLoad` are singleton and concurrency plumbing and are not modelled.
- `Name`, `Trace`, `TraceRaw` and the leveled forwarding functions (`Debug`, `Info`, …, `With`) are one-line delegations to zap. Only the name `trace` gives the logger is modelled.
- `strings.Split` with an empty separator is not modelled. The logger only splits on `==>` and never on an empty separator.
- Levels.NewAtomicLevelAt has no contract of its own. It only wraps `LevelString2Level`, and its result is carried in the `Core` that `apply` builds.
- test/main.go is demo wiring and is not part of this model.
