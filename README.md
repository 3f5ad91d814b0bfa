# A verified model of the kdt310722/logger core

This project models the core of the TypeScript logging library
`@kdt310722/logger` in Dafny and proves properties of the model.

- **The `BaseLogger` pipeline.** A `log` call passes a gate: the logger is
  enabled, the resolved level reaches the threshold, and every filter agrees.
  The entry is then built from the message and context arguments, including
  the `message`, `context` and `entry` directives. Next comes the transformer
  chain. Finally the entry is written to the primary stream and handed to
  each registered transport that it does not exclude. A transport that throws
  is reported by a new log call at the fatal level, and that call excludes
  the failing transport.
- **Transports and the logger.** The transport gate and its local
  transformers are modelled, as are `Logger`'s named levels and child
  loggers, and the `debug` filter.
- **The log rotator.** This covers file naming and parsing, the choice of the
  latest log file, and the loop that moves to the next index while the
  current file must be rotated.
- **The Telegram transport.** This covers message layout, the 4096-character
  budget with chunking, and the MarkdownV2 escaper.
- **The console printer.** This covers the timestamp, level and timer
  columns and the layout of an entry line.
- **Other pieces.** The `indent` and `badge` helpers, and the value and
  payload of the progress bar.

Code that changes state in place is modelled that way. These are classes
whose methods carry `modifies` clauses:

- `BaseLogger`, `Transport`, `Logger`, `LogRotator` and `ProgressBar`.

Loops are methods proved equal to a specification function. They are:

- `log`, `transformEntry`, `resolveEntryContext` and `parseDebugFilter`;
- `getLogPath`, `getMessages`, `trimLastLineSpace` and the prettier's
  `entry`.

Code outside the library becomes parameters of the model. This covers the
behaviour of filters, transformers, transports and lazy producers, as well
as `stripAnsi`, colours, `inspect`, JSON rendering, the clock and the file
system.

Each source file maps to one module:

- `Levels`: numeric levels and the level keys `Logger`'s resolver returns
- `Lists`: `unique` and filter-by-identity
- `Text`: string helpers
- `Entries`: `types.ts`, `utils/context.ts`, `utils/entry.ts`
- `Transformers`: the transformer chain
- `Transports`: `transports/transport.ts`
- `BaseLoggers`: `base-logger.ts`
- `Dispatch`: properties of `log`
- `Loggers`: `logger.ts`
- `DebugFilters`: `filters/debug.ts`
- `LogRotators`: `utils/log-rotator.ts`
- `Markdown`: `utils/strings.ts`
- `Print`: `utils/print.ts`
- `Telegram`: `transports/telegram.ts`
- `PrettyLevel`: `prettiers/level.ts`
- `PrettyTimestamp`: `prettiers/timestamp.ts`
- `PrettyTimer`: `prettiers/timer.ts`
- `Prettiers`: `prettiers/prettier.ts`
- `ProgressBars`: `utils/progress-bar.ts`

## Model

| member | source | states |
|---|---|---|
| `Levels.NegInfIsBottom` | src/base-logger.ts:152-154 | Every level is at least −∞, so the default threshold admits every level. |
| `Levels.AtLeastTotal` | src/base-logger.ts:152-154 | The `>=` comparison of levels is reflexive, total and transitive. Two levels tie exactly when they are loosely equal (a number and the key that spells it tie), and two numbers or two keys tie only when equal. |
| `Levels.Resolve` | src/base-logger.ts:58 | The default resolver keeps numbers and maps anything else to −∞. A named resolver maps each name it knows to the key it stands under (a string, `Key`), and sends unknown names to −∞. |
| `Lists.Unique` | src/base-logger.ts:64-65 | `unique` yields no duplicates and keeps exactly the elements of its input. |
| `Lists.UniqueOfNoDup` | src/base-logger.ts:84 | `unique` leaves a list without duplicates unchanged. |
| `Lists.UniqueAppend` | src/base-logger.ts:83-85 | Adding to a duplicate-free registry appends the element only when it is absent. |
| `Lists.UniqueKeepsFirstOccurrenceOrder` | src/base-logger.ts:64-65 | `unique` keeps its elements in the order of their first occurrence in the input. |
| `Lists.FirstIndex` | src/base-logger.ts:64-65 | The first position of an element holds it and no earlier position does. |
| `Lists.FirstIndexOfPrefix` | src/base-logger.ts:84 | Appending to a list leaves the first position of every element already in it unchanged. |
| `Lists.UniquePrefix` | src/utils/entry.ts:12-13 | `unique(a)` is a prefix of `unique(a + b)`, so old exclusions keep their order. |
| `Lists.Without` | src/base-logger.ts:87-89 | Removal by identity drops exactly the given element and keeps the others. Removing an absent element changes nothing. |
| `Lists.WithoutKeepsNoDup` | src/base-logger.ts:103-105 | Removal keeps a list duplicate-free. |
| `Text.Repeat` | src/utils/print.ts:22 | `' '.repeat(n)` has length `n` and holds only that character. |
| `Text.LTrim` | src/transports/telegram.ts:169 | `ltrim` removes exactly the leading whitespace and keeps a suffix of the input. |
| `Text.Split` | src/utils/print.ts:22 | `split` on one character yields at least one piece, and no piece contains the separator. |
| `Text.JoinSplit` | src/utils/print.ts:22 | Joining the pieces of a split gives back the original string. |
| `Text.SplitJoin` | src/transports/telegram.ts:166-172 | Splitting a join of separator-free pieces gives back the pieces. |
| `Text.PadStart` | src/prettiers/timestamp.ts:3 | `padStart`: the length is the larger of the target and the input, the input is a suffix, and only padding characters come before it. |
| `Text.PadEnd` | src/prettiers/level.ts:15 | `padEnd`: the length is the larger of the target and the input, the input is a prefix, and only spaces follow it. |
| `Text.ToUpper` | src/prettiers/level.ts:15 | Upper-casing keeps the length. |
| `Text.Chunk` | src/transports/telegram.ts:100 | Every chunk is non-empty and at most `n` characters long. |
| `Text.ChunkConcat` | src/transports/telegram.ts:100 | Concatenating the chunks gives back the input: chunking loses nothing. |
| `Text.NatToString` | src/prettiers/timestamp.ts:3 | `String(n)` is a non-empty string of digits with no leading zero. |
| `Text.NatToStringValue` | src/prettiers/timestamp.ts:3 | The digits of `String(n)` denote `n`. |
| `Text.IntToString` | src/prettiers/timer.ts:13 | `String(i)` is the digits of `i`, with a minus sign in front for a negative number. |
| `Entries.MergeEntry` | src/utils/entry.ts:4-16 | The item's fields override the base's fields. Context and errors are concatenated in order. Metadata is spread with the item winning. Each exclusion list is the duplicate-free union, keeping the base's order first. |
| `Entries.MergeExcludesTransport` | src/base-logger.ts:236-239 | Merging `exclude.transports: [t]` puts `t` among the excluded transports. For an entry with no exclusions, `t` is the only one. |
| `Entries.MergeNoFields` | src/utils/entry.ts:4-16 | Merging an empty input into a normalised entry changes nothing. |
| `Transformers.Apply` | src/base-logger.ts:214-228 | A throwing transformer raises a `TransformError` that carries the transformer, the entry and the cause. Otherwise its result, possibly falsy, is passed on. |
| `Transformers.Applicable` | src/base-logger.ts:187-190 | The transformers that run are exactly the registered ones that the original entry does not exclude. |
| `Transformers.FirstThrowing` | src/base-logger.ts:187-193 | The transformer found throws on the entry and every transformer before it in the list returns. When none is found, every one returns. |
| `Transformers.ChainFrom` | src/base-logger.ts:184-196 | A raised error names a transformer of the chain that is not excluded and threw on the original entry. A result that differs from the running value is what such a transformer returned for the original entry. |
| `Transformers.TransformChain` | src/base-logger.ts:184-196 | An empty chain passes the entry through unchanged. A raised error is the `TransformError` of one of the chain's transformers on the given entry. |
| `Transformers.ChainFromMatchesReference` | src/base-logger.ts:184-196 | The loop of `transformEntry` equals a reference definition. That definition applies each applicable transformer to the original entry and keeps the last result, and the first throw aborts the chain. |
| `Transformers.ChainWithoutApplicable` | src/base-logger.ts:184-196 | With no applicable transformer, the entry comes back unchanged. |
| `Transformers.ChainLastWins` | src/base-logger.ts:187-193 | When none throws, the result is the last applicable transformer's result on the original entry. |
| `Transformers.ChainRaisesFirstThrow` | src/base-logger.ts:184-196 | The chain raises the `TransformError` of the first applicable transformer that throws. |
| `Transports.WriteState` | src/transports/transport.ts:48-58 | `write` skips when the transport is disabled, when the level is below its threshold, or when the level is excluded. Otherwise it runs the local chain: a drop is dropped, a throw propagates, and an entry goes to the delivery routine. |
| `Transports.DefaultsDeliverEverything` | src/transports/transport.ts:19-26 | A transport built with the defaults delivers every entry unchanged. |
| `Transports.Transport.constructor` | src/transports/transport.ts:19-26 | Each option takes its default (enabled, −∞, no excluded levels, no transformers) when absent. |
| `Transports.Transport.Enable` | src/transports/transport.ts:28-30 | Turns the transport on and changes nothing else. |
| `Transports.Transport.Disable` | src/transports/transport.ts:32-34 | Turns the transport off and changes nothing else. |
| `Transports.Transport.SetLevel` | src/transports/transport.ts:36-38 | Sets the threshold and changes nothing else. |
| `Transports.Transport.AddTransformer` | src/transports/transport.ts:40-42 | The transformer is appended only when absent. |
| `Transports.Transport.RemoveTransformer` | src/transports/transport.ts:44-46 | Removes by identity; removing an absent transformer changes nothing. |
| `Transports.Transport.Write` | src/transports/transport.ts:48-58 | A disabled transport, or one whose gate rejects the level, does nothing. |
| `BaseLoggers.GetStream` | src/base-logger.ts:198-200 | The rule `log` uses: the error stream is chosen exactly when the list element at position `level` exists and is non-zero. |
| `BaseLoggers.GetStreamByMembership` | src/base-logger.ts:198-200 | The corrected rule, which `log` does not use: the error stream exactly for a level in the error-level list. |
| `BaseLoggers.IsLevelEnabled` | src/base-logger.ts:152-154 | Only an enabled logger admits a level. The default threshold −∞ admits every level, and a level loosely equal to the threshold is admitted. |
| `BaseLoggers.IsLoggable` | src/base-logger.ts:156-158 | A call is loggable exactly when every registered filter admits it; with no filters every call is. |
| `BaseLoggers.ResolveContextAppends` | src/base-logger.ts:265-283 | Filing arguments (`resolveEntryContext`) only appends: earlier errors and context stay in front, and a message once set stays set. |
| `BaseLoggers.LogOutcome` | src/base-logger.ts:160-182 | A disabled logger suppresses every call. A dispatched entry gets at most one delivery per registration, so a transport registered twice is written to twice, and with no transports nothing is delivered and nothing is thrown after dispatch. |
| `BaseLoggers.FanOut` | src/base-logger.ts:175-181 | The transport loop makes at most one delivery per registered transport, and none for an empty list. |
| `BaseLoggers.DeliverTo` | src/base-logger.ts:230-241 | `writeToTransport` keeps the entry's level and exclusions. A failure report is made exactly when the transport's `write` throws, and is missing only when the report fuel is spent. |
| `BaseLoggers.BaseLogger.constructor` | src/base-logger.ts:55-69 | Every default. The error levels are `unique(errorLevels + [resolved fatal level])`. Filters and transformers are deduplicated; transports are not. |
| `BaseLoggers.BaseLogger.Enable` | src/base-logger.ts:71-73 | Sets `isEnabled` and keeps everything else. |
| `BaseLoggers.BaseLogger.Disable` | src/base-logger.ts:75-77 | Clears `isEnabled` and keeps everything else. |
| `BaseLoggers.BaseLogger.SetLevel` | src/base-logger.ts:79-81 | Stores the resolved level and keeps everything else. |
| `BaseLoggers.BaseLogger.AddFilter` | src/base-logger.ts:83-85 | The filter is appended only when absent. |
| `BaseLoggers.BaseLogger.RemoveFilter` | src/base-logger.ts:87-89 | Removes by identity; removing an absent filter changes nothing. |
| `BaseLoggers.BaseLogger.AddTransformer` | src/base-logger.ts:91-93 | The transformer is appended only when absent. |
| `BaseLoggers.BaseLogger.RemoveTransformer` | src/base-logger.ts:95-97 | Removes by identity; removing an absent transformer changes nothing. |
| `BaseLoggers.BaseLogger.AddTransport` | src/base-logger.ts:99-101 | The transports become `unique(transports + [t])`. When the list was duplicate-free, `t` is appended only when absent. |
| `BaseLoggers.BaseLogger.RemoveTransport` | src/base-logger.ts:103-105 | Removes by identity; removing an absent transport changes nothing. |
| `BaseLoggers.BaseLogger.CreateTimer` | src/base-logger.ts:107-109 | A given id is used as is. Otherwise the counter goes up by one and the id is `timer-N`. Either way the start mark is stored under the id. |
| `BaseLoggers.BaseLogger.StopTimer` | src/base-logger.ts:111-123 | Elapsed time is measured since the start mark, or 0 when there is no mark. The id is always deleted. A log with `metadata.timer` happens only when a level is given. |
| `BaseLoggers.BaseLogger.Log` | src/base-logger.ts:160-182 | The gate, entry building, transformer chain, stream choice and transport loop equal the specification `LogOutcome`. |
| `BaseLoggers.BaseLogger.WriteToTransports` | src/base-logger.ts:175-181 | The loop over the transports equals the specification `FanOut`. It writes to each transport the entry does not exclude, in order, and stops at the first report that throws. |
| `BaseLoggers.BaseLogger.WriteToTransport` | src/base-logger.ts:230-241 | Strips ANSI codes from the message, writes, and on a throw logs a fatal report that excludes the transport. |
| `BaseLoggers.BaseLogger.TransformEntry` | src/base-logger.ts:184-196 | The loop equals the transformer-chain specification. |
| `BaseLoggers.BaseLogger.ApplyTransformer` | src/base-logger.ts:214-228 | One application, with the throw wrapped in a `TransformError`. |
| `BaseLoggers.BaseLogger.ToLogEntry` | src/base-logger.ts:247-263 | Builds the entry the way the entry-building specification does. |
| `BaseLoggers.BaseLogger.ResolveEntryContext` | src/base-logger.ts:265-283 | The loop over the arguments equals the argument-filing specification. |
| `Dispatch.GateDecidesSuppression` | src/base-logger.ts:160-165 | A call is suppressed if and only if the logger is disabled, the level is below the threshold, or some filter refuses. An empty filter list admits. |
| `Dispatch.ResolveContextConcat` | src/base-logger.ts:265-283 | Arguments are processed strictly in order: filing `a + b` files `a`, then `b`. |
| `Dispatch.ResolveContextFiles` | src/base-logger.ts:265-283 | Without `entry` directives, errors go to `errors` and everything else to `context`, in order, with lazy context spread. |
| `Dispatch.StringMessageEntry` | src/base-logger.ts:247-263 | A string message becomes `entry.message`, and the context is filed after it. |
| `Dispatch.OtherMessageEntry` | src/base-logger.ts:247-263 | A non-string message is put in front of the context and filed like the context; `message` stays absent. |
| `Dispatch.MessageSurvivesDirectives` | src/base-logger.ts:247-263 | Whatever directives follow, a string message leaves the entry with a message, and an error given as the message is the entry's first error. |
| `Dispatch.ErrorMessageFiledFirst` | src/base-logger.ts:255-262 | An error given as the message is filed before every context argument. |
| `Dispatch.LazyMessageEntry` | src/base-logger.ts:250-253 | A lazy message is invoked first, and its result is treated as the message. |
| `Dispatch.TimerEntry` | src/base-logger.ts:118-120 | The entry of `stopTimer` carries the elapsed time as `metadata.timer` and nothing else. |
| `Dispatch.TimerIdsDistinct` | src/base-logger.ts:107-109 | Different counter values give different generated timer ids. |
| `Dispatch.ReportEntry` | src/base-logger.ts:236-239 | The fatal report carries the `TransportError` as its only error and excludes exactly the failing transport. |
| `Dispatch.ReportMerge` | src/utils/entry.ts:4-16 | The exclusion directive changes only the exclusions. |
| `Dispatch.ExcludedLevelIsSkipped` | src/transports/transport.ts:48-58 | When a transport's `write` is the transport contract, an entry at one of its excluded levels is skipped and nothing is reported. |
| `Dispatch.Targets` | src/base-logger.ts:175-181 | The transports a call reaches are the registered ones the entry does not exclude. |
| `Dispatch.FanOutKeepsExclusions` | src/base-logger.ts:175-181 | Every transport sees the same exclusions as the dispatched entry. |
| `Dispatch.FanOutFollowsRegistration` | src/base-logger.ts:175-181 | Transports receive the entry in registration order, skipping excluded ones. Without a throw, every target is reached exactly once. |
| `Dispatch.FanOutStopsAtThrow` | src/base-logger.ts:175-181 | The loop stops at the first delivery whose report throws, and that error propagates. |
| `Dispatch.FanOutStripsCumulatively` | src/base-logger.ts:230-231 | Each transport receives the message as stripped by all the earlier ones, because the shared entry is mutated. |
| `Dispatch.ReportSkipsFailedTransport` | src/base-logger.ts:236-239 | A report that keeps its exclusion never reaches the transport that failed. |
| `Dispatch.HealthyFanOutSettles` | src/base-logger.ts:175-181 | When no transport throws, nothing is reported and nothing is raised. |
| `Dispatch.SingleFailureReportSettles` | src/base-logger.ts:230-240 | With one failing transport, its report terminates and raises nothing. |
| `Dispatch.SingleFailureFanOutSettles` | src/base-logger.ts:230-240 | With one failing transport, every delivery of a fan-out terminates. |
| `Dispatch.SingleFailureSettles` | src/base-logger.ts:160-182 | With one failing transport, a log call terminates and raises nothing. |
| `Dispatch.FanOutNeverSettles` | src/base-logger.ts:230-240 | A transport that always throws, whose report never terminates, leaves some delivery unterminated. |
| `Dispatch.TwoFailuresNeverSettle` | src/base-logger.ts:230-240 | With two transports that always throw, each one's report reaches the other, and that report never terminates. |
| `Dispatch.TwoFailuresLoopForever` | src/base-logger.ts:230-240 | With two transports that always throw, a single log call recurses without end. |
| `Dispatch.GetStreamIndexesByPosition` | src/base-logger.ts:198-200 | With `Logger`'s error levels `[50, 60]`, ERROR and FATAL go to stdout and level 1 goes to stderr. The corrected rule sends 50 and 60 to stderr. |
| `Dispatch.DispatchedStreamIsPositional` | src/base-logger.ts:198-200 | `log` writes a dispatched entry to stderr exactly when the error-level list has a truthy element at the position its level names. |
| `Dispatch.IntendedOutcome` | src/base-logger.ts:198-200 | The corrected log call: a dispatched entry goes to stderr exactly when its level is one of the error levels. Only the outermost call is corrected. |
| `Dispatch.IntendedOutcomeChangesOnlyStream` | src/base-logger.ts:160-182 | The correction keeps the gate, the entry, the deliveries and the thrown error of `log`, and changes only the stream. |
| `Dispatch.FatalGoesToErrorStream` | src/base-logger.ts:59 | With the correction, a transport-failure report dispatched at the fatal level goes to stderr, because the constructor adds the fatal level to the error levels. |
| `Loggers.LoggerResolverMapsNames` | src/logger.ts:25-31 | Numbers pass through. Each level name maps to the key it stands under in `LOG_LEVEL_NAMES`, which is the string of its number. An unknown name maps to −∞. |
| `Loggers.NamedLevelEscapesExclusion` | src/transports/transport.ts:49 | A transport that excludes a level's number skips that level given as a number, but admits it given by name, because `includes` is strict. |
| `Loggers.IntendedResolve` | src/logger.ts:31 | The corrected resolver never yields a key, and its level is loosely equal to the one `Logger`'s resolver yields. |
| `Loggers.IntendedResolveHonoursExclusion` | src/transports/transport.ts:49 | With the corrected resolver, a transport admits a level given by name exactly when it admits the same level given as a number. |
| `Loggers.GetName` | src/logger.ts:95-101 | With no parent name, the result is the child's name. Joining is on by default and uses `:`. Empty parts are dropped, so the result is parent, child, or `parent:child`. |
| `Loggers.JoinWith` | src/logger.ts:100 | `join` of zero, one or two parts. |
| `Loggers.Inherit` | src/logger.ts:38-40 | When merging (the default), the parent's list is followed by the child's; otherwise only the child's list is used. |
| `Loggers.Logger.constructor` | src/logger.ts:24-34 | The error levels are ERROR and FATAL, the fatal level is FATAL, and the named resolver is installed. The caller's options fill the rest. |
| `Loggers.Logger.Child` | src/logger.ts:36-51 | The child takes the joined name and the inherited lists. The parent's filters and transformers are a prefix when merged. Own options override the parent's. |
| `Loggers.Logger.Trace` | src/logger.ts:53-55 | Equals a log call at level 10. |
| `Loggers.Logger.Debug` | src/logger.ts:57-59 | Equals a log call at level 20. |
| `Loggers.Logger.Info` | src/logger.ts:61-63 | Equals a log call at level 30. |
| `Loggers.Logger.Warn` | src/logger.ts:65-67 | Equals a log call at level 40. |
| `Loggers.Logger.Error` | src/logger.ts:69-71 | Equals a log call at level 50. |
| `Loggers.Logger.Fatal` | src/logger.ts:73-75 | Equals a log call at level 60. |
| `Loggers.Logger.Notice` | src/logger.ts:77-79 | Equals a log call at level 70. |
| `Loggers.LoggerErrorsGoToStdout` | src/logger.ts:29 | As written, every named level of `Logger` goes to stdout, ERROR and FATAL included. |
| `DebugFilters.FirstSeparator` | src/filters/debug.ts:13 | Finds the first whitespace or comma, with none before it. |
| `DebugFilters.RunEnd` | src/filters/debug.ts:13 | Finds the end of a maximal run of separators. |
| `DebugFilters.Pieces` | src/filters/debug.ts:13 | `split(/[\s,]+/)` yields at least one piece, and no piece contains a separator. |
| `DebugFilters.Tokens` | src/filters/debug.ts:13-16 | The items left after empty pieces are skipped are non-empty and separator-free. |
| `DebugFilters.TokensOfWord` | src/filters/debug.ts:13-16 | A single word is a single item. |
| `DebugFilters.TokensSkipRun` | src/filters/debug.ts:13-16 | A run of separators ends an item, and a leading run yields no item. |
| `DebugFilters.LiteralMatchesOnlyItself` | src/filters/debug.ts:18-23 | An anchored pattern without `*` matches exactly the name equal to it. |
| `DebugFilters.Matches` | src/filters/debug.ts:18-23 | Only the empty name matches the empty pattern, and a matched name is at least as long as the pattern's literal characters. |
| `DebugFilters.StarMatchesAnyRun` | src/filters/debug.ts:18 | `*` matches any run of characters. |
| `DebugFilters.LiteralPrefixMatches` | src/filters/debug.ts:21-23 | A common literal prefix can be dropped from both pattern and name. |
| `DebugFilters.GlobMatchesAnySubstring` | src/filters/debug.ts:18-23 | `a*b` matches every name of the form `a…b`. |
| `DebugFilters.StarMatchesEverything` | src/filters/debug.ts:18-23 | The pattern `*` matches every name. |
| `DebugFilters.PatternsOfItems` | src/filters/debug.ts:20-24 | Every item lands in exactly the list that its first character selects: includes as given, excludes without the `-`. |
| `DebugFilters.ParseStep` | src/filters/debug.ts:13-25 | One loop step files the current item and leaves the rest to the later steps. |
| `DebugFilters.ParseDebugFilter` | src/filters/debug.ts:9-28 | The include and exclude lists are exactly the specification's lists for the filter's items. |
| `DebugFilters.CollectPatterns` | src/filters/debug.ts:13-25 | The loop collects the same lists as the specification. |
| `DebugFilters.DebugAdmits` | src/filters/debug.ts:30-47 | `*`, or a level above the configured one, admits. Otherwise a call is admitted only for a named logger whose name matches no exclude and some include, and never under `-*`. |
| `DebugFilters.ExcludeWins` | src/filters/debug.ts:41-43 | A matching exclude pattern refuses the call, even when an include also matches. |
| `DebugFilters.IncludeAdmits` | src/filters/debug.ts:41-45 | A matching include pattern with no matching exclude admits the call. |
| `DebugFilters.NamelessRefused` | src/filters/debug.ts:35-43 | A logger without a name is admitted only by `*` or by the level override. |
| `LogRotators.IndexSuffix` | src/utils/log-rotator.ts:113 | Index 0 has no suffix; index `n > 0` has the suffix `_n`. |
| `LogRotators.GetLogOutput` | src/utils/log-rotator.ts:112-114 | The path is `output/filename[_index].extension`. |
| `LogRotators.GetLogOutputInjective` | src/utils/log-rotator.ts:112-114 | Different indexes give different paths, so the rotation loop never revisits a path. |
| `LogRotators.NumberOf` | src/utils/log-rotator.ts:154 | A digit string has a number, the empty string giving 0. Anything else is NaN. |
| `LogRotators.ParseLogName` | src/utils/log-rotator.ts:145-157 | A name without `_` parses to itself with index 0. |
| `LogRotators.ParseSplitsAtLastUnderscore` | src/utils/log-rotator.ts:153-156 | A name splits at its last `_`: the part before is the file name, and the part after is read as the index. |
| `LogRotators.ParseLogNameRoundTrip` | src/utils/log-rotator.ts:145-157 | Parsing the name of a log file gives back its file name and index. This needs a file name without `_` when the index is 0. |
| `LogRotators.ParseLogPath` | src/utils/log-rotator.ts:145-157 | Keeps the modification date and parses the name. |
| `LogRotators.NewestMatching` | src/utils/log-rotator.ts:139-142 | Gives the first file with the greatest modification date among the files whose name matches the date format, as the stable descending sort does. Gives none when no file matches. |
| `LogRotators.ParseAll` | src/utils/log-rotator.ts:133 | Parses every listed file, in order. |
| `LogRotators.GetLatestLogFile` | src/utils/log-rotator.ts:132-143 | Gives none for an empty listing or when nothing matches. Otherwise gives a matching parsed file that no matching file is newer than. |
| `LogRotators.ShouldRotate` | src/utils/log-rotator.ts:116-126 | A missing file never rotates. A file at or above a non-zero size limit rotates. Otherwise the decision is whether the period changed. |
| `LogRotators.ShouldRotateByDate` | src/utils/log-rotator.ts:128-130 | Rotation by date happens exactly when a write time is known and the number of periods between it and the date is not zero. |
| `LogRotators.InitialIndex` | src/utils/log-rotator.ts:69-71 | The starting index is the latest file's index, or 0 when there is no latest file or its index is NaN. |
| `LogRotators.LogRotator.constructor` | src/utils/log-rotator.ts:61-73 | The index comes from the latest matching file, or 0. `modifiedAt` is the start of that file's period, and stays absent when there is no file or its date is 0. |
| `LogRotators.LogRotator.GetLogPath` | src/utils/log-rotator.ts:101-110 | The index only grows, every index passed over had to rotate, and the returned path does not. The loop runs at most once per existing file. |
| `LogRotators.LogRotator.Written` | src/utils/log-rotator.ts:86-88 | After a write, `modifiedAt` is the start of the current period. |
| `LogRotators.SamePeriodNoLimitKeepsFile` | src/utils/log-rotator.ts:116-130 | Without a size limit and within the same period, no file rotates. |
| `LogRotators.NewPeriodRotatesExisting` | src/utils/log-rotator.ts:116-130 | In a new period, a file rotates exactly when it exists. |
| `Markdown.EscapeMarkdownV2` | src/utils/strings.ts:1-3 | The output grows by one character per special character. Text without special characters is unchanged, and the output never starts with a bare special character. |
| `Markdown.EscapeConcat` | src/utils/strings.ts:1-3 | Escaping distributes over concatenation. |
| `Markdown.EscapeOne` | src/utils/strings.ts:2 | Each of the 18 special characters gets a backslash in front. Every other character, the backslash included, stays as it is. |
| `Markdown.UnescapeEscape` | src/utils/strings.ts:1-3 | Removing the added backslashes gives back the input. |
| `Markdown.EscapeInjective` | src/utils/strings.ts:1-3 | Different texts escape differently. |
| `Markdown.EscapeReadsBackWithoutBackslash` | src/utils/strings.ts:1-3 | For text without a backslash, Telegram's MarkdownV2 reading of the escaped text is the text itself. |
| `Markdown.BackslashBreaksReading` | src/utils/strings.ts:2 | As written, `\*` escapes to `\\*`, which MarkdownV2 reads as an escaped backslash followed by a bare `*`. |
| `Markdown.EscapeMarkdownV2Strict` | src/utils/strings.ts:1-3 | The corrected escaper, which also escapes `\`. It never shortens the text and never starts with a bare special character. |
| `Markdown.StrictEscapeReadsBack` | src/utils/strings.ts:1-3 | For every text, MarkdownV2 reads the corrected escaper's output back as that text. |
| `Markdown.StrictAgreesWithoutBackslash` | src/utils/strings.ts:1-3 | On text without a backslash, the corrected escaper agrees with the original one. |
| `Print.Badge` | src/utils/print.ts:13-15 | Without colour support the result is `[message]`. With colour support it is the coloured ` message `. |
| `Print.IndentLine` | src/utils/print.ts:22 | A line gets `size` spaces in front, then the line itself, left-trimmed when `trim` is set. No line break is introduced. |
| `Print.IndentLines` | src/utils/print.ts:22 | Indents every line and keeps the count. |
| `Print.IndentKeepsLines` | src/utils/print.ts:21-23 | `indent` keeps the number of lines. Line `i` of the output is line `i` of the input, indented. |
| `Print.IndentUntrimmedRoundTrip` | src/utils/print.ts:21-23 | Without `trim`, dropping the first `size` characters of each output line gives back the input's lines. |
| `Telegram.Fenced` | src/transports/telegram.ts:119 | Each chunk is wrapped in a code fence, adding 8 characters. |
| `Telegram.Header` | src/transports/telegram.ts:82-87 | The header starts with the level and time lines, grows by a name line exactly when the logger has a non-empty name, and ends a line. |
| `Telegram.AddMessage` | src/transports/telegram.ts:91-102 | An absent or empty message changes nothing. Otherwise the message grows either the first message or the extras, never both, and only by appending. |
| `Telegram.AddBlock` | src/transports/telegram.ts:104-121 | A context or error block grows either the first message or the extras, never both, and only by appending. |
| `Telegram.AddErrors` | src/transports/telegram.ts:123-136 | The error steps only append, and no errors change nothing. |
| `Telegram.Messages` | src/transports/telegram.ts:79-139 | There is at least one message and the first starts with the header. An entry without message, context or errors gives the header alone. |
| `Telegram.GetMessages` | src/transports/telegram.ts:79-139 | The header, message, context and error steps equal the specification `Messages`, with text escaped by `escapeMarkdownV2` as written. |
| `Telegram.AppendErrors` | src/transports/telegram.ts:123-136 | The loop over the errors equals the error step of the specification, with each rendering escaped by `escapeMarkdownV2` as written. |
| `Telegram.AddMessageKeepsBudget` | src/transports/telegram.ts:91-102 | The message step keeps the first message under 4096 characters (or equal to the header) and every extra message within 4096. Extras are only appended. |
| `Telegram.AddBlockKeepsBudget` | src/transports/telegram.ts:104-121 | The context step keeps the same budget and only appends extras. |
| `Telegram.AddErrorsKeepsBudget` | src/transports/telegram.ts:123-136 | The error steps keep the same budget and only append extras. |
| `Telegram.MessagesWithinLimit` | src/transports/telegram.ts:79-139 | The first message starts with the header and is under 4096 characters unless it is the bare header. Every extra message fits in 4096. Extras come in message, context, error order. |
| `Telegram.MessageInlinedWhenItFits` | src/transports/telegram.ts:94-97 | The message, escaped as written, is inlined as `• Message: *msg*` if and only if it fits the space left. |
| `Telegram.OverflowMessageIsLossless` | src/transports/telegram.ts:94-101 | An overflowing message becomes a prefix message followed by chunks that concatenate to the message escaped as written and a line end. |
| `Telegram.OverflowBlockIsLossless` | src/transports/telegram.ts:117-120 | An overflowing block becomes a prefix message followed by fenced chunks of at most 4088 characters that concatenate to the block. |
| `Telegram.TrimLastLineSpace` | src/transports/telegram.ts:165-173 | A single line is unchanged. Otherwise the line count and every line but the last are kept, and the last line is `space` spaces followed by its left-trimmed text. |
| `PrettyLevel.Invert` | src/prettiers/level.ts:11 | The inverted map's keys are exactly the configured values. |
| `PrettyLevel.InvertKeepsLastName` | src/prettiers/level.ts:11 | When names share a value, the name listed last wins. |
| `PrettyLevel.LongestAt` | src/prettiers/level.ts:12 | Gives the maximum name length over the keys, attained by some key, and 0 for none. |
| `PrettyLevel.LongestLevelLength` | src/prettiers/level.ts:12 | Gives the longest name left after inversion, or 0 without levels. |
| `PrettyLevel.Label` | src/prettiers/level.ts:15 | The upper-cased configured name, or the upper-cased `String(level)`. |
| `PrettyLevel.PaddedLabel` | src/prettiers/level.ts:15 | The label padded with spaces to the longest name's width. |
| `PrettyLevel.ColorOf` | src/prettiers/level.ts:13 | The configured colour, or the identity. |
| `PrettyLevel.PrettyPrintLevel` | src/prettiers/level.ts:9-16 | The column is the bold padded label, passed first through the level's configured colour when it has one. |
| `PrettyLevel.ConfiguredLabelsAlign` | src/prettiers/level.ts:12-15 | Every configured level's label has the same width, the longest name's. |
| `PrettyTimestamp.Pad` | src/prettiers/timestamp.ts:3 | `pad` gives the digits of `n` behind leading zeros, up to the requested width. |
| `PrettyTimestamp.PadKeepsValue` | src/prettiers/timestamp.ts:3 | The padded text is all digits and still denotes `n`. |
| `PrettyTimestamp.PrettyPrintTimestamp` | src/prettiers/timestamp.ts:5-7 | The column is the dimmed bracketed text. |
| `PrettyTimestamp.TimestampWidth` | src/prettiers/timestamp.ts:5-7 | For a time of day in range, the column is exactly 14 characters, with fields of widths 2, 2, 2 and 3. |
| `PrettyTimer.ToMillisecondParts` | src/prettiers/timer.ts:12-18 | The decimal part always has 6 characters. A non-negative count of at most 6 digits has integer part `0`. |
| `PrettyTimer.MillisecondPartsValue` | src/prettiers/timer.ts:12-18 | For a non-negative count both halves are digit strings, and integer × 10⁶ + decimal is the count, so no nanosecond is lost. |
| `PrettyTimer.SubMillisecondIntPart` | src/prettiers/timer.ts:14 | Counts below one millisecond have integer part `0`. |
| `PrettyTimer.PrettyPrintTimer` | src/prettiers/timer.ts:20-37 | Humanising is on by default and feeds `prettyMs` with the millisecond text. With humanising off and grouping on (the default), the output is `formatNumber` of the count followed by `ns`. With both options off, it is the raw count followed by `ns`. |
| `Prettiers.GetLevelName` | src/prettiers/prettier.ts:43-45 | The configured name of the level, or `String(level)`. |
| `Prettiers.Entry` | src/prettiers/prettier.ts:47-84 | The method builds the specification `EntryText`: head, name, message, timer, errors, context. |
| `Prettiers.FirstLine` | src/prettiers/prettier.ts:48-64 | Gives the text before the errors, and sets the two flags exactly when there is a message and a timer. |
| `Prettiers.AppendErrors` | src/prettiers/prettier.ts:66-77 | The loop over the errors appends exactly the errors part. |
| `Prettiers.BareEntryIsHead` | src/prettiers/prettier.ts:47-84 | An entry with nothing but level and time is the head alone. |
| `Prettiers.SingleErrorSharesLine` | src/prettiers/prettier.ts:69-76 | A lone error after neither message nor timer follows a space on the first line, without a badge. |
| `Prettiers.ErrorLinesInOrder` | src/prettiers/prettier.ts:66-77 | Otherwise each error is on a new line of its own, in order, with the default badge. |
| `Prettiers.ContextComesLast` | src/prettiers/prettier.ts:79-81 | The context block, when there is one, ends the text. |
| `ProgressBars.Clamp` | src/utils/progress-bar.ts:47 | `max(min(n, total), 0)` lies in `[0, total]`, keeps in-range values, and pins values outside the range to the nearest bound. |
| `ProgressBars.Spread` | src/utils/progress-bar.ts:49-52 | Object spread keeps every key of both, and later keys win. |
| `ProgressBars.IncrementPayload` | src/utils/progress-bar.ts:60 | An object delta is spread under the payload argument; otherwise the payload argument passes unchanged. |
| `ProgressBars.BarLength` | src/utils/progress-bar.ts:88 | The filled cell count is the floor of `barSize × value / total`. |
| `ProgressBars.BarLengthInRange` | src/utils/progress-bar.ts:87-92 | For a value in `[0, total]`, between none and all cells are filled: none at 0 and all at `total`. |
| `ProgressBars.BarLengthMonotone` | src/utils/progress-bar.ts:88 | A larger value never fills fewer cells. |
| `ProgressBars.GetBar` | src/utils/progress-bar.ts:87-92 | For `0 <= bar <= barSize`, the bar is `[`, then `bar` × `=`, then the rest `-`, then `]`, which is `barSize + 2` characters. A negative count is a `RangeError`. |
| `ProgressBars.ProgressBar.constructor` | src/utils/progress-bar.ts:22-27 | Value 0, empty payload, and the defaults for format, bar size 40 and stop-on-complete. |
| `ProgressBars.ProgressBar.Update` | src/utils/progress-bar.ts:45-57 | A number sets the clamped value. An object leaves the value alone and is merged under the payload argument. Old keys are kept and later keys win. `stop` is called exactly when stop-on-complete is set and the bar is filled. |
| `ProgressBars.ProgressBar.Increment` | src/utils/progress-bar.ts:59-61 | Adds the numeric delta, or 1, then clamps. An object delta is merged into the payload. |
| `ProgressBars.ProgressBar.Start` | src/utils/progress-bar.ts:33-43 | The payload is merged first, then the value is set, clamped. |
| `ProgressBars.ProgressBar.Bar` | src/utils/progress-bar.ts:87-92 | For a positive total, the current value's bar always draws and is `barSize + 2` characters. |

The functions `BaseLoggers.EntryOf` and `BaseLoggers.ResolveContext` have no contract of their own. They are the specifications that `BaseLoggers.BaseLogger.ToLogEntry` and `BaseLoggers.BaseLogger.ResolveEntryContext` are proved equal to. What they mean is stated by `BaseLoggers.ResolveContextAppends` and by the entry-building lemmas of `Dispatch`.

## Left out

- `Dispatch.IntendedOutcome`: corrects the stream of the outermost call only. The reports of failed transports nested in its deliveries keep the positional stream of `log`.
- Terminal and process handling are not part of this model: process exit (`exit`, `forceExit`), the exception and rejection hooks, and `handleExit` with the signal handlers. These are process signals and exit.
- The asynchronous transport queue (`async-transport.ts`) is not part of this model. Its point is promise sequencing and shutdown draining.
- The file transport and the JSON replacer are not part of this model. They are file appends and foreign serialisation.
- The spinner (`loading.ts`, `log-update.ts`) is not part of this model, and neither is `presets.ts`. They are terminal UI on a timer and wiring from environment variables.
- The primary stream write is reduced to the choice of stream. The printed text is modelled by `Prettiers.Entry` but not connected to the stream.
- Colours, `stripAnsi`, `inspect`, `serializeError`, the error and context renderers, `prettyMs` and `formatNumber` are opaque functions passed in.
- The clock (`process.hrtime`, `new Date()`) and date formatting are parameters, and so is `date-fns` period arithmetic (start of period, periods between).
- Levels are integers, −∞ or a level key (the decimal string `Logger`'s resolver returns for a name); NaN, +∞, fractional levels and other strings are not modelled.
- `BaseLoggers.IsLoggable`: filters cannot throw in the model. In the source a throwing filter propagates out of `filters.every` (src/base-logger.ts:157), aborting the log call, a nested failure report and with it the transport loop.
- `BaseLoggers.EntryOf`: lazy message and lazy context producers cannot throw in the model. In the source such a throw propagates out of `toLogEntry` (src/base-logger.ts:252, 271) in the same way.
- Metadata values are integers (`Entries.LogEntry`); only the `timer` value is produced by the library, and other metadata is copied without being inspected.
- Floating point is not modelled: the `Number(...)` of `toMilliseconds`, and the progress bar's percentage, `toFixed` and `getMessage` placeholder replacement. Progress values are integers.
- `BaseLoggers.LogOutcome` (and every `Log`/`FanOut` member built on it) carries a fuel bound on nested transport-failure reports. A report that would need more fuel is recorded as unreported. The source recurses without bound, as `Dispatch.TwoFailuresLoopForever` shows.
- Every string uses `\n` as `EOL`, and JavaScript's `\s` is its ASCII whitespace characters. String lengths count characters, not UTF-16 code units.
- `Text.ToUpper` upper-cases ASCII letters only, where `toUpperCase` covers all of Unicode.
- `DebugFilters.DebugAdmits` reads each pattern as a glob in which only `*` is special. The source builds a regular expression, so other regular-expression metacharacters in a pattern are not modelled.
- `LogRotators.NumberOf` accepts only decimal digit strings. The other forms `Number` accepts (surrounding whitespace, sign, hexadecimal, exponent, fraction) count as NaN here.
- `LogRotators.LogRotator.constructor` starts from index 0 when the latest file's suffix is NaN. The source keeps NaN there, with which no suffix is ever written and `index++` never moves on.
- The log rotator's directory creation and permission check, the glob listing and `lstatSync` are left out: they are file-system I/O. The listing, the date-format test and the file sizes are inputs. `maxSize` is already parsed by `bytes`, and paths are joined with `/` without normalisation.
- The Telegram transport's `sendMessage` (fetch), the Bottleneck rate limiter and the JSON and `inspect` renderings of context and errors are left out; the renderings are parameters. `GetMessages` takes the level name, the formatted time and the logger's name as inputs.
- `ProgressBars.BarLength` requires a positive total. With total 0 the source's percentage is NaN and the bar is `[]`; that case is not modelled.
- Payload key order is not modelled (payloads are maps), nor is the order in which `getMessage` would replace placeholders.

## Findings

| source | as written | input that shows it | evidently intended | confidence | as-written member | corrected member |
|---|---|---|---|---|---|---|
| src/base-logger.ts:198-200 | `this.errorLevels[level]` indexes the error-level list by position | `Logger` has error levels `[50, 60]`. An ERROR (50) or FATAL (60) entry reads index 50 or 60, which is `undefined`, so it goes to stdout. A level-1 entry reads index 1, which is 60, so it goes to stderr | Use stderr exactly for levels in the list (`includes`) | high; not executed | `Dispatch.GetStreamIndexesByPosition` | `Dispatch.IntendedOutcome` |
| src/utils/strings.ts:2 | The escaped character class leaves out the backslash | The text `\*` escapes to `\\*`. MarkdownV2 reads that as an escaped backslash followed by a bare `*`, which opens bold text, so the message is rejected or misrendered | Escape `\` too, as MarkdownV2 requires for every character in its escape set | high; not executed | `Markdown.BackslashBreaksReading` | `Markdown.StrictEscapeReadsBack` |
| src/logger.ts:25-31 | The name table maps each level name to a key of `LOG_LEVEL_NAMES`, so `levelResolver('trace')` is the string `"10"` | A transport with `excludeLevels: [10]` skips `logger.trace(...)`, but `logger.log('trace', ...)` reaches it: `[10].includes("10")` is false | Resolve a name to the number itself | medium; not executed | `Loggers.NamedLevelEscapesExclusion` | `Loggers.IntendedResolveHonoursExclusion` |

The model keeps the behaviour as written. `log` dispatches with the
positional `BaseLoggers.GetStream`, `Logger` resolves names to keys, and the
Telegram layout escapes with `Markdown.EscapeMarkdownV2`. The corrected halves
stand beside them: `Dispatch.IntendedOutcome`, which differs from `log` only in
the stream (`Dispatch.IntendedOutcomeChangesOnlyStream`), `Loggers.IntendedResolve`
and `Markdown.EscapeMarkdownV2Strict`.
