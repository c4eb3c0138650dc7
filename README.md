# viper-runner benchmark harness, modelled in Dafny

viper-runner benchmarks verifiers. It reads a configuration file that names
one or more run configurations (commands), a test folder, an ignore list, a
repetition count and a timeout. It walks the test folder for `.sil` files and
runs every file under every named configuration, `repetitions` times. Each
run's time and exit condition goes into a timing file. A result store groups
the runs per file and per configuration and averages their times. A result
processor then writes three semicolon-separated tables:

- the raw runs;
- one row per (file, repetition) with one column block per configuration, in
  sorted name order;
- one row per file with each configuration's average time.

The model follows the source file by file:

| Dafny module | source file | form |
|---|---|---|
| `Strings`, `Sorting` | (helpers) | `str.replace`, `str.join`, `str.strip`, `str.split(" ", 1)`, line splitting, decimal rendering; Python's string order and `sorted` |
| `Util` | `src/util.py` | placeholder tokens, `replace_placeholders` (a function), POSIX `os.path.split`/`basename`, `generate_path_dependent_filename` (a method with its `while True` loop) |
| `ConfigSyntax` | `src/config.py`, `src/Config.py` | the line filter and the first-space split both readers share |
| `Config` | `src/config.py` | the settings as a value, the reader as a step function, and class `Config` whose `ReadConfigFile` loop updates its fields in place |
| `LegacyConfig` | `src/Config.py` | the older three-token reader, in the same form |
| `Result` | `src/result.py` | `SingleRunResult`, the store as a value, and class `RunResult` whose methods update the store in place |
| `ProcessRunner` | `src/process_runner.py` | the subprocess as an `Executor` parameter; class `ProcessRunner` with the repetition loop and the output-file writing |
| `Environment` | `src/environment.py` | the test-file filter and class `Environment` with the collect and run loops |
| `FileWriter` | `src/filewriter.py` | the writer as a class holding its file's text |
| `LegacyFileWriter` | `src/fileWriter.py` | the older writer, in the same form |
| `ResultProcessor` | `src/result_processor.py` | headers and rows as functions. Class `ResultProcessor` writes to a `Disk` (file name to text) through `CsvWriter`s. |

Each method is proved against a specification function of its inputs and
old state: `ReadLines`, `AddAll`, `Processed`, `RunAll`, `HandOut`,
`RawTable`, `PerConfigRows`, `AvgRows`, `WrittenFiles`. The properties of
those functions are proved as lemmas.

Values the program reads from its surroundings are parameters:

- `os.path.normpath`, `int()` and the start-up date `CURR_DATE` are fields of `Host`;
- the subprocess is an `Executor` from the concrete command and the repetition index to an `Outcome`;
- `os.walk` is a sequence of `(root, file names)` entries;
- `str()` of a float is a function `show: real -> string`.

A Python exception that ends a loop part-way, such as a `KeyError` or an
`IndexError` on a missing configuration or repetition, is modelled as a
`Partial` result: the rows written before the exception, plus `complete ==
false`.

Where the design notes of the program and its code disagree, the model follows the code:

- Placeholder substitution is sequential, so text inserted by one step is
  rescanned by the later steps (`Util.InsertedTextIsRescanned`). It is not
  simultaneous.
- The path-derived name of `a/b/c/test.in` is `b_c_test.in`: the first
  segment is dropped and the base name is kept (`Util.ExamplePathName`). It
  is not `a_b_c`.
- A timed-out run records the configured timeout itself as its time. A
  failed run records `-1` and its return code as the exit condition.
- An executable that cannot be launched is not recorded. Its exception
  escapes `run` and ends the traversal (`Environment.HandOutFailStays`).
- Pre-round, post-round and periodic commands, and process-tree killing, have
  no code in the modelled files.

## Model

| member | source | states |
|---|---|---|
| Strings.Replace | src/util.py:21-25 | Python's `str.replace` for a non-empty pattern; `ReplaceAbsent` and `ReplaceSelf` prove it leaves text without the pattern alone and that replacing a pattern by itself changes nothing |
| Strings.CountPairJoin | src/filewriter.py:33-37 | joining `n` parts free of a two-character pair with a separator that holds it once, and cannot form it across a boundary, gives exactly `n - 1` pairs: Python's `count` of `, ` after a `", ".join` |
| Strings.IntToStringRoundTrip | src/process_runner.py:42 | `str()` of any integer, negative return codes included, parses back to that integer |
| Strings.SplitOnce | src/config.py:51 | `split(c, maxsplit=1)`: one part iff `c` does not occur; otherwise the parts around the first `c` rebuild the input |
| Strings.Strip | src/config.py:50 | `strip(chars)`: the result is empty iff every character is in `chars`, and otherwise starts and ends outside `chars` |
| Util.AfterLastSlash | src/util.py:31 | the index after the last `/` of a path: every later character is not a slash, and it is 0 iff the path has no slash |
| Util.Split | src/util.py:31 | `os.path.split`: the head is a prefix and the tail a slash-free suffix of the path; the head is empty iff the path has no slash |
| Util.Basename | src/util.py:19 | `os.path.basename` is a slash-free suffix of the path |
| Util.SplitOfRelative | src/util.py:31-37 | splitting a relative path gives a relative head that is strictly shorter unless empty, which is why the loop ends on relative paths |
| Util.GeneratePathDependentFilename | src/util.py:28-39 | the `while True` loop returns the `_`-join of the folders collected outermost first, and that is the path-derived name |
| Util.FixedAgreesOnRelative | src/util.py:28-39 | on relative paths the loop with the extra exit collects exactly what the source's loop collects |
| Util.AbsolutePathNeverExits | src/util.py:30-37 | for a path starting with `/`, every path the loop reaches again has a non-empty head, so its only exit is never taken |
| Util.RootIsFixpoint | src/util.py:31-37 | `os.path.split("/") == ("/", "")`: the root splits to itself with a non-empty head |
| Util.FoldersOfSegments | src/util.py:28-39 | for a relative `s0/s1/.../sn` the folders are `s1, ..., sn`: the first segment is dropped, the base name kept |
| Util.SegmentedPathName | src/util.py:28-39 | the path-derived name of `s0/s1/.../sn` is `s1_..._sn` |
| Util.RootedFolders | src/util.py:28-39 | with the corrected exit, `/s1/.../sn` yields the folders `s1, ..., sn`; only the root is dropped |
| Util.RootedPathName | src/util.py:28-39 | with the corrected exit, the path-derived name of `/s1/.../sn` is `s1_..._sn` |
| Util.BareNameHasEmptyPathName | src/util.py:30-36 | a name without a slash has the empty path-derived name |
| Util.ExamplePathName | src/util.py:28-39 | `a/b/c/test.in` gives `b_c_test.in` |
| Util.PathFolders | src/util.py:28-39 | the folder list of `generate_path_dependent_filename` for a relative path, in join order; its loop is `GeneratePathDependentFilename`, and `FoldersOfSegments` proves it is every folder below the top one |
| Util.PathFoldersFixed | src/util.py:28-39 | the same folder list with an extra exit at the root, so it is defined on every path; `FixedAgreesOnRelative` proves it equals `PathFolders` wherever the source terminates, and `RootedFolders` says what it gives for absolute paths |
| Util.PathDependentName | src/util.py:28-39 | the `_`-joined folder list that `@path_name@` stands for; `SegmentedPathName`, `RootedPathName`, `BareNameHasEmptyPathName` and `ExamplePathName` state its value |
| Util.ReplacePlaceholders | src/util.py:14-25 | the five chained `str.replace` calls, with the source's file-name default and its basename and path-name substitution; its meaning is proved by `NoPlaceholderUnchanged`, `EmptyFileKeepsFileTokens`, `DefaultsReplaceOnlyDate`, `FileNameTokenIsBasename` and `InsertedTextIsRescanned` |
| Util.NoPlaceholderUnchanged | src/util.py:21-25 | a template without any of the five tokens is returned unchanged |
| Util.EmptyFileKeepsFileTokens | src/util.py:16-25 | with `file == ""`, `@file_name@` and `@path_name@` survive; only date, repetition and configuration name are substituted |
| Util.DefaultsReplaceOnlyDate | src/util.py:14-25 | with every default argument only `@date@` is substituted, because the default repetition and configuration name equal their tokens |
| Util.FileNameTokenIsBasename | src/util.py:18-25 | for any template without `@date@` and a non-empty file, the result is the template with every `@file_name@` replaced by the file's base name, as long as that text holds none of the later tokens |
| Util.FileNameTokenAlone | src/util.py:14-25 | a template that is just `@file_name@` becomes the file's base name, unless the base name itself carries a later token |
| Util.InsertedTextIsRescanned | src/util.py:21-25 | replacement order matters: a base name `@rep@.sil` turns `@file_name@` into `3.sil` at repetition 3 |
| ConfigSyntax.IsEffective | src/config.py:50 | the reader's line filter: not blank once stripped of spaces and line breaks, and not starting with `#` before stripping; `CommentIgnored` and `Config.CommentLinesIgnored` prove what it drops |
| ConfigSyntax.ParseLine | src/config.py:51-57 | the split at the first space with the option stripped, and the skip of an option without argument; `ParseLineSplitsAtFirstSpace`, `ArgumentNonEmpty` and `ArgumentKeepsSpaces` prove its meaning |
| ConfigSyntax.EffectiveLines | src/config.py:50 | the kept lines are no more than the file's lines, each non-empty and without leading or trailing space, CR or LF |
| ConfigSyntax.EffectiveLinesConcat | src/config.py:50 | the filter works line by line: the lines kept from a concatenation are those kept from each part, in order |
| ConfigSyntax.EffectiveLinesSingle | src/config.py:50 | one line contributes its stripped text iff it is non-blank and its raw text does not start with `#` |
| ConfigSyntax.CommentIgnored | src/config.py:50 | a line starting with `#` contributes nothing wherever it stands |
| ConfigSyntax.ParseLineSplitsAtFirstSpace | src/config.py:51-57 | a line has an argument iff it holds a space; the first space separates the stripped option from the argument |
| ConfigSyntax.ArgumentNonEmpty | src/config.py:50-57 | on a kept line with an argument the argument is never empty |
| ConfigSyntax.ArgumentKeepsSpaces | src/config.py:51 | only the first space splits: the argument keeps its inner spaces |
| Config.ParseBool | src/config.py:110-114 | `parse_bool`: false for `"False"`, `"0"` and the empty string, true otherwise; `ParseBoolOnArguments` states both directions for every argument the reader can pass |
| Config.Classify | src/config.py:60-103 | which branch of the option chain an option text selects; `ClassifyName` and `ClassifyKnown` prove each known option name selects its own branch and any other text selects none |
| Config.ParseBoolOnArguments | src/config.py:110-114 | on a non-empty argument `parse_bool` is false exactly for `"False"` and `"0"` |
| Config.ClassifyName | src/config.py:60-103 | each known option text selects its own branch of the `if`/`elif` chain |
| Config.ClassifyKnown | src/config.py:60-103 | an option selects a branch iff it is one of the eleven known names |
| Config.Apply | src/config.py:59-103 | one option keeps exactly one name per configuration and at least one configuration; the override flag drops exactly at a `run_configuration` |
| Config.Step | src/config.py:51-57 | a line keeps the configuration and name lists of equal length |
| Config.Steps | src/config.py:50-103 | applying the kept lines in order keeps the lists of equal length |
| Config.ReadLines | src/config.py:41-107 | `read_config_file` keeps the lists of equal length; an unreadable file leaves the settings as they are |
| Config.Config.constructor | src/config.py:12-26 | `Config.__init__` sets the documented defaults |
| Config.Config.ReadConfigFile | src/config.py:41-107 | the loop leaves exactly the settings `ReadLines` gives for the file's lines and keeps the lists of equal length |
| Config.Config.ApplyOption | src/config.py:59-103 | the branch for one option updates the fields and the override flag exactly as `Apply` says |
| Config.StepCount | src/config.py:62-70 | one line adds a configuration iff it declares one; the first declaration replaces the defaults by one configuration |
| Config.ApplyCount | src/config.py:62-70 | an option adds a configuration iff it is `run_configuration`; the first one replaces the defaults by one configuration |
| Config.ConfigurationCount | src/config.py:62-70 | the defaults stay until the first `run_configuration`; then there is one configuration per such line |
| Config.FileConfigurationCount | src/config.py:62-70 | a file declaring k ≥ 1 configurations leaves exactly k configurations and k names |
| Config.EarlierConfigurationsKept | src/config.py:62-95 | after the override no line drops or rewrites a configuration or name before the last one, and the lists only grow |
| Config.NamesNumbered | src/config.py:68-70 | when no line renames, the k-th configuration is named `run_config_k` |
| Config.RunConfigurationAppends | src/config.py:62-70 | `run_configuration` appends `[normpath(arg)]` named after its 1-based position, after clearing the defaults the first time, and changes nothing else |
| Config.ArgExtendsLast | src/config.py:86-90 | `arg` extends only the last configuration by its first-space split; names and other settings stay |
| Config.ConfigNameRenamesLast | src/config.py:91-95 | `config_name` replaces only the last name and keeps the number of names |
| Config.UnknownOptionIgnored | src/config.py:102-103 | an unknown option changes nothing |
| Config.MissingArgumentIgnored | src/config.py:54-57 | a line without an argument changes nothing |
| Config.UnparseableNumberKept | src/config.py:74-83 | a repetition count or timeout that `int()` rejects keeps the previous value |
| Config.TimingCsvReplacesOnlyDate | src/config.py:96-97 | `timing_csv` has `@date@` replaced by the date and every other token kept |
| Config.CommentLinesIgnored | src/config.py:50 | deleting a `#` line from a configuration file does not change what is read |
| LegacyConfig.ReplacePlaceholders | src/Config.py:13-16 | the three chained `str.replace` calls of the older reader; `DefaultsReplaceOnlyDate` and `NoPlaceholderUnchanged` prove what it does with the defaults and with a text free of tokens |
| LegacyConfig.DefaultsReplaceOnlyDate | src/Config.py:13-16 | with the default file name and repetition only `@date@` changes |
| LegacyConfig.NoPlaceholderUnchanged | src/Config.py:13-16 | a template without any of the three tokens is returned unchanged |
| LegacyConfig.ParseBool | src/Config.py:110-114 | the older `parse_bool`: false for `"False"` and the empty string only, so `"0"` is true; `ParseBoolOnArguments` states both directions |
| LegacyConfig.ParseBoolOnArguments | src/Config.py:110-114 | on a non-empty argument `parse_bool` is false only for `"False"`; `"0"` is true |
| LegacyConfig.Classify | src/Config.py:69-103 | which branch of the older option chain an option text selects; `ClassifyName`, `ClassifyKnown` and `NewerOptionsUnknown` prove its meaning |
| LegacyConfig.ClassifyName | src/Config.py:69-103 | each known option text selects its own branch |
| LegacyConfig.ClassifyKnown | src/Config.py:69-103 | an option selects a branch iff it is one of the nine known names |
| LegacyConfig.Apply | src/Config.py:68-103 | one option keeps at least one configuration; the override flag drops exactly at a `run_configuration` |
| LegacyConfig.Step | src/Config.py:60-66 | a line keeps at least one configuration |
| LegacyConfig.Steps | src/Config.py:59-103 | the kept lines in order keep at least one configuration |
| LegacyConfig.ReadLines | src/Config.py:50-107 | `read_config_file` keeps at least one configuration; an unreadable file leaves the settings as they are |
| LegacyConfig.Config.constructor | src/Config.py:24-36 | `Config.__init__` sets the documented defaults |
| LegacyConfig.Config.ReadConfigFile | src/Config.py:50-107 | the loop leaves exactly the settings `ReadLines` gives for the file's lines |
| LegacyConfig.Config.ApplyOption | src/Config.py:68-103 | the branch for one option updates the fields and the override flag exactly as `Apply` says |
| LegacyConfig.StepCount | src/Config.py:71-77 | one line adds a configuration iff it declares one; the first replaces the default |
| LegacyConfig.ApplyCount | src/Config.py:71-77 | an option adds a configuration iff it is `run_configuration`; the first one replaces the default |
| LegacyConfig.ConfigurationCount | src/Config.py:71-77 | the default stays until the first `run_configuration`; then one configuration per such line |
| LegacyConfig.RunConfigurationAppends | src/Config.py:71-77 | the first `run_configuration` clears the default list; each appends `[normpath(arg)]` |
| LegacyConfig.ArgExtendsLast | src/Config.py:93-97 | `arg` extends only the last configuration, the default one if none was declared |
| LegacyConfig.UnknownOptionIgnored | src/Config.py:102-103 | an unknown option changes nothing |
| LegacyConfig.NewerOptionsUnknown | src/Config.py:69-103 | `config_name` and `output_file` are unknown to this reader |
| LegacyConfig.MissingArgumentIgnored | src/Config.py:63-66 | a line without an argument changes nothing |
| LegacyConfig.UnparseableNumberKept | src/Config.py:81-90 | a repetition count or timeout that `int()` rejects keeps the previous value |
| LegacyConfig.TimingCsvReplacesOnlyDate | src/Config.py:98-99 | `timing_csv` replaces `@date@` by the date and nothing else |
| LegacyConfig.CommentLinesIgnored | src/Config.py:59 | deleting a `#` line does not change what is read |
| Result.AddOne | src/result.py:20-30 | one round of `add_results`: the counters and the file's list grow by this result; `AddOneValid` proves it keeps the store valid |
| Result.AddAll | src/result.py:19-30 | `add_results` as a fold of `AddOne`; `AddAllValid`, `AddAllLists`, `AddAllCounters` and `AddAllOrder` prove its lists, counters and key order |
| Result.CountOf | src/result.py:19-25 | how much `add_results` raises a counter is at most the number of results |
| Result.MeasurementsCountAll | src/result.py:20-21 | every result raises `n_measurements` once |
| Result.FreshResultIsNeutral | src/result.py:57-62 | a fresh result counts as a measurement but not as a timeout or an error, and has a negative time |
| Result.EmptyValid | src/result.py:11-17 | the empty store satisfies the store invariant |
| Result.CountersBounded | src/result.py:19-25 | in every valid store the timeout and error counters are at most `n_measurements` |
| Result.AddOneValid | src/result.py:20-30 | one result keeps the store invariant: key order, own-file lists, counters equal to counts over the lists |
| Result.AddAllValid | src/result.py:19-30 | `add_results` keeps the store invariant |
| Result.AddAllLists | src/result.py:27-30 | each file's list gains exactly that file's new results in order, and other lists are untouched; a list exists iff it did before or the file occurs |
| Result.AddAllCounters | src/result.py:19-25 | each counter grows by the count of the new results; the derived dictionaries stay |
| Result.AddAllOrder | src/result.py:27-28 | the file order grows by the files seen for the first time, in order of first appearance |
| Result.GroupMap | src/result.py:38-42 | `config_to_time` after the inner loop: each configuration name to its results in order; `GroupMapKeys` and `Group` state its keys and values |
| Result.AvgMap | src/result.py:38-48 | `config_to_avg_time` after the means are taken; `ProcessedGroups` proves it has the grouping's keys and that each value is the mean of that configuration's times, which `MeanBounds` and `MeanOfConstant` bound |
| Result.Group | src/result.py:38-42 | a group holds only results of its configuration and is non-empty iff that configuration occurs |
| Result.GroupConcat | src/result.py:38-42 | grouping keeps the order of the list: the group of a concatenation is the concatenation of the groups |
| Result.GroupPartition | src/result.py:38-42 | every result occurs in its own configuration's group as often as in the list, and in no other group |
| Result.GroupOfUniform | src/result.py:38-42 | a list of one configuration is its own group |
| Result.GroupMapKeys | src/result.py:39-42 | the grouping's keys are the configurations that occur, and each group is non-empty |
| Result.GroupMapSnoc | src/result.py:38-42 | one more result extends its configuration's group, creating it on first sight |
| Result.TimesMapSnoc | src/result.py:39-43 | one more result appends its time to its configuration's times |
| Result.TimesMapKeys | src/result.py:39-43 | the times have the grouping's keys and are the non-empty times of each group |
| Result.MeanBounds | src/result.py:47-48 | a mean lies between the least and the greatest time |
| Result.MeanOfConstant | src/result.py:47-48 | a group whose runs all took the same time averages to that time |
| Result.Processed | src/result.py:32-49 | `process_timings` on a valid store; `ProcessedValid`, `ProcessedKeepsResults`, `ProcessedGroups` and `ProcessedIdempotent` prove what it keeps, what it derives and that a second call changes nothing |
| Result.ProcessedValid | src/result.py:32-49 | `process_timings` keeps the store invariant |
| Result.ProcessedKeepsResults | src/result.py:32-49 | `process_timings` leaves the lists, their order and the counters unchanged |
| Result.ProcessedGroups | src/result.py:34-49 | afterwards the derived keys are the files; each file's groups are its configurations; each group is the order-preserving selection of its configuration, and the average is the group's mean time |
| Result.ProcessedIdempotent | src/result.py:32-49 | running `process_timings` twice gives the same store as once |
| Result.CollectTimings | src/result.py:35-43 | the inner loop builds exactly the grouping and the lists of times of a file's results |
| Result.TakeMeans | src/result.py:47-48 | the second inner loop replaces every list of times by its mean |
| Result.RunResult.constructor | src/result.py:11-17 | `RunResult()` is the empty store |
| Result.RunResult.AddResults | src/result.py:19-30 | the fields become `AddAll` of the old store and stay valid |
| Result.RunResult.AddResult | src/result.py:20-30 | one round of the loop: the fields become `AddOne` of the old store |
| Result.RunResult.ProcessTimings | src/result.py:32-49 | the fields become `Processed` of the old store and stay valid |
| Result.RunResult.ProcessFile | src/result.py:34-49 | one round of the outer loop sets the file's grouping and averages |
| Result.RunResult.HandleFiles | src/result.py:34-49 | the outer loop handles the files in key order, as `ProcessUpTo` says |
| Result.ProcessUpToGroups | src/result.py:34-45 | after the first i files the groupings are those files' groupings written over the old ones, in order |
| Result.ProcessUpToAverages | src/result.py:34-49 | after the first i files the averages are those files' averages written over the old ones, in order |
| Result.ProcessUpToOrder | src/result.py:34-49 | after the first i files the key order of the derived dictionaries gains those files not there before, in order |
| Result.ProcessedByUpTo | src/result.py:32-49 | handling every file in order gives `Processed` |
| ProcessRunner.ConcreteCommand | src/process_runner.py:26-27 | every element of the command with its placeholders replaced for this file, repetition and configuration name; `ConcreteCommandShape` and `RepTokenIsIndex` prove its elements, that a token-free file argument passes unchanged, and what `@rep@` becomes |
| ProcessRunner.ExitTiming | src/process_runner.py:36-46 | the time and exit condition `run` records for an outcome; `ExitConditionReadBack` proves which outcome each condition comes from and which time goes with it |
| ProcessRunner.OutputFileName | src/process_runner.py:65-66 | the output template with the same file, repetition and configuration name; `ProcessRunner.ProcessRunner.RunWithOutput` opens exactly this name |
| ProcessRunner.OutputAt | src/process_runner.py:62-87 | the output file of one repetition, emptied when opened and filled only after the process completed; `OutputTextParts` proves its text is the two sections around stdout and stderr |
| ProcessRunner.RunUpTo | src/process_runner.py:24-46 | the timings of the first repetitions, or the first one whose process could not be launched; `RunUpToMeaning` and `RunUpToErrStays` prove that meaning |
| ProcessRunner.RunAll | src/process_runner.py:22-49 | `run`'s result; `RunAllCount` proves that when every repetition launches it holds one timing per repetition, and `ProcessRunner.ProcessRunner.Run` returns it |
| ProcessRunner.ConcreteCommandShape | src/process_runner.py:15-17 | the concrete command has one element more than the configuration's; each is placeholder-substituted for this file, repetition and configuration; the last is the file when it carries no token |
| ProcessRunner.RepTokenIsIndex | src/process_runner.py:26 | `@rep@` becomes the 0-based repetition index in decimal |
| ProcessRunner.ExitConditionReadBack | src/process_runner.py:31-46 | success gives `(elapsed, "0")`, timeout `(timeout, "timeout")`, failure `(-1, str(code))`; the exit condition reads back to the outcome |
| ProcessRunner.OutputTextParts | src/process_runner.py:77-86 | the output file holds the stdout frame, the stdout text, the stderr frame and the stderr text, in that order |
| ProcessRunner.RunUpToMeaning | src/process_runner.py:22-49 | the first n repetitions give n timings, the i-th for repetition i's outcome, unless one could not be launched; then the first such repetition is reported |
| ProcessRunner.RunAllCount | src/process_runner.py:23-24 | when every process starts, `run` returns exactly `repetitions` timings, none if the count is not positive |
| ProcessRunner.RunUpToErrStays | src/process_runner.py:31-45 | a launch failure escapes `run`: no later repetition happens |
| ProcessRunner.ProcessRunner.constructor | src/process_runner.py:15-20 | the runner's command is the configuration's command with the file appended |
| ProcessRunner.ProcessRunner.RunWithOutput | src/process_runner.py:61-94 | an output file exists iff a name is configured; it is named with the same file, repetition and configuration, and holds the framed streams of a completed run |
| ProcessRunner.ProcessRunner.Run | src/process_runner.py:22-49 | the repetition loop returns `RunAll`'s timings and writes `OutputsAll`'s files |
| ProcessRunner.WriteStreams | src/process_runner.py:76-87 | the writer gains exactly the framed stdout and stderr |
| ProcessRunner.WriteEach | src/process_runner.py:80-81 | writing a text character by character appends the text |
| Environment.PathJoin | src/environment.py:48 | POSIX `os.path.join(root, name)`; `BenchFilesMembers` proves the kept files are exactly the normalised joins of the names that pass the filter |
| Environment.IsBenchFile | src/environment.py:48-49 | the benchmark filter: a `.sil` name whose joined path ends with no ignore entry; `EmptyIgnoreList` and `IgnoredIsExcluded` prove both sides of it |
| Environment.Collected | src/environment.py:47-50 | the benchmark files of a whole walk, directory by directory; `CollectedConcat` and `BenchFilesMembers` prove its order and members |
| Environment.PairsOf | src/environment.py:64-65 | every file with every zipped configuration and name, files outside; `PairsCount` and `PairAt` prove its length and each position |
| Environment.HandOut | src/environment.py:64-68 | the runs and hand-overs of all pairs, up to the first launch failure; `HandOutMeaning`, `HandOutFailStays` and `HandOutNext` prove that meaning |
| Environment.BenchFiles | src/environment.py:48-49 | the benchmark files of one directory are at most its file names |
| Environment.BenchFilesMembers | src/environment.py:47-50 | a path is collected iff some walked name ends with `.sil`, its joined path ends with no ignored entry, and the path is its normalised join |
| Environment.EmptyIgnoreList | src/environment.py:48-49 | with an empty ignore list a file is kept iff its name ends with `.sil` |
| Environment.IgnoredIsExcluded | src/environment.py:49 | a file whose joined path ends with an ignore-list entry is excluded |
| Environment.CollectedConcat | src/environment.py:47-50 | collecting only extends the list, walk entry by walk entry |
| Environment.RowOf | src/environment.py:65 | `zip` gives one pair per configuration up to the shorter of the two lists |
| Environment.PairsCount | src/environment.py:64-65 | there are `files × min(configurations, names)` pairs |
| Environment.PairAt | src/environment.py:64-65 | pair `i·m + j` is file i with the j-th configuration and the j-th name: files outside, configurations inside |
| Environment.HandOutMeaning | src/environment.py:64-68 | when every run completes, each pair's timings are handed to the writer exactly once, in traversal order, with its file and name |
| Environment.HandOutFailStays | src/environment.py:64-68 | after a run escapes with a launch failure, no further pair is run |
| Environment.HandOutNext | src/environment.py:65-68 | one more pair of a row: a launch failure ends the row with nothing more handed over, a completed run hands its timings with its file and name |
| Environment.RunPair | src/environment.py:66-67 | a runner built from a pair returns that pair's `RunAll` timings, or the failed launch |
| Environment.Environment.constructor | src/environment.py:16-19 | a fresh environment has the default configuration, no files and no writer |
| Environment.Environment.InitEnv | src/environment.py:28-31 | the configuration is read as `ReadLines` says; the timing file is opened under its configured name with the header |
| Environment.Environment.CollectTestFiles | src/environment.py:40-50 | `files` gains exactly the collected benchmark files of the walk, in order |
| Environment.Environment.RunProcesses | src/environment.py:59-68 | the nested loop hands over exactly `HandOut`'s timings and reports whether every run completed |
| Environment.Environment.RunFile | src/environment.py:65-68 | the inner loop over one file's pairs extends the hand-over as `HandOut` says |
| Environment.Environment.RunAndHandOver | src/environment.py:66-68 | one round of the inner loop: when the run completes, the hand-over log is `HandOut`'s for one more pair; when it escapes, it is `HandOut`'s for the whole row, which has failed |
| Environment.Environment.Finalize | src/environment.py:33-34 | the timing file is closed and its text kept |
| Environment.Environment.Exec | src/environment.py:21-26 | init, collect, run and finalize in this order: the configuration, files and hand-over are those of the specification functions, and the file is closed iff every run completed (in the model's hand-over log; see "Left out" for the source's `TypeError`) |
| FileWriter.TimingLine | src/filewriter.py:33-37 | the `, `-joined line of one result; `TimingLineMatchesHeader` proves it has as many separators as the header |
| FileWriter.HeaderFieldsPlain | src/filewriter.py:12 | no column name holds a comma or a newline |
| FileWriter.RenderedAvoids | src/filewriter.py:33-37 | a rendered return code or timeout flag holds no comma or newline |
| FileWriter.TimingLineMatchesHeader | src/filewriter.py:12-37 | the header and every line hold exactly four `, ` separators, so they split into five fields, when the time, file and configuration hold no `, ` |
| FileWriter.TimingLinesReadBack | src/filewriter.py:29-38 | the lines appended read back one per result, in order |
| FileWriter.TimingLinesSnoc | src/filewriter.py:29-38 | one more result appends exactly its own line to what was printed |
| FileWriter.HeaderIsFirstLine | src/filewriter.py:22-24 | the header is the file's first line, whatever follows |
| FileWriter.FileWriter.constructor | src/filewriter.py:11-13 | a writer starts with the default header and no file |
| FileWriter.FileWriter.Finalize | src/filewriter.py:15-16 | closing keeps the text |
| FileWriter.FileWriter.InitOutputFile | src/filewriter.py:18-27 | opening empties the file and writes the header as first line iff asked |
| FileWriter.FileWriter.AddTimingEntry | src/filewriter.py:29-41 | one line per result, in order, is appended |
| FileWriter.FileWriter.WriteLine | src/filewriter.py:43-48 | the line and a newline are appended, nothing else changes |
| FileWriter.FileWriter.WriteRaw | src/filewriter.py:50-55 | the text is appended verbatim |
| LegacyFileWriter.TimingLine | src/fileWriter.py:33 | the `, `-joined line of one timing; `TimingLineMatchesHeader` proves it has as many separators as the header |
| LegacyFileWriter.HeaderFieldsPlain | src/fileWriter.py:13 | no column name holds a comma or a newline |
| LegacyFileWriter.HeaderSeparators | src/fileWriter.py:13 | the older header holds exactly three `, ` separators, so it names four fields |
| LegacyFileWriter.TimingLineMatchesHeader | src/fileWriter.py:13-33 | the header and every line hold exactly three `, ` separators, so they split into four fields, when the time, file, joined run configuration and exit condition hold no `, ` |
| LegacyFileWriter.TimingLinesReadBack | src/fileWriter.py:29-34 | the lines read back one per timing, in order |
| LegacyFileWriter.HeaderIsFirstLine | src/fileWriter.py:23-24 | the header is the file's first line |
| LegacyFileWriter.FileWriter.constructor | src/fileWriter.py:11-14 | the writer is bound to its file name and header, with no file open |
| LegacyFileWriter.FileWriter.Finalize | src/fileWriter.py:16-17 | closing keeps the text |
| LegacyFileWriter.FileWriter.InitCsvTimings | src/fileWriter.py:19-27 | opening empties the file and always writes the header |
| LegacyFileWriter.FileWriter.AddTimingEntry | src/fileWriter.py:29-37 | one line per `(time, exit condition)` pair, in order, is appended |
| Sorting.StrLe | src/result_processor.py:75 | Python's `<=` on strings; `StrLeTotal`, `StrLeAntisymmetric` and `StrLeTransitive` prove it is a total order |
| Sorting.Sort | src/result_processor.py:82-83 | `sorted` of the configuration names, with the same length as its input; `SortSorted`, `SortPermutes`, `SortUnique` and `SortIdempotent` prove it is the one sorted permutation |
| Sorting.StrLeTotal | src/result_processor.py:75 | any two strings are ordered one way or the other |
| Sorting.StrLeAntisymmetric | src/result_processor.py:75 | strings ordered both ways are equal |
| Sorting.StrLeTransitive | src/result_processor.py:75 | the string order is transitive |
| Sorting.SortSorted | src/result_processor.py:82-83 | sorting yields a sorted list |
| Sorting.SortPermutes | src/result_processor.py:82-83 | sorting keeps every name as often as it occurs |
| Sorting.SortUnique | src/result_processor.py:74-75 | two sorted lists with the same elements are equal, so the sorted order is the one sorted permutation |
| Sorting.SortIdempotent | src/result_processor.py:82-83 | sorting a sorted list changes nothing |
| ResultProcessor.PerConfigHeader | src/result_processor.py:73-80 | the per-configuration header over the sorted names; `PerConfigHeaderLayout`, `PerConfigHeaderCount` and `HeadersIgnoreSorting` prove its layout |
| ResultProcessor.AvgHeader | src/result_processor.py:32-38 | the header of averages, one column per name; `AvgHeaderCount` and `HeadersStartWithInputFile` prove its layout |
| ResultProcessor.RawHeaderShape | src/result_processor.py:16-21 | the raw header has five `;`-separated fields, starting with `runtime [s]`, on one line |
| ResultProcessor.PerConfigHeaderLayout | src/result_processor.py:24-30 | the per-configuration header is `input file` then, for the k-th sorted name, its runtime, exit condition and timeout columns: 1 + 3k fields |
| ResultProcessor.PerConfigHeaderCount | src/result_processor.py:24-30 | with names free of `;`, the header holds 3k separators |
| ResultProcessor.AvgHeaderCount | src/result_processor.py:34-38 | the average header has 1 + k fields and k separators |
| ResultProcessor.HeadersStartWithInputFile | src/result_processor.py:29-37 | both headers start with `input file` |
| ResultProcessor.HeadersIgnoreSorting | src/result_processor.py:24-35 | the headers do not depend on the names' order |
| ResultProcessor.RawRow | src/result_processor.py:64-68 | the `;`-joined raw row of one result; `RawRowMatchesHeader` proves it has as many fields as the raw header |
| ResultProcessor.RawTable | src/result_processor.py:57-68 | the raw header followed by every result's row; `RawRowsCount` and `RawTableRows` prove its rows are the results in store order |
| ResultProcessor.RawRowsCount | src/result_processor.py:62-68 | there is one raw row per stored result |
| ResultProcessor.RawTableRows | src/result_processor.py:62-68 | in a valid store the raw rows number `n_measurements` |
| ResultProcessor.RawRowMatchesHeader | src/result_processor.py:57-68 | a raw row has as many separators as the raw header when its fields hold no `;` |
| ResultProcessor.SlotsCount | src/result_processor.py:85-86 | the per-configuration table has `repetitions` slots per file |
| ResultProcessor.SlotAt | src/result_processor.py:85-86 | slot `i·r + j` is file i at repetition j: a file's rows are consecutive |
| ResultProcessor.SlotsMembers | src/result_processor.py:85-86 | every slot names a processed file and a repetition below the count |
| ResultProcessor.PerConfigRows | src/result_processor.py:85-94 | the rows of the per-configuration table up to the first missing entry; `PerConfigRowsMeaning`, `PerConfigRowsStopped` and `ProcessedTableComplete` prove that meaning |
| ResultProcessor.PerConfigRowsMeaning | src/result_processor.py:85-94 | the table is complete iff every slot has all configurations' i-th result; its rows are those slots' rows in order; otherwise it stops at the first slot without one |
| ResultProcessor.PerConfigRowsStopped | src/result_processor.py:85-94 | once a lookup fails no later row is written |
| ResultProcessor.PerConfigRowMatchesHeader | src/result_processor.py:74-94 | a row has as many separators as the header: 3k |
| ResultProcessor.ProcessedTableComplete | src/result_processor.py:85-94 | after `process_timings`, when every file has at least `repetitions` runs of every configuration, the table is complete |
| ResultProcessor.AvgRows | src/result_processor.py:98-104 | the rows of averages up to the first file missing one; `AvgRowsMeaning`, `AvgRowsStopped` and `ProcessedAveragesComplete` prove that meaning |
| ResultProcessor.AvgRowsMeaning | src/result_processor.py:98-104 | the average table is complete iff every file has every configuration's mean; its rows are one per file in order; otherwise it stops at the first file without one |
| ResultProcessor.AvgRowsStopped | src/result_processor.py:98-104 | once a lookup fails no later average row is written |
| ResultProcessor.AvgRowMatchesHeader | src/result_processor.py:98-104 | an average row has as many separators as the average header |
| ResultProcessor.ProcessedFileAverages | src/result_processor.py:98-102 | after `process_timings`, a file that ran every configuration has every configuration's mean |
| ResultProcessor.ProcessedAveragesComplete | src/result_processor.py:97-104 | after `process_timings`, when every file ran every configuration, the average table is complete |
| ResultProcessor.Opened | src/result_processor.py:11-40 | the files after the constructor: each set writer's file holds only its header; `ResultProcessor.ResultProcessor.constructor` leaves the disk in this state |
| ResultProcessor.TablesWritten | src/result_processor.py:84-105 | `writer_per_config_file` on files; `TablesWrittenStartWithHeader` proves the table's file starts with its header |
| ResultProcessor.WrittenFiles | src/result_processor.py:45-105 | `write_result_files` on files for given targets; `ReportWritesEachTable` proves, through `Report`, what each target then holds |
| ResultProcessor.ReportAsWritten | src/result_processor.py:45-105 | the report as the source writes it, with the per-configuration table sent to `timing_csv_file_name`; `AsWrittenLosesRawTable` proves the raw table is then lost |
| ResultProcessor.Report | src/result_processor.py:45-105 | the report with the per-configuration table in its own file; `ReportWritesEachTable`, `ReportOk` and `ReportCompleteWhenEveryRunIsThere` prove its contents |
| ResultProcessor.AsWrittenLosesRawTable | src/result_processor.py:84 | as written, the per-configuration table replaces the raw table in `timing_csv_file_name`: that file starts with the per-configuration header and is not the raw table |
| ResultProcessor.TablesWrittenStartWithHeader | src/result_processor.py:84-94 | the file the per-configuration table is written to begins with that table's header, whether or not averages follow it in the same file |
| ResultProcessor.ReportWritesEachTable | src/result_processor.py:45-105 | with three distinct names, each file holds its own table after the header; the averages follow only a complete per-configuration table |
| ResultProcessor.ReportOk | src/result_processor.py:45-105 | the write finishes iff the per-configuration table, when configured, and the averages, when configured, are complete |
| ResultProcessor.ReportCompleteWhenEveryRunIsThere | src/result_processor.py:85-105 | when every file has `repetitions` runs of every configuration, the write finishes |
| ResultProcessor.CsvWriter.constructor | src/result_processor.py:57-61 | `FileWriter(name, header=...)` opens the file, empties it and writes the header line |
| ResultProcessor.CsvWriter.WriteLine | src/result_processor.py:94 | a line is appended to the writer's file |
| ResultProcessor.CsvWriter.Finalize | src/result_processor.py:105 | closing keeps the files |
| ResultProcessor.ReportConfig.SortRunConfigNames | src/result_processor.py:82-83 | the configuration's name list is sorted in place and nothing else changes |
| ResultProcessor.WriteRawRows | src/result_processor.py:63-68 | one file's results are appended as raw rows, in order |
| ResultProcessor.WriteRawTable | src/result_processor.py:62-68 | all files' results are appended, file-major in store order |
| ResultProcessor.RowValues | src/result_processor.py:87-93 | a row's values exist iff every configuration has an i-th result, and then they are the file and each configuration's three cells |
| ResultProcessor.AvgValuesOf | src/result_processor.py:99-102 | an average row's values exist iff every configuration has a mean, and then they are the file and the means |
| ResultProcessor.WriteFileRows | src/result_processor.py:86-94 | one file's `repetitions` rows are appended, stopping at the first missing result |
| ResultProcessor.WriteTableRows | src/result_processor.py:85-94 | the per-configuration rows are appended as `PerConfigRows` says, and the result tells whether the table is complete |
| ResultProcessor.WriteAverages | src/result_processor.py:98-104 | the average rows are appended as `AvgRows` says, and the result tells whether the table is complete |
| ResultProcessor.WriteConfigTables | src/result_processor.py:84-105 | with the corrected target of line 84, the per-configuration file (`per_config_timing_csv_file_name`) is rewritten with its table; the averages follow iff that table is complete; the average writer is closed iff both finished |
| ResultProcessor.ResultProcessor.constructor | src/result_processor.py:11-40 | each writer exists iff its name is non-empty; each configured file is emptied with its header; the store is processed |
| ResultProcessor.ResultProcessor.WriteResultFiles | src/result_processor.py:45-53 | with the corrected target of line 84, the files become `WrittenFiles`: the raw table iff its writer exists, then the per-configuration tables iff theirs does; the names are sorted only in the second case |
| ResultProcessor.ResultProcessor.WriteResultCsv | src/result_processor.py:55-70 | the raw file becomes the raw header and one row per result, file-major |
| ResultProcessor.ResultProcessor.WriterPerConfigFile | src/result_processor.py:72-105 | the names are sorted in place; with the corrected target of line 84, the per-configuration file (`per_config_timing_csv_file_name`) and the averages are written as `WrittenFiles` says; the average writer is closed iff everything finished |

## Left out

- I/O failures are not modelled. These are the `IOError` handlers that print a message and `exit(-1)`, `os.makedirs`, and `os.path.exists`. Files always open.
- Console output is left out: `Config.print`, `print_info`, `print_file_list`, `print_summary` and every progress message.
- The subprocess, `time.perf_counter` and the timeout killing inside `subprocess.run` are a parameter: an `Executor` returns the outcome and the elapsed time.
- `os.walk`, `os.path.normpath`, `int()` and `CURR_DATE` are parameters. `os.path.join` and `os.path.split` are modelled for POSIX paths only.
- Floats are not modelled. Times are `real`, `statistics.mean` is the exact mean, and `str()` of a time is the parameter `show`. Three times are Python integers in the source, so `str()` gives integer text such as `"-1"`: the configured timeout of a killed run (src/process_runner.py:39), the `-1` of a failed run (src/process_runner.py:43) and the `-1` default of `SingleRunResult` (src/result.py:59). The model records them as reals and renders them through `show`.
- ProcessRunner.ExitTiming and Result.FreshResultIsNeutral: record `-1.0` and the timeout as reals, not integers, so `show` of them need not be Python's integer text.
- `runner.py`, `plotter.py`, `src/result_analyzer.py` and `src/run_result.py` are not part of this model.
- The modules are not composed as the program wires them, because their interfaces do not fit together:
  - `src/environment.py:68` passes three arguments to a one-argument `add_timing_entry` (src/filewriter.py:29), so `Environment` records each call in `handed`. In the source the first hand-over raises `TypeError`, so with at least one pair `finalize` is never reached and the timing file is not closed by `exec`;
  - `run` yields `(time, exit condition)` tuples, where `src/filewriter.py` expects result objects;
  - `FileWriter(name, header=...)` used as a context manager is not in `src/filewriter.py`. `CsvWriter` models the behaviour the call evidently expects: it opens and empties the file and writes the header line.
- Environment.Environment.Exec and Environment.Environment.RunProcesses: their "closed iff every run completed" and "hands over `HandOut`'s timings" hold for the model's hand-over log, not for the source, which stops at the `TypeError` of its first hand-over.
- Util.ReplacePlaceholders: built on the corrected `PathDependentName` (`PathFoldersFixed`). The source calls `generate_path_dependent_filename` for every non-empty file (src/util.py:18-20), so for an absolute file its `run` hangs at the first `concrete_command` (src/process_runner.py:26). The model's `ProcessRunner.ConcreteCommand`, `ProcessRunner.OutputFileName`, `ProcessRunner.RunAll`, `ProcessRunner.ProcessRunner.Run`, `Environment.Environment.RunProcesses` and `Environment.Environment.Exec` return results there instead of modelling the hang.
- ResultProcessor.ResultProcessor.WriterPerConfigFile, ResultProcessor.ResultProcessor.WriteResultFiles and ResultProcessor.WriteConfigTables: write the per-configuration table to `per_config_timing_csv_file_name`, the corrected target; the source writes it to `timing_csv_file_name` (src/result_processor.py:84), which only `ResultProcessor.ReportAsWritten` models.
- `ReportConfig` stands in for the configuration that `src/result_processor.py` reads. Its two extra attributes, the per-configuration and average file names, are not defined in `src/config.py`.
- Only the last write to a `Disk` file counts. Two open handles on the same file have separate offsets in Python, and interleaved writes through them are not modelled.
- The order of the inner dictionaries of `process_timings` is not modelled. The model keeps the order of the outer dictionaries, which the tables depend on.
- A Python writer object is taken to be truthy, so `if self.csv_timings_raw_writer:` tests only whether the writer exists.
- The output files of `run_with_output` are values returned by `Run`. The writer that `src/filewriter.py` gives for them is modelled separately by `WriteStreams`.

## Findings

| source | as written | input that shows it | evidently intended | confidence | as-written member | corrected member |
|---|---|---|---|---|---|---|
| src/util.py:30-37 | the loop exits only when `os.path.split` gives an empty head, and the head of `/` is `/` itself | any absolute path, e.g. `/tmp/test.sil`: the loop never ends | stop at the root too, so that `/s1/.../sn` names `s1_..._sn` | not executed | Util.AbsolutePathNeverExits | Util.RootedPathName |
| src/result_processor.py:84 | the per-configuration table is written to `timing_csv_file_name` | both `timing_csv_file_name` and `per_config_timing_csv_file_name` set: the raw table is overwritten | write it to `per_config_timing_csv_file_name`, the name its writer was opened for at line 31 | not executed | ResultProcessor.AsWrittenLosesRawTable | ResultProcessor.ReportWritesEachTable |

The members below the two lemmas in the table above are these:

- `Util.PathFolders` requires a relative path, and `Util.GeneratePathDependentFilename` keeps the source's loop. `Util.PathFoldersFixed` adds the exit at the root. `Util.PathDependentName`, which the placeholder substitution uses, is built on the corrected loop.
- `ResultProcessor.ReportAsWritten` writes to the raw table's name. `ResultProcessor.Report` and the class `ResultProcessor` write to the per-configuration name.
