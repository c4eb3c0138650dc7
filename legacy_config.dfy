/** The older configuration module: three placeholders, run configurations
    without names, and a `parse_bool` for which `"0"` is true. */
module LegacyConfig {
  import opened Strings
  import opened ConfigSyntax

  const PlaceholderDate: string := "@date@"
  const PlaceholderFile: string := "@file@"
  const PlaceholderRep: string := "@rep@"

  /** `replace_placeholders(string, file_name, repetition, date)`: `@date@`,
      then `@file@`, then `@rep@`, each step rescanning the previous
      output. `rep` is `str(repetition)`; the defaults are `fileName =
      PlaceholderFile` and `rep = PlaceholderRep`. */
  function ReplacePlaceholders(s: string, fileName: string, rep: string, date: string): string
  {
    Replace(Replace(Replace(s, PlaceholderDate, date), PlaceholderFile, fileName),
            PlaceholderRep, rep)
  }

  /** With the default file name and repetition only `@date@` changes. */
  lemma DefaultsReplaceOnlyDate(s: string, date: string)
    ensures ReplacePlaceholders(s, PlaceholderFile, PlaceholderRep, date)
         == Replace(s, PlaceholderDate, date)
  {
    var s1 := Replace(s, PlaceholderDate, date);
    ReplaceSelf(s1, PlaceholderFile);
    ReplaceSelf(s1, PlaceholderRep);
  }

  /** A template without any of the three tokens is returned unchanged. */
  lemma NoPlaceholderUnchanged(s: string, fileName: string, rep: string, date: string)
    requires !Occurs(s, PlaceholderDate) && !Occurs(s, PlaceholderFile)
    requires !Occurs(s, PlaceholderRep)
    ensures ReplacePlaceholders(s, fileName, rep, date) == s
  {
    ReplaceAbsent(s, PlaceholderDate, date);
    ReplaceAbsent(s, PlaceholderFile, fileName);
    ReplaceAbsent(s, PlaceholderRep, rep);
  }

  /** What the reader takes from its surroundings: `os.path.normpath`,
      `int()` on a string (`None` where it raises `ValueError`) and
      `CURR_DATE`. */
  datatype Host = Host(normpath: string -> string, parseInt: string -> Option<int>, date: string)

  datatype Settings = Settings(
    testFolder: string,
    runConfigurations: seq<seq<string>>,
    ignoreList: seq<string>,
    timeout: int,
    repetitions: int,
    listFiles: bool,
    timingCsvFileName: string,
    printOutput: bool)

  /** The values `Config.__init__` assigns. */
  const Defaults: Settings := Settings(
    "../silver/src/test/resources/all",
    [["../carbon/carbon.bat"]],
    [],
    60,
    5,
    false,
    "timings.txt",
    false)

  /** There is a last configuration for `arg` to extend. */
  predicate WellFormed(s: Settings)
  {
    |s.runConfigurations| >= 1
  }

  /** `parse_bool`: `"False"` is false; otherwise Python's truthiness of a
      string, which is false only for `""`. */
  function ParseBool(val: string): bool
  {
    if val == "False" then false else val != ""
  }

  /** For the non-empty arguments the reader passes, `parse_bool` is false
      exactly for `"False"`; in particular `"0"` is true. */
  lemma ParseBoolOnArguments(val: string)
    requires val != ""
    ensures !ParseBool(val) <==> val == "False"
    ensures ParseBool("0") && ParseBool("false")
  {
  }

  /** The options this reader recognises. */
  const KnownOptions: set<string> :=
    {"test_folder", "run_configuration", "ignore", "repetitions", "timeout", "list_files",
     "arg", "timing_csv", "print_process_output"}

  /** Which branch of the `if`/`elif` chain an option text selects; the
      newer `config_name` and `output_file` options are unknown here. */
  function Classify(opt: string): Opt
  {
    if opt == "test_folder" then TestFolder
    else if opt == "run_configuration" then RunConfiguration
    else if opt == "ignore" then Ignore
    else if opt == "repetitions" then Repetitions
    else if opt == "timeout" then Timeout
    else if opt == "list_files" then ListFiles
    else if opt == "arg" then Arg
    else if opt == "timing_csv" then TimingCsv
    else if opt == "print_process_output" then PrintProcessOutput
    else Unknown
  }

  /** Every option this reader knows selects its own branch. */
  lemma ClassifyName(k: Opt)
    requires k != Unknown && k != ConfigName && k != OutputFile
    ensures Classify(OptionName(k)) == k
  {
  }

  /** An option text selects a branch iff it is one of the known names, and
      then the branch is the one of that name. */
  lemma ClassifyKnown(opt: string)
    ensures Classify(opt) == Unknown <==> opt !in KnownOptions
    ensures Classify(opt) != Unknown ==> OptionName(Classify(opt)) == opt
    ensures Classify(opt) != ConfigName && Classify(opt) != OutputFile
  {
  }

  /** The reader's state between lines: the settings and the local flag
      `run_config_override`. */
  datatype Reader = Reader(settings: Settings, override: bool)

  /** One option with its argument, as the `if`/`elif` chain applies it. */
  function Apply(host: Host, r: Reader, d: Directive): (r': Reader)
    requires WellFormed(r.settings)
    ensures WellFormed(r'.settings)
    ensures r'.override == (r.override && Classify(d.opt) != RunConfiguration)
  {
    var s := r.settings;
    var arg := d.arg;
    var n := |s.runConfigurations|;
    match Classify(d.opt)
    case TestFolder => r.(settings := s.(testFolder := arg))
    case RunConfiguration =>
      var cfgs := if r.override then [] else s.runConfigurations;
      Reader(s.(runConfigurations := cfgs + [[host.normpath(arg)]]), false)
    case Ignore => r.(settings := s.(ignoreList := s.ignoreList + [host.normpath(arg)]))
    case Repetitions =>
      (match host.parseInt(arg)
       case Some(k) => r.(settings := s.(repetitions := k))
       case None => r)
    case Timeout =>
      (match host.parseInt(arg)
       case Some(k) => r.(settings := s.(timeout := k))
       case None => r)
    case ListFiles => r.(settings := s.(listFiles := ParseBool(arg)))
    case Arg =>
      var cfgs' := s.runConfigurations[n - 1 := s.runConfigurations[n - 1] + SplitOnce(arg, ' ')];
      r.(settings := s.(runConfigurations := cfgs'))
    case TimingCsv =>
      r.(settings := s.(timingCsvFileName := Replace(arg, PlaceholderDate, host.date)))
    case PrintProcessOutput => r.(settings := s.(printOutput := ParseBool(arg)))
    case ConfigName => r
    case OutputFile => r
    case Unknown => r
  }

  /** One effective line: skipped when it has no argument. */
  function Step(host: Host, r: Reader, line: string): (r': Reader)
    requires WellFormed(r.settings)
    ensures WellFormed(r'.settings)
  {
    match ParseLine(line)
    case None => r
    case Some(d) => Apply(host, r, d)
  }

  /** The effective lines, applied in order. */
  function Steps(host: Host, r: Reader, lines: seq<string>): (r': Reader)
    requires WellFormed(r.settings)
    ensures WellFormed(r'.settings)
    decreases |lines|
  {
    if lines == [] then r
    else Step(host, Steps(host, r, lines[..|lines| - 1]), lines[|lines| - 1])
  }

  /** `read_config_file` on a file with the given lines, or on a file that
      cannot be opened (`None`), which leaves the settings as they are. */
  function ReadLines(host: Host, s: Settings, contents: Option<seq<string>>): (s': Settings)
    requires WellFormed(s)
    ensures WellFormed(s')
  {
    match contents
    case None => s
    case Some(lines) => Steps(host, Reader(s, true), EffectiveLines(lines)).settings
  }

  class Config {
    var testFolder: string
    var runConfigurations: seq<seq<string>>
    var ignoreList: seq<string>
    var timeout: int
    var repetitions: int
    var listFiles: bool
    var timingCsvFileName: string
    var printOutput: bool

    function State(): Settings
      reads this
    {
      Settings(testFolder, runConfigurations, ignoreList, timeout, repetitions, listFiles,
               timingCsvFileName, printOutput)
    }

    predicate Valid()
      reads this
    {
      WellFormed(State())
    }

    /** `Config.__init__`. */
    constructor ()
      ensures State() == Defaults && Valid()
    {
      testFolder := "../silver/src/test/resources/all";
      runConfigurations := [["../carbon/carbon.bat"]];
      ignoreList := [];
      timeout := 60;
      repetitions := 5;
      listFiles := false;
      timingCsvFileName := "timings.txt";
      printOutput := false;
    }

    /** `read_config_file`: filters the lines, then applies them one by one;
        a line without an argument is skipped. */
    method ReadConfigFile(host: Host, contents: Option<seq<string>>)
      requires Valid()
      modifies this
      ensures Valid()
      ensures State() == ReadLines(host, old(State()), contents)
    {
      if contents.None? {
        return;
      }
      var runConfigOverride := true;
      var lines := EffectiveLines(contents.value);
      for i := 0 to |lines|
        invariant Valid()
        invariant Reader(State(), runConfigOverride)
               == Steps(host, Reader(old(State()), true), lines[..i])
      {
        assert lines[..i + 1][..i] == lines[..i];
        var parsed := ParseLine(lines[i]);
        if parsed.None? {
          continue;
        }
        runConfigOverride := ApplyOption(host, parsed.value, runConfigOverride);
      }
      assert lines[..|lines|] == lines;
    }

    /** The body of the loop of `read_config_file` for a line with an
        argument: the `if`/`elif` chain over the option. */
    method ApplyOption(host: Host, d: Directive, runConfigOverride: bool) returns (override: bool)
      requires Valid()
      modifies this
      ensures Valid()
      ensures Reader(State(), override) == Apply(host, Reader(old(State()), runConfigOverride), d)
    {
      override := runConfigOverride;
      var arg := d.arg;
      match Classify(d.opt)
      case TestFolder =>
        testFolder := arg;
      case RunConfiguration =>
        if override {
          override := false;
          runConfigurations := [];
        }
        var currConf := [host.normpath(arg)];
        runConfigurations := runConfigurations + [currConf];
      case Ignore =>
        ignoreList := ignoreList + [host.normpath(arg)];
      case Repetitions =>
        match host.parseInt(arg) {
        case Some(k) => repetitions := k;
        case None =>
        }
      case Timeout =>
        match host.parseInt(arg) {
        case Some(k) => timeout := k;
        case None =>
        }
      case ListFiles =>
        listFiles := ParseBool(arg);
      case Arg =>
        var a := SplitOnce(arg, ' ');
        var idx := |runConfigurations|;
        runConfigurations := runConfigurations[idx - 1 := runConfigurations[idx - 1] + a];
      case TimingCsv =>
        timingCsvFileName := Replace(arg, PlaceholderDate, host.date);
      case PrintProcessOutput =>
        printOutput := ParseBool(arg);
      case ConfigName =>
      case OutputFile =>
      case Unknown =>
    }
  }

  // ---------------------------------------------------------------------
  // Properties of the reader

  /** The number of effective lines that declare a run configuration. */
  function RunConfigurationLines(lines: seq<string>): (n: nat)
    ensures n <= |lines|
  {
    if lines == [] then 0
    else
      var d := ParseLine(lines[|lines| - 1]);
      RunConfigurationLines(lines[..|lines| - 1])
        + (if d.Some? && Classify(d.value.opt) == RunConfiguration then 1 else 0)
  }

  lemma ApplyCount(host: Host, r: Reader, d: Directive)
    requires WellFormed(r.settings)
    ensures |Apply(host, r, d).settings.runConfigurations|
            == if Classify(d.opt) != RunConfiguration then |r.settings.runConfigurations|
               else if r.override then 1 else |r.settings.runConfigurations| + 1
  {
  }

  lemma StepCount(host: Host, r: Reader, line: string)
    requires WellFormed(r.settings)
    ensures var d := ParseLine(line);
            var declares := d.Some? && Classify(d.value.opt) == RunConfiguration;
            && Step(host, r, line).override == (r.override && !declares)
            && |Step(host, r, line).settings.runConfigurations|
               == if !declares then |r.settings.runConfigurations|
                  else if r.override then 1 else |r.settings.runConfigurations| + 1
  {
    match ParseLine(line)
    case None =>
    case Some(d) => ApplyCount(host, r, d);
  }

  /** The default configuration stays until the first `run_configuration`
      line; from then on there is one configuration per such line. */
  lemma {:induction false} ConfigurationCount(host: Host, r: Reader, lines: seq<string>)
    requires WellFormed(r.settings)
    ensures Steps(host, r, lines).override == (r.override && RunConfigurationLines(lines) == 0)
    ensures |Steps(host, r, lines).settings.runConfigurations|
         == if r.override && RunConfigurationLines(lines) > 0 then RunConfigurationLines(lines)
            else |r.settings.runConfigurations| + RunConfigurationLines(lines)
    decreases |lines|
  {
    if lines != [] {
      ConfigurationCount(host, r, lines[..|lines| - 1]);
      StepCount(host, Steps(host, r, lines[..|lines| - 1]), lines[|lines| - 1]);
    }
  }

  /** The first `run_configuration` clears the default list; every one
      appends the one-element command `[normpath(arg)]`. */
  lemma RunConfigurationAppends(host: Host, r: Reader, arg: string)
    requires WellFormed(r.settings)
    ensures var r' := Apply(host, r, Directive(OptionName(RunConfiguration), arg));
            var cfgs := r'.settings.runConfigurations;
            && cfgs == (if r.override then [] else r.settings.runConfigurations)
                       + [[host.normpath(arg)]]
            && r'.settings.(runConfigurations := r.settings.runConfigurations) == r.settings
            && !r'.override
  {
    ClassifyName(RunConfiguration);
  }

  /** `arg` splits its value at the first space and extends the last
      configuration only, the default one if none was declared. */
  lemma ArgExtendsLast(host: Host, r: Reader, arg: string)
    requires WellFormed(r.settings)
    ensures var r' := Apply(host, r, Directive(OptionName(Arg), arg));
            var cfgs := r.settings.runConfigurations;
            var n := |cfgs|;
            && |r'.settings.runConfigurations| == n
            && r'.settings.runConfigurations[..n - 1] == cfgs[..n - 1]
            && r'.settings.runConfigurations[n - 1] == cfgs[n - 1] + SplitOnce(arg, ' ')
            && r'.settings.(runConfigurations := cfgs) == r.settings
            && r'.override == r.override
  {
    ClassifyName(Arg);
  }

  /** An option the reader does not know changes nothing; among them are
      `config_name` and `output_file`. */
  lemma UnknownOptionIgnored(host: Host, r: Reader, d: Directive)
    requires WellFormed(r.settings) && d.opt !in KnownOptions
    ensures Apply(host, r, d) == r
  {
    ClassifyKnown(d.opt);
  }

  lemma NewerOptionsUnknown()
    ensures "config_name" !in KnownOptions && "output_file" !in KnownOptions
  {
    assert "config_name"[0] == 'c' && "output_file"[0] == 'o';
    assert |"config_name"| == 11 && |"output_file"| == 11;
  }

  /** A line without an argument changes nothing. */
  lemma MissingArgumentIgnored(host: Host, r: Reader, line: string)
    requires WellFormed(r.settings) && ' ' !in line
    ensures Step(host, r, line) == r
  {
    ParseLineSplitsAtFirstSpace(line);
  }

  /** A repetition count or timeout that `int()` rejects keeps the
      previous value. */
  lemma UnparseableNumberKept(host: Host, r: Reader, arg: string)
    requires WellFormed(r.settings) && host.parseInt(arg).None?
    ensures Apply(host, r, Directive(OptionName(Repetitions), arg)) == r
    ensures Apply(host, r, Directive(OptionName(Timeout), arg)) == r
  {
    ClassifyName(Repetitions);
    ClassifyName(Timeout);
  }

  /** `timing_csv` replaces `@date@` by the date and nothing else: the same
      as the three-token substitution with its default file and repetition. */
  lemma TimingCsvReplacesOnlyDate(host: Host, r: Reader, arg: string)
    requires WellFormed(r.settings)
    ensures Apply(host, r, Directive(OptionName(TimingCsv), arg)).settings.timingCsvFileName
         == ReplacePlaceholders(arg, PlaceholderFile, PlaceholderRep, host.date)
  {
    ClassifyName(TimingCsv);
    DefaultsReplaceOnlyDate(arg, host.date);
  }

  /** A line whose raw text starts with '#' can be deleted from a
      configuration file without changing what is read. */
  lemma CommentLinesIgnored(host: Host, s: Settings, a: seq<string>, comment: string, b: seq<string>)
    requires WellFormed(s) && StartsWith(comment, "#")
    ensures ReadLines(host, s, Some(a + [comment] + b)) == ReadLines(host, s, Some(a + b))
  {
    CommentIgnored(a, comment, b);
    EffectiveLinesConcat(a, b);
  }
}
