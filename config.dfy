/** The benchmark configuration: its defaults and the line-oriented
    configuration-file reader, which keeps a list of run configurations
    (commands) and a parallel list of their names. */
module Config {
  import opened Strings
  import opened Util
  import opened ConfigSyntax

  /** What the reader takes from its surroundings: `os.path.normpath`,
      `int()` on a string (`None` where it raises `ValueError`) and the
      start-up date that replaces `@date@`. */
  datatype Host = Host(normpath: string -> string, parseInt: string -> Option<int>, date: string)

  /** The configuration's fields, as a value. */
  datatype Settings = Settings(
    testFolder: string,
    runConfigurations: seq<seq<string>>,
    runConfigNames: seq<string>,
    ignoreList: seq<string>,
    timeout: int,
    repetitions: int,
    listFiles: bool,
    timingCsvFileName: string,
    printOutput: bool,
    outputFileName: string)

  /** The values `Config.__init__` assigns. */
  const Defaults: Settings := Settings(
    "../silver/src/test/resources/all",
    [["../carbon/carbon.bat"]],
    ["Default"],
    [],
    60,
    5,
    false,
    "timings.txt",
    false,
    "")

  /** Every run configuration has exactly one name, and there is at least
      one configuration. */
  predicate WellFormed(s: Settings)
  {
    |s.runConfigurations| == |s.runConfigNames| >= 1
  }

  /** `parse_bool`: `"False"` and `"0"` are false; otherwise Python's
      truthiness of a string, which is false only for `""`. */
  function ParseBool(val: string): bool
  {
    if val == "False" || val == "0" then false else val != ""
  }

  /** For the non-empty arguments the reader passes, `parse_bool` is false
      exactly for `"False"` and `"0"`. */
  lemma ParseBoolOnArguments(val: string)
    requires val != ""
    ensures !ParseBool(val) <==> val == "False" || val == "0"
    ensures ParseBool("1") && ParseBool("True") && ParseBool("false")
  {
  }

  /** The options this reader recognises. */
  const KnownOptions: set<string> :=
    {"test_folder", "run_configuration", "ignore", "repetitions", "timeout", "list_files",
     "arg", "config_name", "timing_csv", "print_process_output", "output_file"}

  /** Which branch of the `if`/`elif` chain an option text selects. */
  function Classify(opt: string): Opt
  {
    if opt == "test_folder" then TestFolder
    else if opt == "run_configuration" then RunConfiguration
    else if opt == "ignore" then Ignore
    else if opt == "repetitions" then Repetitions
    else if opt == "timeout" then Timeout
    else if opt == "list_files" then ListFiles
    else if opt == "arg" then Arg
    else if opt == "config_name" then ConfigName
    else if opt == "timing_csv" then TimingCsv
    else if opt == "print_process_output" then PrintProcessOutput
    else if opt == "output_file" then OutputFile
    else Unknown
  }

  /** Every option this reader knows selects its own branch. */
  lemma ClassifyName(k: Opt)
    requires k != Unknown
    ensures Classify(OptionName(k)) == k
  {
  }

  /** An option text selects a branch iff it is one of the known names, and
      then the branch is the one of that name. */
  lemma ClassifyKnown(opt: string)
    ensures Classify(opt) == Unknown <==> opt !in KnownOptions
    ensures Classify(opt) != Unknown ==> OptionName(Classify(opt)) == opt
  {
  }

  /** The reader's state between lines: the settings and the local flag
      `run_config_override`, true until the first `run_configuration`. */
  datatype Reader = Reader(settings: Settings, override: bool)

  /** One option with its argument, as the `if`/`elif` chain applies it. */
  function Apply(host: Host, r: Reader, d: Directive): (r': Reader)
    requires WellFormed(r.settings)
    ensures WellFormed(r'.settings)
    ensures r'.override == (r.override && Classify(d.opt) != RunConfiguration)
  {
    var s := r.settings;
    var arg := d.arg;
    var n := |s.runConfigurations|;
    match Classify(d.opt)
    case TestFolder => r.(settings := s.(testFolder := arg))
    case RunConfiguration =>
      var cfgs := if r.override then [] else s.runConfigurations;
      var names := if r.override then [] else s.runConfigNames;
      var cfgs' := cfgs + [[host.normpath(arg)]];
      Reader(s.(runConfigurations := cfgs',
                runConfigNames := names + ["run_config_" + NatToString(|cfgs'|)]), false)
    case Ignore => r.(settings := s.(ignoreList := s.ignoreList + [host.normpath(arg)]))
    case Repetitions =>
      (match host.parseInt(arg)
       case Some(k) => r.(settings := s.(repetitions := k))
       case None => r)
    case Timeout =>
      (match host.parseInt(arg)
       case Some(k) => r.(settings := s.(timeout := k))
       case None => r)
    case ListFiles => r.(settings := s.(listFiles := ParseBool(arg)))
    case Arg =>
      var cfgs' := s.runConfigurations[n - 1 := s.runConfigurations[n - 1] + SplitOnce(arg, ' ')];
      r.(settings := s.(runConfigurations := cfgs'))
    case ConfigName => r.(settings := s.(runConfigNames := s.runConfigNames[n - 1 := arg]))
    case TimingCsv =>
      var name := ReplacePlaceholders(arg, "", PlaceholderRep, host.date, PlaceholderConfigName);
      r.(settings := s.(timingCsvFileName := name))
    case PrintProcessOutput => r.(settings := s.(printOutput := ParseBool(arg)))
    case OutputFile => r.(settings := s.(outputFileName := arg))
    case Unknown => r
  }

  /** One effective line: skipped when it has no argument. */
  function Step(host: Host, r: Reader, line: string): (r': Reader)
    requires WellFormed(r.settings)
    ensures WellFormed(r'.settings)
  {
    match ParseLine(line)
    case None => r
    case Some(d) => Apply(host, r, d)
  }

  /** The effective lines, applied in order. */
  function Steps(host: Host, r: Reader, lines: seq<string>): (r': Reader)
    requires WellFormed(r.settings)
    ensures WellFormed(r'.settings)
    decreases |lines|
  {
    if lines == [] then r
    else Step(host, Steps(host, r, lines[..|lines| - 1]), lines[|lines| - 1])
  }

  /** Applying the first `i + 1` lines is applying line `i` after the
      first `i`. */
  lemma StepsSnoc(host: Host, r: Reader, lines: seq<string>, i: nat)
    requires WellFormed(r.settings) && i < |lines|
    ensures Steps(host, r, lines[..i + 1]) == Step(host, Steps(host, r, lines[..i]), lines[i])
  {
    assert lines[..i + 1][..i] == lines[..i];
  }

  /** `read_config_file` on a file with the given lines, or on a file that
      cannot be opened (`None`), which leaves the settings as they are. */
  function ReadLines(host: Host, s: Settings, contents: Option<seq<string>>): (s': Settings)
    requires WellFormed(s)
    ensures WellFormed(s')
  {
    match contents
    case None => s
    case Some(lines) => Steps(host, Reader(s, true), EffectiveLines(lines)).settings
  }

  class Config {
    var testFolder: string
    var runConfigurations: seq<seq<string>>
    var runConfigNames: seq<string>
    var ignoreList: seq<string>
    var timeout: int
    var repetitions: int
    var listFiles: bool
    var timingCsvFileName: string
    var printOutput: bool
    var outputFileName: string

    function State(): Settings
      reads this
    {
      Settings(testFolder, runConfigurations, runConfigNames, ignoreList, timeout,
               repetitions, listFiles, timingCsvFileName, printOutput, outputFileName)
    }

    predicate Valid()
      reads this
    {
      WellFormed(State())
    }

    /** `Config.__init__`. */
    constructor ()
      ensures State() == Defaults && Valid()
    {
      testFolder := "../silver/src/test/resources/all";
      runConfigurations := [["../carbon/carbon.bat"]];
      runConfigNames := ["Default"];
      ignoreList := [];
      timeout := 60;
      repetitions := 5;
      listFiles := false;
      timingCsvFileName := "timings.txt";
      printOutput := false;
      outputFileName := "";
    }

    /** `read_config_file`: filters the lines, then applies them one by one;
        a line without an argument is skipped. */
    method ReadConfigFile(host: Host, contents: Option<seq<string>>)
      requires Valid()
      modifies this
      ensures Valid()
      ensures State() == ReadLines(host, old(State()), contents)
    {
      if contents.None? {
        return;
      }
      var runConfigOverride := true;
      var lines := EffectiveLines(contents.value);
      for i := 0 to |lines|
        invariant Valid()
        invariant Reader(State(), runConfigOverride)
               == Steps(host, Reader(old(State()), true), lines[..i])
      {
        StepsSnoc(host, Reader(old(State()), true), lines, i);
        var parsed := ParseLine(lines[i]);
        if parsed.None? {
          continue;
        }
        runConfigOverride := ApplyOption(host, parsed.value, runConfigOverride);
      }
      assert lines[..|lines|] == lines;
    }

    /** The body of the loop of `read_config_file` for a line with an
        argument: the `if`/`elif` chain over the option. */
    method ApplyOption(host: Host, d: Directive, runConfigOverride: bool) returns (override: bool)
      requires Valid()
      modifies this
      ensures Valid()
      ensures Reader(State(), override) == Apply(host, Reader(old(State()), runConfigOverride), d)
    {
      override := runConfigOverride;
      var arg := d.arg;
      match Classify(d.opt)
      case TestFolder =>
        testFolder := arg;
      case RunConfiguration =>
        if override {
          override := false;
          runConfigurations := [];
          runConfigNames := [];
        }
        var currConf := [host.normpath(arg)];
        runConfigurations := runConfigurations + [currConf];
        runConfigNames := runConfigNames + ["run_config_" + NatToString(|runConfigurations|)];
      case Ignore =>
        ignoreList := ignoreList + [host.normpath(arg)];
      case Repetitions =>
        match host.parseInt(arg) {
        case Some(k) => repetitions := k;
        case None =>
        }
      case Timeout =>
        match host.parseInt(arg) {
        case Some(k) => timeout := k;
        case None =>
        }
      case ListFiles =>
        listFiles := ParseBool(arg);
      case Arg =>
        var a := SplitOnce(arg, ' ');
        var idx := |runConfigurations|;
        runConfigurations := runConfigurations[idx - 1 := runConfigurations[idx - 1] + a];
      case ConfigName =>
        var idx := |runConfigurations|;
        runConfigNames := runConfigNames[idx - 1 := arg];
      case TimingCsv =>
        timingCsvFileName := ReplacePlaceholders(arg, "", PlaceholderRep, host.date, PlaceholderConfigName);
      case PrintProcessOutput =>
        printOutput := ParseBool(arg);
      case OutputFile =>
        outputFileName := arg;
      case Unknown =>
    }
  }

  // ---------------------------------------------------------------------
  // Properties of the reader

  /** The number of effective lines that declare a run configuration. */
  function RunConfigurationLines(lines: seq<string>): (n: nat)
    ensures n <= |lines|
  {
    if lines == [] then 0
    else
      var last := lines[|lines| - 1];
      var d := ParseLine(last);
      RunConfigurationLines(lines[..|lines| - 1])
        + (if d.Some? && Classify(d.value.opt) == RunConfiguration then 1 else 0)
  }

  /** One line adds a configuration iff it declares one; the first such
      line replaces the defaults. */
  lemma StepCount(host: Host, r: Reader, line: string)
    requires WellFormed(r.settings)
    ensures var d := ParseLine(line);
            var declares := d.Some? && Classify(d.value.opt) == RunConfiguration;
            && Step(host, r, line).override == (r.override && !declares)
            && |Step(host, r, line).settings.runConfigurations|
               == if !declares then |r.settings.runConfigurations|
                  else if r.override then 1 else |r.settings.runConfigurations| + 1
  {
    match ParseLine(line)
    case None =>
    case Some(d) => ApplyCount(host, r, d);
  }

  lemma ApplyCount(host: Host, r: Reader, d: Directive)
    requires WellFormed(r.settings)
    ensures |Apply(host, r, d).settings.runConfigurations|
            == if Classify(d.opt) != RunConfiguration then |r.settings.runConfigurations|
               else if r.override then 1 else |r.settings.runConfigurations| + 1
  {
  }

  /** The defaults stay until the first `run_configuration`; from then on
      there is one configuration per `run_configuration` line, and the
      override flag is down exactly when such a line has been seen. */
  lemma {:induction false} ConfigurationCount(host: Host, r: Reader, lines: seq<string>)
    requires WellFormed(r.settings)
    ensures Steps(host, r, lines).override == (r.override && RunConfigurationLines(lines) == 0)
    ensures |Steps(host, r, lines).settings.runConfigurations|
         == if r.override && RunConfigurationLines(lines) > 0 then RunConfigurationLines(lines)
            else |r.settings.runConfigurations| + RunConfigurationLines(lines)
    decreases |lines|
  {
    if lines != [] {
      ConfigurationCount(host, r, lines[..|lines| - 1]);
      StepCount(host, Steps(host, r, lines[..|lines| - 1]), lines[|lines| - 1]);
    }
  }

  /** Reading a file whose lines declare k >= 1 run configurations leaves
      exactly k configurations and k names; the defaults are cleared once. */
  lemma FileConfigurationCount(host: Host, s: Settings, lines: seq<string>)
    requires WellFormed(s)
    requires RunConfigurationLines(EffectiveLines(lines)) > 0
    ensures |ReadLines(host, s, Some(lines)).runConfigurations|
         == |ReadLines(host, s, Some(lines)).runConfigNames|
         == RunConfigurationLines(EffectiveLines(lines))
  {
    ConfigurationCount(host, Reader(s, true), EffectiveLines(lines));
  }

  /** `after` keeps every configuration and name of `before` except the
      last one, and has at least as many configurations. */
  predicate KeepsEarlier(before: Settings, after: Settings)
    requires WellFormed(before) && WellFormed(after)
  {
    var n := |before.runConfigurations| - 1;
    && |after.runConfigurations| >= n + 1
    && after.runConfigurations[..n] == before.runConfigurations[..n]
    && after.runConfigNames[..n] == before.runConfigNames[..n]
  }

  lemma KeepsEarlierTransitive(a: Settings, b: Settings, c: Settings)
    requires WellFormed(a) && WellFormed(b) && WellFormed(c)
    requires KeepsEarlier(a, b) && KeepsEarlier(b, c)
    ensures KeepsEarlier(a, c)
  {
    var n := |a.runConfigurations| - 1;
    var m := |b.runConfigurations| - 1;
    PrefixTransitive(c.runConfigurations, b.runConfigurations, a.runConfigurations, n, m);
    PrefixTransitive(c.runConfigNames, b.runConfigNames, a.runConfigNames, n, m);
  }

  /** After the override, one option keeps every configuration and name
      before the last one and never shortens the lists. */
  lemma ApplyKeepsEarlier(host: Host, r: Reader, d: Directive)
    requires WellFormed(r.settings) && !r.override
    ensures KeepsEarlier(r.settings, Apply(host, r, d).settings)
  {
    var cfgs := r.settings.runConfigurations;
    var names := r.settings.runConfigNames;
    if Classify(d.opt) == RunConfiguration {
      assert (cfgs + [[host.normpath(d.arg)]])[..|cfgs| - 1] == cfgs[..|cfgs| - 1];
      var name := "run_config_" + NatToString(|cfgs| + 1);
      assert (names + [name])[..|names| - 1] == names[..|names| - 1];
    }
  }

  lemma StepKeepsEarlier(host: Host, r: Reader, line: string)
    requires WellFormed(r.settings) && !r.override
    ensures !Step(host, r, line).override
    ensures KeepsEarlier(r.settings, Step(host, r, line).settings)
  {
    match ParseLine(line)
    case None =>
    case Some(d) => ApplyKeepsEarlier(host, r, d);
  }

  /** After the override, no line drops or rewrites an earlier
      configuration or its name: everything before the current last entry
      is kept, and the lists only grow. */
  lemma {:induction false} EarlierConfigurationsKept(host: Host, r: Reader, lines: seq<string>)
    requires WellFormed(r.settings) && !r.override
    ensures !Steps(host, r, lines).override
    ensures KeepsEarlier(r.settings, Steps(host, r, lines).settings)
    decreases |lines|
  {
    if lines != [] {
      var mid := Steps(host, r, lines[..|lines| - 1]);
      EarlierConfigurationsKept(host, r, lines[..|lines| - 1]);
      StepKeepsEarlier(host, mid, lines[|lines| - 1]);
      KeepsEarlierTransitive(r.settings, mid.settings, Step(host, mid, lines[|lines| - 1]).settings);
    }
  }

  /** Agreement on a longer prefix implies agreement on a shorter one. */
  lemma PrefixTransitive<T>(x: seq<T>, y: seq<T>, z: seq<T>, n: nat, m: nat)
    requires n <= m <= |x| && m <= |y| && n <= |z|
    requires x[..m] == y[..m] && y[..n] == z[..n]
    ensures x[..n] == z[..n]
  {
    assert x[..m][..n] == x[..n];
    assert y[..m][..n] == y[..n];
  }

  /** The name `read_config_file` gives the k-th run configuration. */
  function NumberedName(k: nat): string
  {
    "run_config_" + NatToString(k)
  }

  /** Every configuration carries the name of its 1-based position. */
  predicate Numbered(s: Settings)
  {
    forall k :: 0 <= k < |s.runConfigNames| ==> s.runConfigNames[k] == NumberedName(k + 1)
  }

  /** Either the defaults are still in place, or the names are numbered. */
  predicate NumberedOrDefault(r: Reader)
  {
    r.override || Numbered(r.settings)
  }

  /** The number of effective lines that rename a configuration. */
  function RenameLines(lines: seq<string>): (n: nat)
    ensures n <= |lines|
  {
    if lines == [] then 0
    else
      var d := ParseLine(lines[|lines| - 1]);
      RenameLines(lines[..|lines| - 1])
        + (if d.Some? && Classify(d.value.opt) == ConfigName then 1 else 0)
  }

  lemma ApplyKeepsNumbered(host: Host, r: Reader, d: Directive)
    requires WellFormed(r.settings) && NumberedOrDefault(r)
    requires Classify(d.opt) != ConfigName
    ensures NumberedOrDefault(Apply(host, r, d))
  {
    if Classify(d.opt) == RunConfiguration {
      var r' := Apply(host, r, d);
      var names := r'.settings.runConfigNames;
      assert names[|names| - 1] == NumberedName(|names|);
      assert forall k :: 0 <= k < |names| - 1 ==> names[k] == r.settings.runConfigNames[k];
    }
  }

  lemma StepKeepsNumbered(host: Host, r: Reader, line: string)
    requires WellFormed(r.settings) && NumberedOrDefault(r)
    requires RenameLines([line]) == 0
    ensures NumberedOrDefault(Step(host, r, line))
  {
    assert [line][..0] == [];
    match ParseLine(line)
    case None =>
    case Some(d) => ApplyKeepsNumbered(host, r, d);
  }

  lemma {:induction false} StepsKeepNumbered(host: Host, r: Reader, lines: seq<string>)
    requires WellFormed(r.settings) && NumberedOrDefault(r)
    requires RenameLines(lines) == 0
    ensures NumberedOrDefault(Steps(host, r, lines))
    decreases |lines|
  {
    if lines != [] {
      var init := lines[..|lines| - 1];
      var last := lines[|lines| - 1];
      assert [last][..0] == [];
      assert RenameLines([last]) == RenameLines(lines) - RenameLines(init);
      StepsKeepNumbered(host, r, init);
      StepKeepsNumbered(host, Steps(host, r, init), last);
    }
  }

  /** In a file that declares run configurations and renames none of them,
      the k-th configuration is named `run_config_k`. */
  lemma NamesNumbered(host: Host, s: Settings, lines: seq<string>)
    requires WellFormed(s)
    requires RunConfigurationLines(EffectiveLines(lines)) > 0
    requires RenameLines(EffectiveLines(lines)) == 0
    ensures Numbered(ReadLines(host, s, Some(lines)))
  {
    var eff := EffectiveLines(lines);
    ConfigurationCount(host, Reader(s, true), eff);
    StepsKeepNumbered(host, Reader(s, true), eff);
  }

  /** `run_configuration`: the first one replaces the defaults by a single
      configuration; later ones append. Either way the new configuration
      is the one-element command `[normpath(arg)]`, named `run_config_k`
      for its 1-based position k, and nothing else changes. */
  lemma RunConfigurationAppends(host: Host, r: Reader, arg: string)
    requires WellFormed(r.settings)
    ensures var r' := Apply(host, r, Directive(OptionName(RunConfiguration), arg));
            var cfgs := r'.settings.runConfigurations;
            var k := |cfgs|;
            && cfgs[k - 1] == [host.normpath(arg)]
            && r'.settings.runConfigNames[k - 1] == NumberedName(k)
            && (r.override ==> k == 1)
            && (!r.override ==>
                  cfgs[..k - 1] == r.settings.runConfigurations
                  && r'.settings.runConfigNames[..k - 1] == r.settings.runConfigNames)
            && r'.settings.(runConfigurations := r.settings.runConfigurations,
                            runConfigNames := r.settings.runConfigNames) == r.settings
  {
    ClassifyName(RunConfiguration);
  }

  /** `arg` splits its value at the first space and extends the last
      configuration only; names and all other settings stay. */
  lemma ArgExtendsLast(host: Host, r: Reader, arg: string)
    requires WellFormed(r.settings)
    ensures var r' := Apply(host, r, Directive(OptionName(Arg), arg));
            var cfgs := r.settings.runConfigurations;
            var n := |cfgs|;
            && |r'.settings.runConfigurations| == n
            && r'.settings.runConfigurations[..n - 1] == cfgs[..n - 1]
            && r'.settings.runConfigurations[n - 1] == cfgs[n - 1] + SplitOnce(arg, ' ')
            && r'.settings.(runConfigurations := cfgs) == r.settings
            && r'.override == r.override
  {
    ClassifyName(Arg);
  }

  /** `config_name` renames the last configuration only, and the number of
      names stays the same. */
  lemma ConfigNameRenamesLast(host: Host, r: Reader, name: string)
    requires WellFormed(r.settings)
    ensures var r' := Apply(host, r, Directive(OptionName(ConfigName), name));
            var names := r.settings.runConfigNames;
            var n := |names|;
            && |r'.settings.runConfigNames| == n
            && r'.settings.runConfigNames[..n - 1] == names[..n - 1]
            && r'.settings.runConfigNames[n - 1] == name
            && r'.settings.(runConfigNames := names) == r.settings
  {
    ClassifyName(ConfigName);
  }

  /** An option the reader does not know changes nothing. */
  lemma UnknownOptionIgnored(host: Host, r: Reader, d: Directive)
    requires WellFormed(r.settings) && d.opt !in KnownOptions
    ensures Apply(host, r, d) == r
  {
    ClassifyKnown(d.opt);
  }

  /** A line without an argument changes nothing. */
  lemma MissingArgumentIgnored(host: Host, r: Reader, line: string)
    requires WellFormed(r.settings) && ' ' !in line
    ensures Step(host, r, line) == r
  {
    ParseLineSplitsAtFirstSpace(line);
  }

  /** A repetition count or timeout that `int()` rejects keeps the
      previous value. */
  lemma UnparseableNumberKept(host: Host, r: Reader, arg: string)
    requires WellFormed(r.settings) && host.parseInt(arg).None?
    ensures Apply(host, r, Directive(OptionName(Repetitions), arg)) == r
    ensures Apply(host, r, Directive(OptionName(Timeout), arg)) == r
  {
    ClassifyName(Repetitions);
    ClassifyName(Timeout);
  }

  /** `timing_csv` goes through the placeholder substitution with every
      default argument, so only `@date@` is replaced. */
  lemma TimingCsvReplacesOnlyDate(host: Host, r: Reader, arg: string)
    requires WellFormed(r.settings)
    ensures Apply(host, r, Directive(OptionName(TimingCsv), arg)).settings.timingCsvFileName
         == Replace(arg, PlaceholderDate, host.date)
  {
    ClassifyName(TimingCsv);
    DefaultsReplaceOnlyDate(arg, host.date);
  }

  /** A line whose raw text starts with '#' can be deleted from a
      configuration file without changing what is read. */
  lemma CommentLinesIgnored(host: Host, s: Settings, a: seq<string>, comment: string, b: seq<string>)
    requires WellFormed(s) && StartsWith(comment, "#")
    ensures ReadLines(host, s, Some(a + [comment] + b)) == ReadLines(host, s, Some(a + b))
  {
    CommentIgnored(a, comment, b);
    EffectiveLinesConcat(a, b);
  }
}
