/** The repetition runner: runs one benchmark command on one input file
    `repetitions` times and records, for each repetition, the elapsed time
    and how the process ended. The subprocess itself is an `Executor`
    given as a parameter. */
module ProcessRunner {
  import opened Strings
  import opened Util
  import opened Config
  import FileWriter

  /** How one invocation of the benchmarked process ends. `Failed` is the
      `CalledProcessError` a nonzero exit raises; `NotLaunched` stands for
      every other exception, such as a missing executable. */
  datatype Outcome =
    | Completed(elapsed: real, stdout: string, stderr: string)
    | TimedOut
    | Failed(returnCode: int)
    | NotLaunched

  /** The subprocess call: the concrete command and the repetition index
      determine the outcome. */
  type Executor = (seq<string>, nat) -> Outcome

  /** One entry of the list `run` returns: the elapsed time and the exit
      condition. */
  datatype Timing = Timing(elapsed: real, exitCondition: string)

  /** A file written during the runs: its name and its final text. */
  datatype OutputFile = OutputFile(name: string, text: string)

  /** A runner's fixed data: its command (the file already appended), the
      input file, the configuration name and the configuration. */
  datatype Job = Job(command: seq<string>, file: string, configName: string, config: Settings)

  // ---------------------------------------------------------------------
  // The command of one repetition

  /** The command of repetition `rep`: every element with its placeholders
      replaced for this file, repetition and configuration name. */
  function ConcreteCommand(command: seq<string>, file: string, rep: nat, date: string,
                           configName: string): (c: seq<string>)
  {
    seq(|command|, k requires 0 <= k < |command| =>
      ReplacePlaceholders(command[k], file, NatToString(rep), date, configName))
  }

  /** The runner's command is the configuration's command with the file
      appended; every concrete command has one element more than the
      configuration's, and ends with the file itself when the file name
      carries no placeholder. */
  lemma ConcreteCommandShape(cmd: seq<string>, file: string, rep: nat, date: string, configName: string)
    ensures |ConcreteCommand(cmd + [file], file, rep, date, configName)| == |cmd| + 1
    ensures forall k :: 0 <= k < |cmd| ==>
              ConcreteCommand(cmd + [file], file, rep, date, configName)[k]
              == ReplacePlaceholders(cmd[k], file, NatToString(rep), date, configName)
    ensures !Occurs(file, PlaceholderDate) && !Occurs(file, PlaceholderFileName)
            && !Occurs(file, PlaceholderRep) && !Occurs(file, PlaceholderPathDependentFileName)
            && !Occurs(file, PlaceholderConfigName)
            ==> ConcreteCommand(cmd + [file], file, rep, date, configName)[|cmd|] == file
  {
    var c := ConcreteCommand(cmd + [file], file, rep, date, configName);
    assert (cmd + [file])[|cmd|] == file;
    if !Occurs(file, PlaceholderDate) && !Occurs(file, PlaceholderFileName)
       && !Occurs(file, PlaceholderRep) && !Occurs(file, PlaceholderPathDependentFileName)
       && !Occurs(file, PlaceholderConfigName) {
      NoPlaceholderUnchanged(file, file, NatToString(rep), date, configName);
    }
  }

  /** A command element that is just the repetition token becomes the
      zero-based repetition index. */
  lemma RepTokenIsIndex(file: string, rep: nat, date: string, configName: string)
    ensures ReplacePlaceholders(PlaceholderRep, file, NatToString(rep), date, configName) == NatToString(rep)
  {
    var digits := NatToString(rep);
    NotOccursInShorter(PlaceholderRep, PlaceholderDate);
    ReplaceAbsent(PlaceholderRep, PlaceholderDate, date);
    var fileName := if file != "" then Basename(file) else PlaceholderFileName;
    var pathName := if file != "" then PathDependentName(file) else PlaceholderPathDependentFileName;
    NotOccursInShorter(PlaceholderRep, PlaceholderFileName);
    ReplaceAbsent(PlaceholderRep, PlaceholderFileName, fileName);
    ReplaceWhole(PlaceholderRep, digits);
    NotOccursByChar(digits, PlaceholderPathDependentFileName, 0);
    ReplaceAbsent(digits, PlaceholderPathDependentFileName, pathName);
    NotOccursByChar(digits, PlaceholderConfigName, 0);
    ReplaceAbsent(digits, PlaceholderConfigName, configName);
  }

  // ---------------------------------------------------------------------
  // Outcomes and exit conditions

  /** What `run` records for an outcome: the elapsed time and "0" on
      success, the configured timeout and "timeout" when the process was
      killed, -1 and the return code when it failed. */
  function ExitTiming(o: Outcome, timeout: int): Timing
    requires !o.NotLaunched?
  {
    match o
    case Completed(elapsed, _, _) => Timing(elapsed, "0")
    case TimedOut => Timing(timeout as real, "timeout")
    case Failed(code) => Timing(-1.0, IntToString(code))
  }

  /** How an exit condition reads. */
  datatype ExitKind = Success | Timeout | NonZero(code: int) | Unreadable

  /** Reading an exit condition back: "0", "timeout" or a return code. */
  function ReadExitCondition(s: string): ExitKind
  {
    if s == "0" then Success
    else if s == "timeout" then Timeout
    else match ParseDecimal(s)
      case Some(code) => NonZero(code)
      case None => Unreadable
  }

  /** The exit condition tells the three recorded outcomes apart and gives
      back the return code of a failure (which is nonzero, as only a
      nonzero exit raises). */
  lemma ExitConditionReadBack(o: Outcome, timeout: int)
    requires !o.NotLaunched?
    requires o.Failed? ==> o.returnCode != 0
    ensures ReadExitCondition(ExitTiming(o, timeout).exitCondition)
         == match o
            case Completed(_, _, _) => Success
            case TimedOut => Timeout
            case Failed(code) => NonZero(code)
    ensures o.TimedOut? ==> ExitTiming(o, timeout).elapsed == timeout as real
    ensures o.Failed? ==> ExitTiming(o, timeout).elapsed == -1.0
    ensures o.Completed? ==> ExitTiming(o, timeout).elapsed == o.elapsed
  {
    if o.Failed? {
      var s := IntToString(o.returnCode);
      IntToStringRoundTrip(o.returnCode);
      assert "0"[..0] == [];
      assert ParseDecimal("0") == Some(0);
      assert !('0' <= "timeout"[0] <= '9');
    }
  }

  // ---------------------------------------------------------------------
  // Output files

  /** What precedes the standard output in an output file: an empty
      line, "Stdout:", an empty line. */
  const StdoutFrame := "\nStdout:\n\n"

  /** What precedes the standard error: an empty line, "Stderr:", an
      empty line. */
  const StderrFrame := "\nStderr:\n\n"

  /** The text of a captured run's output file: the framed standard output
      as it is, then the framed standard error. */
  function OutputText(stdout: string, stderr: string): string
  {
    StdoutFrame + stdout + StderrFrame + stderr
  }

  /** Text followed by the framed streams piece by piece is that text
      followed by the output text. */
  lemma OutputTextAfter(before: string, stdout: string, stderr: string)
    ensures before + StdoutFrame + stdout + StderrFrame + stderr == before + OutputText(stdout, stderr)
  {
  }

  /** Four consecutive pieces can be cut back out of their concatenation. */
  lemma CutFour<T>(a: seq<T>, b: seq<T>, c: seq<T>, d: seq<T>)
    ensures (a + b + c + d)[..|a|] == a
    ensures (a + b + c + d)[|a|..|a| + |b|] == b
    ensures (a + b + c + d)[|a| + |b|..|a| + |b| + |c|] == c
    ensures (a + b + c + d)[|a| + |b| + |c|..] == d
  {
  }

  /** The output file's layout can be read back: the ten-character frame,
      the standard output, the second frame and the standard error, at
      fixed positions given the length of the standard output. */
  lemma OutputTextParts(stdout: string, stderr: string)
    ensures |OutputText(stdout, stderr)| == 20 + |stdout| + |stderr|
    ensures OutputText(stdout, stderr)[..10] == StdoutFrame
    ensures OutputText(stdout, stderr)[10..10 + |stdout|] == stdout
    ensures OutputText(stdout, stderr)[10 + |stdout|..20 + |stdout|] == StderrFrame
    ensures OutputText(stdout, stderr)[20 + |stdout|..] == stderr
  {
    CutFour(StdoutFrame, stdout, StderrFrame, stderr);
  }

  /** The name of repetition `rep`'s output file: the configured template
      with the same file, repetition and configuration name. */
  function OutputFileName(config: Settings, file: string, rep: nat, date: string, configName: string): string
  {
    ReplacePlaceholders(config.outputFileName, file, NatToString(rep), date, configName)
  }

  /** Whether repetitions write an output file: output is printed and an
      output file name is configured. */
  predicate CapturesOutput(config: Settings)
  {
    config.printOutput && config.outputFileName != ""
  }

  // ---------------------------------------------------------------------
  // What `run` computes

  /** `range(0, repetitions)` is empty for a non-positive count. */
  function Repetitions(config: Settings): nat
  {
    if config.repetitions > 0 then config.repetitions else 0
  }

  /** The outcome of repetition `i`. */
  function OutcomeAt(job: Job, exec: Executor, date: string, i: nat): Outcome
  {
    exec(ConcreteCommand(job.command, job.file, i, date, job.configName), i)
  }

  /** The output file of repetition `i`: opened (and emptied) before the
      process starts, filled only when the process completed. */
  function OutputAt(job: Job, exec: Executor, date: string, i: nat): OutputFile
  {
    var o := OutcomeAt(job, exec, date, i);
    OutputFile(OutputFileName(job.config, job.file, i, date, job.configName),
               if o.Completed? then OutputText(o.stdout, o.stderr) else "")
  }

  /** The timings of the first `n` repetitions, or the first repetition
      whose process could not be launched. */
  function RunUpTo(job: Job, exec: Executor, date: string, n: nat): Result<seq<Timing>, nat>
  {
    if n == 0 then Ok([])
    else
      match RunUpTo(job, exec, date, n - 1)
      case Err(i) => Err(i)
      case Ok(ts) =>
        var o := OutcomeAt(job, exec, date, n - 1);
        if o.NotLaunched? then Err(n - 1)
        else Ok(ts + [ExitTiming(o, job.config.timeout)])
  }

  /** The output files of the first `n` repetitions. */
  function OutputsUpTo(job: Job, exec: Executor, date: string, n: nat): seq<OutputFile>
  {
    if CapturesOutput(job.config) then seq(n, i requires 0 <= i < n => OutputAt(job, exec, date, i)) else []
  }

  /** `run`'s result: all repetitions' timings, or the escaping launch
      failure. */
  function RunAll(job: Job, exec: Executor, date: string): Result<seq<Timing>, nat>
  {
    RunUpTo(job, exec, date, Repetitions(job.config))
  }

  /** The output files `run` writes: those of the repetitions it started. */
  function OutputsAll(job: Job, exec: Executor, date: string): seq<OutputFile>
  {
    var r := RunAll(job, exec, date);
    OutputsUpTo(job, exec, date, if r.Ok? then Repetitions(job.config) else r.error + 1)
  }

  /** The first `n` repetitions give exactly `n` timings, the i-th for the
      i-th repetition's outcome, unless some repetition could not be
      launched; then the first such repetition is reported. */
  lemma {:induction false} RunUpToMeaning(job: Job, exec: Executor, date: string, n: nat)
    ensures RunUpTo(job, exec, date, n).Ok?
        <==> forall i :: 0 <= i < n ==> !OutcomeAt(job, exec, date, i).NotLaunched?
    ensures RunUpTo(job, exec, date, n).Ok? ==>
              && |RunUpTo(job, exec, date, n).value| == n
              && forall i :: 0 <= i < n ==>
                   RunUpTo(job, exec, date, n).value[i]
                   == ExitTiming(OutcomeAt(job, exec, date, i), job.config.timeout)
    ensures RunUpTo(job, exec, date, n).Err? ==>
              && RunUpTo(job, exec, date, n).error < n
              && OutcomeAt(job, exec, date, RunUpTo(job, exec, date, n).error).NotLaunched?
              && forall i :: 0 <= i < RunUpTo(job, exec, date, n).error ==>
                   !OutcomeAt(job, exec, date, i).NotLaunched?
  {
    if n > 0 {
      RunUpToMeaning(job, exec, date, n - 1);
    }
  }

  /** Exactly `repetitions` timings (none for a non-positive count) when
      every process could be launched. */
  lemma RunAllCount(job: Job, exec: Executor, date: string)
    requires forall i :: 0 <= i < Repetitions(job.config) ==> !OutcomeAt(job, exec, date, i).NotLaunched?
    ensures RunAll(job, exec, date).Ok?
    ensures |RunAll(job, exec, date).value| == if job.config.repetitions > 0 then job.config.repetitions else 0
  {
    RunUpToMeaning(job, exec, date, Repetitions(job.config));
  }

  /** One more repetition: its timing is appended, or the run ends with
      its index when its process could not be launched. */
  lemma RunStep(job: Job, exec: Executor, date: string, i: nat, ts: seq<Timing>)
    requires RunUpTo(job, exec, date, i) == Ok(ts)
    ensures OutcomeAt(job, exec, date, i).NotLaunched? ==> RunUpTo(job, exec, date, i + 1) == Err(i)
    ensures !OutcomeAt(job, exec, date, i).NotLaunched? ==>
              RunUpTo(job, exec, date, i + 1)
              == Ok(ts + [ExitTiming(OutcomeAt(job, exec, date, i), job.config.timeout)])
  {
  }

  /** One more repetition adds its output file, if output files are
      written. */
  lemma OutputsStep(job: Job, exec: Executor, date: string, i: nat)
    ensures OutputsUpTo(job, exec, date, i + 1)
         == OutputsUpTo(job, exec, date, i)
            + (if CapturesOutput(job.config) then [OutputAt(job, exec, date, i)] else [])
  {
  }

  /** A launch failure is final: later repetitions do not change it. */
  lemma {:induction false} RunUpToErrStays(job: Job, exec: Executor, date: string, i: nat, n: nat)
    requires i < n
    requires RunUpTo(job, exec, date, i + 1) == Err(i)
    ensures RunUpTo(job, exec, date, n) == Err(i)
    decreases n
  {
    if n > i + 1 {
      RunUpToErrStays(job, exec, date, i, n - 1);
    }
  }

  // ---------------------------------------------------------------------
  // The runner

  class ProcessRunner {
    const command: seq<string>
    const config: Settings
    const file: string
    const configName: string

    /** The command is a copy of `cmd` with the file appended. */
    constructor (cmd: seq<string>, file: string, configName: string, config: Settings)
      ensures command == cmd + [file] && this.file == file
      ensures this.configName == configName && this.config == config
    {
      command := cmd + [file];
      this.config := config;
      this.file := file;
      this.configName := configName;
    }

    function JobOf(): Job
    {
      Job(command, file, configName, config)
    }

    /** Runs `cmd` with its output captured. With an output file name, the
        file named by the template for this file, repetition and
        configuration is opened (emptying it) before the process starts
        and receives the framed standard output and error if the process
        completes; without one, the output goes to the console. */
    method RunWithOutput(cmd: seq<string>, file: string, repetition: nat, exec: Executor, date: string)
      returns (o: Outcome, output: Option<OutputFile>)
      ensures o == exec(cmd, repetition)
      ensures config.outputFileName == "" <==> output.None?
      ensures output.Some? ==>
                && output.value.name == OutputFileName(config, file, repetition, date, configName)
                && output.value.text == if o.Completed? then OutputText(o.stdout, o.stderr) else ""
    {
      if config.outputFileName != "" {
        var writer := new FileWriter.FileWriter();
        var currFileName := ReplacePlaceholders(config.outputFileName, file, NatToString(repetition),
                                                date, configName);
        writer.InitOutputFile(currFileName, false);
        o := exec(cmd, repetition);
        if o.Completed? {
          WriteStreams(writer, o.stdout, o.stderr);
          writer.Finalize();
        }
        output := Some(OutputFile(writer.fileName, writer.text));
      } else {
        o := exec(cmd, repetition);
        output := None;
      }
    }

    /** Runs the command `repetitions` times, repetition `i` with its
        placeholders resolved for `i`, and returns one timing per
        repetition; a process that cannot be launched ends the run with
        that repetition's index. */
    method Run(exec: Executor, date: string) returns (timings: Result<seq<Timing>, nat>, outputs: seq<OutputFile>)
      ensures timings == RunAll(JobOf(), exec, date)
      ensures outputs == OutputsAll(JobOf(), exec, date)
    {
      ghost var job := JobOf();
      var ts: seq<Timing> := [];
      outputs := [];
      for i := 0 to Repetitions(config)
        invariant RunUpTo(job, exec, date, i) == Ok(ts)
        invariant outputs == OutputsUpTo(job, exec, date, i)
      {
        RunStep(job, exec, date, i, ts);
        OutputsStep(job, exec, date, i);
        var concreteCommand := ConcreteCommand(command, file, i, date, configName);
        var o: Outcome;
        var output: Option<OutputFile> := None;
        if config.printOutput {
          o, output := RunWithOutput(concreteCommand, file, i, exec, date);
        } else {
          o := exec(concreteCommand, i);
        }
        if output.Some? {
          outputs := outputs + [output.value];
        }
        if o.NotLaunched? {
          RunUpToErrStays(job, exec, date, i, Repetitions(config));
          timings := Err(i);
          return;
        }
        ts := ts + [ExitTiming(o, config.timeout)];
      }
      timings := Ok(ts);
    }
  }

  /** Writes the framed standard output and standard error: three lines,
      the output character by character, three lines, the error character
      by character. */
  method WriteStreams(writer: FileWriter.FileWriter, stdout: string, stderr: string)
    requires writer.handle == FileWriter.Open
    modifies writer
    ensures writer.handle == FileWriter.Open && writer.fileName == old(writer.fileName)
    ensures writer.text == old(writer.text) + OutputText(stdout, stderr)
  {
    ghost var before := writer.text;
    writer.WriteLine("");
    writer.WriteLine("Stdout:");
    writer.WriteLine("");
    assert writer.text == before + StdoutFrame;
    WriteEach(writer, stdout);
    ghost var middle := writer.text;
    writer.WriteLine("");
    writer.WriteLine("Stderr:");
    writer.WriteLine("");
    assert writer.text == middle + StderrFrame;
    WriteEach(writer, stderr);
    OutputTextAfter(before, stdout, stderr);
  }

  /** Writes `s` one character at a time. */
  method WriteEach(writer: FileWriter.FileWriter, s: string)
    requires writer.handle == FileWriter.Open
    modifies writer
    ensures writer.handle == FileWriter.Open && writer.fileName == old(writer.fileName)
    ensures writer.text == old(writer.text) + s
  {
    for k := 0 to |s|
      invariant writer.handle == FileWriter.Open && writer.fileName == old(writer.fileName)
      invariant writer.text == old(writer.text) + s[..k]
    {
      writer.WriteRaw([s[k]]);
      assert s[..k + 1] == s[..k] + [s[k]];
    }
    assert s[..|s|] == s;
  }
}
