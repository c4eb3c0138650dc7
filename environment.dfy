/** The benchmark environment: it reads the configuration, collects the
    benchmark files from a walk of the test folder, runs every file under
    every configuration, and hands each run's timings to the timing-file
    writer. */
module Environment {
  import opened Strings
  import opened Config
  import FileWriter
  import opened ProcessRunner

  // ---------------------------------------------------------------------
  // Collecting the test files

  /** `os.path.join(root, name)` for a POSIX path: an absolute name
      replaces the root, otherwise a slash is put between them unless the
      root is empty or already ends with one. */
  function PathJoin(root: string, name: string): string
  {
    if StartsWith(name, "/") then name
    else if root == "" || EndsWith(root, "/") then root + name
    else root + "/" + name
  }

  /** One step of `os.walk`: a directory and the names of the files in it
      (the subdirectory names are not used). */
  datatype WalkEntry = WalkEntry(root: string, files: seq<string>)

  /** A walked file is a benchmark iff its name ends with ".sil" and its
      joined path ends with no entry of the ignore list. */
  predicate IsBenchFile(root: string, name: string, ignoreList: seq<string>)
  {
    EndsWith(name, ".sil") && !EndsWithAny(PathJoin(root, name), ignoreList)
  }

  /** The benchmark files of one directory, normalised, in listing order. */
  function BenchFiles(normpath: string -> string, root: string, names: seq<string>,
                      ignoreList: seq<string>): (r: seq<string>)
    ensures |r| <= |names|
  {
    if names == [] then []
    else
      var init := BenchFiles(normpath, root, names[..|names| - 1], ignoreList);
      var name := names[|names| - 1];
      if IsBenchFile(root, name, ignoreList) then init + [normpath(PathJoin(root, name))] else init
  }

  /** A path is collected from a directory iff it is the normalised joined
      path of one of its files that passes the filter. */
  lemma {:induction false} BenchFilesMembers(normpath: string -> string, root: string, names: seq<string>,
                                             ignoreList: seq<string>, p: string)
    ensures p in BenchFiles(normpath, root, names, ignoreList)
        <==> exists k :: 0 <= k < |names| && IsBenchFile(root, names[k], ignoreList)
                         && p == normpath(PathJoin(root, names[k]))
  {
    if names != [] {
      var init := names[..|names| - 1];
      BenchFilesMembers(normpath, root, init, ignoreList, p);
      if p in BenchFiles(normpath, root, names, ignoreList) {
        if p !in BenchFiles(normpath, root, init, ignoreList) {
          assert IsBenchFile(root, names[|names| - 1], ignoreList);
        } else {
          var k :| 0 <= k < |init| && IsBenchFile(root, init[k], ignoreList)
                   && p == normpath(PathJoin(root, init[k]));
          assert names[k] == init[k];
        }
      }
      if exists k :: 0 <= k < |names| && IsBenchFile(root, names[k], ignoreList)
                     && p == normpath(PathJoin(root, names[k])) {
        var k :| 0 <= k < |names| && IsBenchFile(root, names[k], ignoreList)
                 && p == normpath(PathJoin(root, names[k]));
        if k < |init| {
          assert init[k] == names[k];
        }
      }
    }
  }

  /** An empty ignore list excludes nothing: the ".sil" suffix decides. */
  lemma EmptyIgnoreList(root: string, name: string)
    ensures IsBenchFile(root, name, []) <==> EndsWith(name, ".sil")
  {
  }

  /** An ignore entry that the joined path ends with excludes the file. */
  lemma IgnoredIsExcluded(root: string, name: string, ignoreList: seq<string>, k: nat)
    requires k < |ignoreList| && EndsWith(PathJoin(root, name), ignoreList[k])
    ensures !IsBenchFile(root, name, ignoreList)
  {
  }

  /** The benchmark files of a whole walk, directory by directory. */
  function Collected(normpath: string -> string, walk: seq<WalkEntry>, ignoreList: seq<string>): seq<string>
  {
    if walk == [] then []
    else
      var last := walk[|walk| - 1];
      Collected(normpath, walk[..|walk| - 1], ignoreList) + BenchFiles(normpath, last.root, last.files, ignoreList)
  }

  /** Text ending in what the first `i` walk entries collected, followed by
      what entry `i` collects, ends in what the first `i + 1` collected. */
  lemma CollectedSnoc(normpath: string -> string, walk: seq<WalkEntry>, ignoreList: seq<string>, i: nat,
                      before: seq<string>)
    requires i < |walk|
    ensures before + Collected(normpath, walk[..i + 1], ignoreList)
         == before + Collected(normpath, walk[..i], ignoreList)
            + BenchFiles(normpath, walk[i].root, walk[i].files, ignoreList)
  {
    assert walk[..i + 1][..i] == walk[..i];
    var c := Collected(normpath, walk[..i], ignoreList);
    var b := BenchFiles(normpath, walk[i].root, walk[i].files, ignoreList);
    assert before + (c + b) == before + c + b;
  }

  /** Collecting two walks one after the other is collecting their
      concatenation. */
  lemma {:induction false} CollectedConcat(normpath: string -> string, a: seq<WalkEntry>, b: seq<WalkEntry>,
                                           ignoreList: seq<string>)
    ensures Collected(normpath, a + b, ignoreList) == Collected(normpath, a, ignoreList) + Collected(normpath, b, ignoreList)
    decreases |b|
  {
    if b == [] {
      assert a + b == a;
    } else {
      var init, last := b[..|b| - 1], b[|b| - 1];
      var files := BenchFiles(normpath, last.root, last.files, ignoreList);
      calc {
        Collected(normpath, a + b, ignoreList);
        { assert (a + b)[..|a + b| - 1] == a + init && (a + b)[|a + b| - 1] == last; }
        Collected(normpath, a + init, ignoreList) + files;
        { CollectedConcat(normpath, a, init, ignoreList); }
        (Collected(normpath, a, ignoreList) + Collected(normpath, init, ignoreList)) + files;
        Collected(normpath, a, ignoreList) + (Collected(normpath, init, ignoreList) + files);
      }
    }
  }

  // ---------------------------------------------------------------------
  // The traversal

  /** One runner's inputs: the input file, the run configuration and its
      name. */
  datatype Pair = Pair(file: string, runConfig: seq<string>, configName: string)

  function Min(a: nat, b: nat): nat
  {
    if a < b then a else b
  }

  /** The pairs of one file: `zip` of the configurations and their names,
      which stops at the shorter list. */
  function RowOf(file: string, cfgs: seq<seq<string>>, names: seq<string>): (row: seq<Pair>)
    ensures |row| == Min(|cfgs|, |names|)
  {
    seq(Min(|cfgs|, |names|), j requires 0 <= j < Min(|cfgs|, |names|) => Pair(file, cfgs[j], names[j]))
  }

  /** The pairs of all files: files outside, configurations inside. */
  function PairsOf(files: seq<string>, cfgs: seq<seq<string>>, names: seq<string>): seq<Pair>
  {
    if files == [] then []
    else PairsOf(files[..|files| - 1], cfgs, names) + RowOf(files[|files| - 1], cfgs, names)
  }

  /** There are `|files| × min(|configs|, |names|)` pairs. */
  lemma {:induction false} PairsCount(files: seq<string>, cfgs: seq<seq<string>>, names: seq<string>)
    ensures |PairsOf(files, cfgs, names)| == |files| * Min(|cfgs|, |names|)
  {
    if files != [] {
      PairsCount(files[..|files| - 1], cfgs, names);
      assert |files| * Min(|cfgs|, |names|) == (|files| - 1) * Min(|cfgs|, |names|) + Min(|cfgs|, |names|);
    }
  }

  /** Pair `i × m + j`, where m is the number of pairs per file, is file i
      with configuration j and name j. */
  lemma {:induction false} PairAt(files: seq<string>, cfgs: seq<seq<string>>, names: seq<string>, i: nat, j: nat)
    requires i < |files| && j < Min(|cfgs|, |names|)
    ensures i * Min(|cfgs|, |names|) + j < |PairsOf(files, cfgs, names)|
    ensures PairsOf(files, cfgs, names)[i * Min(|cfgs|, |names|) + j] == Pair(files[i], cfgs[j], names[j])
  {
    var m := Min(|cfgs|, |names|);
    var n := |files|;
    var init := files[..n - 1];
    PairsCount(init, cfgs, names);
    assert |PairsOf(files, cfgs, names)| == |PairsOf(init, cfgs, names)| + m;
    if i < n - 1 {
      PairAt(init, cfgs, names, i, j);
      assert init[i] == files[i];
    } else {
      assert i * m == (n - 1) * m;
    }
  }

  /** The pairs of two file lists one after the other. */
  lemma {:induction false} PairsConcat(a: seq<string>, b: seq<string>, cfgs: seq<seq<string>>, names: seq<string>)
    ensures PairsOf(a + b, cfgs, names) == PairsOf(a, cfgs, names) + PairsOf(b, cfgs, names)
    decreases |b|
  {
    if b == [] {
      assert a + b == a;
    } else {
      assert (a + b)[..|a + b| - 1] == a + b[..|b| - 1];
      PairsConcat(a, b[..|b| - 1], cfgs, names);
    }
  }

  /** The runner of a pair, as a job under the given configuration. */
  function JobFor(p: Pair, config: Settings): Job
  {
    Job(p.runConfig + [p.file], p.file, p.configName, config)
  }

  /** One `add_timing_entry` call: the timings of a pair, its file and its
      configuration name. */
  datatype Handed = Handed(timings: seq<Timing>, file: string, configName: string)

  /** The writer calls made for a list of pairs, and whether every run
      completed: a run that escapes with a launch failure ends the
      traversal. */
  datatype Progress = Progress(handed: seq<Handed>, ok: bool)

  function HandOut(pairs: seq<Pair>, config: Settings, exec: Executor, date: string): Progress
  {
    if pairs == [] then Progress([], true)
    else
      var before := HandOut(pairs[..|pairs| - 1], config, exec, date);
      var p := pairs[|pairs| - 1];
      if !before.ok then before
      else match RunAll(JobFor(p, config), exec, date)
        case Err(_) => Progress(before.handed, false)
        case Ok(ts) => Progress(before.handed + [Handed(ts, p.file, p.configName)], true)
  }

  /** When every run completes, each pair's timings are handed over
      exactly once, in traversal order, with the pair's file and name. */
  lemma {:induction false} HandOutMeaning(pairs: seq<Pair>, config: Settings, exec: Executor, date: string)
    ensures HandOut(pairs, config, exec, date).ok
        <==> forall k :: 0 <= k < |pairs| ==> RunAll(JobFor(pairs[k], config), exec, date).Ok?
    ensures HandOut(pairs, config, exec, date).ok ==>
              && |HandOut(pairs, config, exec, date).handed| == |pairs|
              && forall k :: 0 <= k < |pairs| ==>
                   HandOut(pairs, config, exec, date).handed[k]
                   == Handed(RunAll(JobFor(pairs[k], config), exec, date).value, pairs[k].file, pairs[k].configName)
  {
    if pairs != [] {
      var init := pairs[..|pairs| - 1];
      HandOutMeaning(init, config, exec, date);
      assert forall k :: 0 <= k < |init| ==> init[k] == pairs[k];
    }
  }

  /** After a failed run nothing more is handed over. */
  lemma {:induction false} HandOutFailStays(a: seq<Pair>, b: seq<Pair>, config: Settings, exec: Executor,
                                            date: string)
    requires !HandOut(a, config, exec, date).ok
    ensures HandOut(a + b, config, exec, date) == HandOut(a, config, exec, date)
    decreases |b|
  {
    if b == [] {
      assert a + b == a;
    } else {
      assert (a + b)[..|a + b| - 1] == a + b[..|b| - 1];
      HandOutFailStays(a, b[..|b| - 1], config, exec, date);
    }
  }

  /** One more pair: its timings are handed over, or the traversal fails. */
  lemma HandOutStep(pairs: seq<Pair>, p: Pair, config: Settings, exec: Executor, date: string)
    requires HandOut(pairs, config, exec, date).ok
    ensures HandOut(pairs + [p], config, exec, date)
         == match RunAll(JobFor(p, config), exec, date)
            case Err(_) => Progress(HandOut(pairs, config, exec, date).handed, false)
            case Ok(ts) => Progress(HandOut(pairs, config, exec, date).handed + [Handed(ts, p.file, p.configName)], true)
  {
    assert (pairs + [p])[..|pairs|] == pairs;
  }

  lemma TakeOneMore<T>(a: seq<T>, b: seq<T>, j: nat)
    requires j < |b|
    ensures a + b[..j] + [b[j]] == a + b[..j + 1]
  {
    assert b[..j + 1] == b[..j] + [b[j]];
  }

  lemma SplitAfter<T>(a: seq<T>, b: seq<T>, j: nat)
    requires j <= |b|
    ensures a + b == (a + b[..j]) + b[j..]
  {
    assert b == b[..j] + b[j..];
  }

  /** Pair `j` of a row, run after the pairs before it: a failure ends the
      row's traversal, a completed run is handed over. */
  lemma HandOutNext(done: seq<Pair>, row: seq<Pair>, j: nat, config: Settings, exec: Executor, date: string)
    requires j < |row| && HandOut(done + row[..j], config, exec, date).ok
    ensures RunAll(JobFor(row[j], config), exec, date).Err? ==>
              HandOut(done + row, config, exec, date)
              == Progress(HandOut(done + row[..j], config, exec, date).handed, false)
    ensures RunAll(JobFor(row[j], config), exec, date).Ok? ==>
              HandOut(done + row[..j + 1], config, exec, date)
              == Progress(HandOut(done + row[..j], config, exec, date).handed
                          + [Handed(RunAll(JobFor(row[j], config), exec, date).value, row[j].file, row[j].configName)],
                          true)
  {
    HandOutStep(done + row[..j], row[j], config, exec, date);
    TakeOneMore(done, row, j);
    if RunAll(JobFor(row[j], config), exec, date).Err? {
      SplitAfter(done, row, j + 1);
      HandOutFailStays(done + row[..j + 1], row[j + 1..], config, exec, date);
    }
  }

  /** A traversal that fails at file `fi` hands over nothing for the
      files after it. */
  lemma FailedFileEnds(files: seq<string>, fi: nat, cfgs: seq<seq<string>>, names: seq<string>,
                       config: Settings, exec: Executor, date: string)
    requires fi < |files|
    requires !HandOut(PairsOf(files[..fi + 1], cfgs, names), config, exec, date).ok
    ensures HandOut(PairsOf(files, cfgs, names), config, exec, date)
         == HandOut(PairsOf(files[..fi + 1], cfgs, names), config, exec, date)
  {
    assert files == files[..fi + 1] + files[fi + 1..];
    PairsConcat(files[..fi + 1], files[fi + 1..], cfgs, names);
    HandOutFailStays(PairsOf(files[..fi + 1], cfgs, names), PairsOf(files[fi + 1..], cfgs, names), config, exec, date);
  }

  // ---------------------------------------------------------------------
  // The environment

  /** A runner made for a pair and run: its timings, or the status of the
      launch that failed. */
  method RunPair(p: Pair, settings: Settings, exec: Executor, date: string)
    returns (timings: Result<seq<Timing>, nat>)
    ensures timings == RunAll(JobFor(p, settings), exec, date)
  {
    var runner := new ProcessRunner(p.runConfig, p.file, p.configName, settings);
    var outputs;
    timings, outputs := runner.Run(exec, date);
    assert runner.JobOf() == JobFor(p, settings);
  }

  class Environment {
    const config: Config
    var files: seq<string>
    var fileWriter: FileWriter.FileWriter?
    /** The timing-file writer calls made so far, in order. */
    var handed: seq<Handed>

    ghost predicate Valid()
      reads this, config
    {
      config.Valid()
    }

    constructor ()
      ensures Valid() && config.State() == Defaults && fresh(config)
      ensures files == [] && fileWriter == null && handed == []
    {
      config := new Config();
      files := [];
      fileWriter := null;
      handed := [];
    }

    /** Reads the configuration file, then opens the timing file with its
        header. */
    method InitEnv(host: Host, contents: Option<seq<string>>)
      requires Valid()
      modifies this, config
      ensures Valid()
      ensures config.State() == ReadLines(host, old(config.State()), contents)
      ensures fileWriter != null && fresh(fileWriter)
      ensures fileWriter.handle == FileWriter.Open && fileWriter.fileName == config.timingCsvFileName
      ensures fileWriter.text == FileWriter.CsvHeader + "\n"
      ensures files == old(files) && handed == old(handed)
    {
      config.ReadConfigFile(host, contents);
      var writer := new FileWriter.FileWriter();
      writer.InitOutputFile(config.timingCsvFileName, true);
      fileWriter := writer;
    }

    /** Appends the benchmark files of the walk of the test folder. */
    method CollectTestFiles(normpath: string -> string, walk: seq<WalkEntry>)
      modifies this
      ensures files == old(files) + Collected(normpath, walk, config.ignoreList)
      ensures fileWriter == old(fileWriter) && handed == old(handed)
    {
      for i := 0 to |walk|
        invariant files == old(files) + Collected(normpath, walk[..i], config.ignoreList)
        invariant fileWriter == old(fileWriter) && handed == old(handed)
      {
        var benchFiles := BenchFiles(normpath, walk[i].root, walk[i].files, config.ignoreList);
        CollectedSnoc(normpath, walk, config.ignoreList, i, old(files));
        files := files + benchFiles;
      }
      assert walk[..|walk|] == walk;
    }

    /** Runs every file under every configuration paired with its name,
        files outside, and records each run's timings; a launch failure
        escapes and ends the traversal. */
    method RunProcesses(exec: Executor, date: string) returns (ok: bool)
      modifies this
      ensures files == old(files) && fileWriter == old(fileWriter)
      ensures handed == old(handed) + HandOut(PairsOf(files, config.runConfigurations, config.runConfigNames),
                                              config.State(), exec, date).handed
      ensures ok == HandOut(PairsOf(files, config.runConfigurations, config.runConfigNames),
                            config.State(), exec, date).ok
    {
      var cfgs := config.runConfigurations;
      var names := config.runConfigNames;
      var settings := config.State();
      for fi := 0 to |files|
        invariant files == old(files) && fileWriter == old(fileWriter)
        invariant HandOut(PairsOf(files[..fi], cfgs, names), settings, exec, date).ok
        invariant handed == old(handed) + HandOut(PairsOf(files[..fi], cfgs, names), settings, exec, date).handed
      {
        ghost var done := PairsOf(files[..fi], cfgs, names);
        assert files[..fi + 1][..fi] == files[..fi];
        assert PairsOf(files[..fi + 1], cfgs, names) == done + RowOf(files[fi], cfgs, names);
        ok := RunFile(files[fi], cfgs, names, settings, exec, date, done, old(handed));
        if !ok {
          FailedFileEnds(files, fi, cfgs, names, settings, exec, date);
          return;
        }
      }
      assert files[..|files|] == files;
      return true;
    }

    /** The inner loop of `RunProcesses` for one file: one runner per
        configuration and name, in order. */
    method RunFile(file: string, cfgs: seq<seq<string>>, names: seq<string>, settings: Settings,
                   exec: Executor, date: string, ghost done: seq<Pair>, ghost before: seq<Handed>)
      returns (ok: bool)
      requires HandOut(done, settings, exec, date).ok
      requires handed == before + HandOut(done, settings, exec, date).handed
      modifies this
      ensures files == old(files) && fileWriter == old(fileWriter)
      ensures ok == HandOut(done + RowOf(file, cfgs, names), settings, exec, date).ok
      ensures handed == before + HandOut(done + RowOf(file, cfgs, names), settings, exec, date).handed
    {
      ghost var row := RowOf(file, cfgs, names);
      assert done + row[..0] == done;
      for j := 0 to Min(|cfgs|, |names|)
        invariant files == old(files) && fileWriter == old(fileWriter)
        invariant HandOut(done + row[..j], settings, exec, date).ok
        invariant handed == before + HandOut(done + row[..j], settings, exec, date).handed
      {
        var stepOk := RunAndHandOver(file, cfgs, names, j, settings, exec, date, done, before);
        if !stepOk {
          return false;
        }
      }
      assert row[..Min(|cfgs|, |names|)] == row;
      return true;
    }

    /** One round of the inner loop: run configuration `j` on `file` and
        hand its timings over, or report that the run escaped. */
    method RunAndHandOver(file: string, cfgs: seq<seq<string>>, names: seq<string>, j: nat, settings: Settings,
                          exec: Executor, date: string, ghost done: seq<Pair>, ghost before: seq<Handed>)
      returns (ok: bool)
      requires j < Min(|cfgs|, |names|)
      requires HandOut(done + RowOf(file, cfgs, names)[..j], settings, exec, date).ok
      requires handed == before + HandOut(done + RowOf(file, cfgs, names)[..j], settings, exec, date).handed
      modifies this
      ensures files == old(files) && fileWriter == old(fileWriter)
      ensures ok ==> HandOut(done + RowOf(file, cfgs, names)[..j + 1], settings, exec, date).ok
      ensures ok ==> handed == before + HandOut(done + RowOf(file, cfgs, names)[..j + 1], settings, exec, date).handed
      ensures !ok ==> !HandOut(done + RowOf(file, cfgs, names), settings, exec, date).ok
      ensures !ok ==> handed == before + HandOut(done + RowOf(file, cfgs, names), settings, exec, date).handed
    {
      ghost var row := RowOf(file, cfgs, names);
      assert row[j] == Pair(file, cfgs[j], names[j]);
      var timings := RunPair(Pair(file, cfgs[j], names[j]), settings, exec, date);
      HandOutNext(done, row, j, settings, exec, date);
      if timings.Err? {
        return false;
      }
      handed := handed + [Handed(timings.value, file, names[j])];
      return true;
    }

    /** Closes the timing file. */
    method Finalize()
      requires fileWriter != null && fileWriter.handle != FileWriter.NoFile
      modifies fileWriter
      ensures fileWriter.handle == FileWriter.Closed && fileWriter.text == old(fileWriter.text)
    {
      fileWriter.Finalize();
    }

    /** The whole benchmark: read the configuration and open the timing
        file, collect the files of the configured test folder, run them,
        and close the timing file if no run escaped. */
    method Exec(host: Host, contents: Option<seq<string>>, walk: string -> seq<WalkEntry>, exec: Executor)
      returns (ok: bool)
      requires Valid()
      modifies this, config
      ensures Valid()
      ensures config.State() == ReadLines(host, old(config.State()), contents)
      ensures files == old(files) + Collected(host.normpath, walk(config.testFolder), config.ignoreList)
      ensures handed == old(handed) + HandOut(PairsOf(files, config.runConfigurations, config.runConfigNames),
                                              config.State(), exec, host.date).handed
      ensures ok == HandOut(PairsOf(files, config.runConfigurations, config.runConfigNames),
                            config.State(), exec, host.date).ok
      ensures fileWriter != null && fresh(fileWriter) && fileWriter.text == FileWriter.CsvHeader + "\n"
      ensures fileWriter.handle == if ok then FileWriter.Closed else FileWriter.Open
    {
      InitEnv(host, contents);
      CollectTestFiles(host.normpath, walk(config.testFolder));
      ok := RunProcesses(exec, host.date);
      if ok {
        Finalize();
      }
    }
  }
}
