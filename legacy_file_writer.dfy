/** The older timing-file writer: bound to one file name at construction,
    it always writes its header and then one line per `(time, exit
    condition)` pair of a run, with the input file and the run
    configuration's words. The file is modelled by the text it holds. */
module LegacyFileWriter {
  import opened Strings
  import ProcessRunner

  /** The column names of the timing file. */
  const HeaderFields: seq<string> := ["runtime [s]", "input file", "run configuration", "exit condition"]

  /** The header: the column names separated by ", ". */
  const CsvHeader := Join(", ", HeaderFields)

  /** No column name holds a comma or a newline. */
  lemma HeaderFieldsPlain()
    ensures forall k :: 0 <= k < |HeaderFields| ==> ',' !in HeaderFields[k] && '\n' !in HeaderFields[k]
  {
    assert ',' !in "runtime [s]" && '\n' !in "runtime [s]";
    assert ',' !in "input file" && '\n' !in "input file";
    assert ',' !in "run configuration" && '\n' !in "run configuration";
    assert ',' !in "exit condition" && '\n' !in "exit condition";
  }

  datatype Handle = NoFile | Open | Closed

  /** The line of one timing: the rendered time, the input file, the run
      configuration's words joined by single spaces, and the exit
      condition, separated by ", ". */
  function TimingLine(show: real -> string, t: ProcessRunner.Timing, inputFile: string,
                      runConfig: seq<string>): string
  {
    Join(", ", [show(t.elapsed), inputFile, Join(" ", runConfig), t.exitCondition])
  }

  /** The lines of one run, one per timing, in order. */
  function TimingLines(show: real -> string, timings: seq<ProcessRunner.Timing>, inputFile: string,
                       runConfig: seq<string>): seq<string>
  {
    seq(|timings|, k requires 0 <= k < |timings| => TimingLine(show, timings[k], inputFile, runConfig))
  }

  /** Header and lines have four fields each: the separator `", "` occurs
      three times in them, as long as no field holds `", "`. */
  lemma TimingLineMatchesHeader(show: real -> string, t: ProcessRunner.Timing, inputFile: string,
                                runConfig: seq<string>)
    requires !Occurs(show(t.elapsed), ", ") && !Occurs(inputFile, ", ")
    requires !Occurs(Join(" ", runConfig), ", ") && !Occurs(t.exitCondition, ", ")
    ensures CountPair(TimingLine(show, t, inputFile, runConfig), ',', ' ') == 3
    ensures CountPair(CsvHeader, ',', ' ') == 3
  {
    assert ", " == [',', ' '];
    assert CountPair(", ", ',', ' ') == 1;
    var fields := [show(t.elapsed), inputFile, Join(" ", runConfig), t.exitCondition];
    forall k | 0 <= k < |fields|
      ensures CountPair(fields[k], ',', ' ') == 0
    {
      CountPairAbsent(fields[k], ',', ' ');
    }
    CountPairJoin(", ", fields, ',', ' ');
    HeaderSeparators();
  }

  /** The header holds the separator `", "` three times. */
  lemma HeaderSeparators()
    ensures CountPair(CsvHeader, ',', ' ') == 3
  {
    assert CountPair(", ", ',', ' ') == 1;
    HeaderFieldsPlain();
    forall k | 0 <= k < |HeaderFields|
      ensures CountPair(HeaderFields[k], ',', ' ') == 0
    {
      NotOccursByChar(HeaderFields[k], ", ", 0);
      assert ", " == [',', ' '];
      CountPairAbsent(HeaderFields[k], ',', ' ');
    }
    CountPairJoin(", ", HeaderFields, ',', ' ');
  }

  /** The timing lines of a run read back one per timing, in order, when
      no field holds a newline. */
  lemma TimingLinesReadBack(show: real -> string, timings: seq<ProcessRunner.Timing>, inputFile: string,
                            runConfig: seq<string>)
    requires '\n' !in inputFile && forall k :: 0 <= k < |runConfig| ==> '\n' !in runConfig[k]
    requires forall k :: 0 <= k < |timings| ==>
               '\n' !in show(timings[k].elapsed) && '\n' !in timings[k].exitCondition
    ensures SplitLines(LinesOf(TimingLines(show, timings, inputFile, runConfig)))
         == TimingLines(show, timings, inputFile, runConfig)
    ensures |TimingLines(show, timings, inputFile, runConfig)| == |timings|
  {
    var lines := TimingLines(show, timings, inputFile, runConfig);
    assert '\n' !in " ";
    JoinAvoids(" ", runConfig, '\n');
    forall k | 0 <= k < |lines|
      ensures '\n' !in lines[k]
    {
      assert '\n' !in ", ";
      JoinAvoids(", ", [show(timings[k].elapsed), inputFile, Join(" ", runConfig), timings[k].exitCondition],
                 '\n');
    }
    SplitLinesOfLines(lines);
  }

  /** The header is the first line of the file, whatever follows it. */
  lemma HeaderIsFirstLine(rest: string)
    ensures SplitLines(CsvHeader + "\n" + rest) == [CsvHeader] + SplitLines(rest)
  {
    HeaderFieldsPlain();
    JoinAvoids(", ", HeaderFields, '\n');
    SplitLinesPrefix(CsvHeader, rest);
  }

  class FileWriter {
    const csvTimingsFileName: string
    const csvHeader: string
    var handle: Handle
    /** The file's contents. */
    var text: string

    constructor (csvTimingsFileName: string)
      ensures this.csvTimingsFileName == csvTimingsFileName && csvHeader == CsvHeader
      ensures handle == NoFile && text == ""
    {
      this.csvTimingsFileName := csvTimingsFileName;
      csvHeader := CsvHeader;
      handle := NoFile;
      text := "";
    }

    method Finalize()
      requires handle != NoFile
      modifies this
      ensures handle == Closed && text == old(text)
    {
      handle := Closed;
    }

    /** Opens the file, emptying it, and prints the header. */
    method InitCsvTimings()
      modifies this
      ensures handle == Open && text == csvHeader + "\n"
    {
      handle := Open;
      text := csvHeader + "\n";
    }

    /** Prints one line per timing of a run, in order. */
    method AddTimingEntry(show: real -> string, timings: seq<ProcessRunner.Timing>, inputFile: string,
                          runConfig: seq<string>)
      requires handle == Open
      modifies this
      ensures handle == Open
      ensures text == old(text) + LinesOf(TimingLines(show, timings, inputFile, runConfig))
    {
      for i := 0 to |timings|
        invariant handle == Open
        invariant text == old(text) + LinesOf(TimingLines(show, timings[..i], inputFile, runConfig))
      {
        var line := TimingLine(show, timings[i], inputFile, runConfig);
        assert TimingLines(show, timings[..i + 1], inputFile, runConfig)
            == TimingLines(show, timings[..i], inputFile, runConfig) + [line];
        LinesOfSnoc(TimingLines(show, timings[..i], inputFile, runConfig), line);
        text := text + line + "\n";
      }
      assert timings[..|timings|] == timings;
    }
  }
}
