/** The timing-file writer: a file opened for writing (truncating it),
    to which whole lines and raw text are appended. The file is modelled by
    the text it holds. */
module FileWriter {
  import opened Strings
  import opened Result

  /** The column names of the timing file. */
  const HeaderFields: seq<string> := ["runtime [s]", "input file", "run configuration", "exit code", "timeout"]

  /** The header of the timing file: the column names separated by ", ". */
  const CsvHeader := Join(", ", HeaderFields)

  /** No column name holds a comma or a newline. */
  lemma HeaderFieldsPlain()
    ensures forall k :: 0 <= k < |HeaderFields| ==> ',' !in HeaderFields[k] && '\n' !in HeaderFields[k]
  {
    assert ',' !in "runtime [s]" && '\n' !in "runtime [s]";
    assert ',' !in "input file" && '\n' !in "input file";
    assert ',' !in "run configuration" && '\n' !in "run configuration";
    assert ',' !in "exit code" && '\n' !in "exit code";
    assert ',' !in "timeout" && '\n' !in "timeout";
  }

  /** The state of the writer's file handle: none yet, open, or closed. */
  datatype Handle = NoFile | Open | Closed

  /** The line of one result: elapsed time, input file, configuration name,
      return code and timeout flag, separated by ", ". `show` is Python's
      `str()` of a float. */
  function TimingLine(show: real -> string, r: SingleRunResult): string
  {
    Join(", ", [show(r.timeElapsed), r.inputFile, r.configName,
                IntToString(r.returnCode), BoolToString(r.timeoutOccurred)])
  }

  /** The lines of a sequence of results, one each, in order. */
  function TimingLines(show: real -> string, results: seq<SingleRunResult>): (lines: seq<string>)
  {
    seq(|results|, k requires 0 <= k < |results| => TimingLine(show, results[k]))
  }

  /** Text ending in the lines of some results, followed by the line of
      one more result, ends in the lines of them all. */
  lemma TimingLinesSnoc(show: real -> string, results: seq<SingleRunResult>, i: nat, before: string)
    requires i < |results|
    ensures before + LinesOf(TimingLines(show, results[..i + 1]))
         == before + LinesOf(TimingLines(show, results[..i])) + TimingLine(show, results[i]) + "\n"
  {
    var line := TimingLine(show, results[i]);
    var lines := LinesOf(TimingLines(show, results[..i]));
    assert TimingLines(show, results[..i + 1]) == TimingLines(show, results[..i]) + [line];
    LinesOfSnoc(TimingLines(show, results[..i]), line);
    assert before + (lines + line + "\n") == before + lines + line + "\n";
  }

  /** Neither a decimal integer nor a boolean holds a comma or a newline. */
  lemma RenderedAvoids(i: int, b: bool)
    ensures ',' !in IntToString(i) && '\n' !in IntToString(i)
    ensures ',' !in BoolToString(b) && '\n' !in BoolToString(b)
  {
    var n := if i < 0 then -i else i;
    assert forall k :: 0 <= k < |NatToString(n)| ==> NatToString(n)[k] != ',' && NatToString(n)[k] != '\n';
    if i < 0 {
      assert IntToString(i) == "-" + NatToString(n);
      assert forall k :: 0 <= k < |IntToString(i)| ==> IntToString(i)[k] != ',' && IntToString(i)[k] != '\n';
    }
  }

    /** Header and every line have five fields: the separator `", "` occurs
      four times in them, as long as the time, the file and the
      configuration name hold no `", "`. */
  lemma TimingLineMatchesHeader(show: real -> string, r: SingleRunResult)
    requires !Occurs(show(r.timeElapsed), ", ") && !Occurs(r.inputFile, ", ") && !Occurs(r.configName, ", ")
    ensures CountPair(TimingLine(show, r), ',', ' ') == 4
    ensures CountPair(CsvHeader, ',', ' ') == 4
  {
    assert ", " == [',', ' '];
    assert CountPair(", ", ',', ' ') == 1;
    RenderedAvoids(r.returnCode, r.timeoutOccurred);
    var fields := [show(r.timeElapsed), r.inputFile, r.configName,
                   IntToString(r.returnCode), BoolToString(r.timeoutOccurred)];
    NotOccursByChar(fields[3], ", ", 0);
    NotOccursByChar(fields[4], ", ", 0);
    forall k | 0 <= k < |fields|
      ensures CountPair(fields[k], ',', ' ') == 0
    {
      CountPairAbsent(fields[k], ',', ' ');
    }
    CountPairJoin(", ", fields, ',', ' ');
    HeaderFieldsPlain();
    forall k | 0 <= k < |HeaderFields|
      ensures CountPair(HeaderFields[k], ',', ' ') == 0
    {
      NotOccursByChar(HeaderFields[k], ", ", 0);
      CountPairAbsent(HeaderFields[k], ',', ' ');
    }
    CountPairJoin(", ", HeaderFields, ',', ' ');
  }

  /** The file's text reads back as the timing lines of the results when
      no file or configuration name holds a newline. */
  lemma TimingLinesReadBack(show: real -> string, results: seq<SingleRunResult>)
    requires forall k :: 0 <= k < |results| ==>
               '\n' !in show(results[k].timeElapsed) && '\n' !in results[k].inputFile
               && '\n' !in results[k].configName
    ensures |SplitLines(LinesOf(TimingLines(show, results)))| == |results|
    ensures forall k :: 0 <= k < |results| ==>
              SplitLines(LinesOf(TimingLines(show, results)))[k] == TimingLine(show, results[k])
  {
    var lines := TimingLines(show, results);
    forall k | 0 <= k < |lines|
      ensures '\n' !in lines[k]
    {
      var r := results[k];
      RenderedAvoids(r.returnCode, r.timeoutOccurred);
      assert Count(", ", '\n') == 0;
      JoinAvoids(", ", [show(r.timeElapsed), r.inputFile, r.configName,
                        IntToString(r.returnCode), BoolToString(r.timeoutOccurred)], '\n');
    }
    SplitLinesOfLines(lines);
  }

  class FileWriter {
    /** The header written by `InitOutputFile` when asked to. */
    const csvHeader: string
    /** The name of the file last opened. */
    var fileName: string
    var handle: Handle
    /** The file's contents. */
    var text: string

    constructor ()
      ensures csvHeader == CsvHeader && handle == NoFile && text == "" && fileName == ""
    {
      csvHeader := CsvHeader;
      fileName := "";
      handle := NoFile;
      text := "";
    }

    /** Closes the file; closing an already closed file does nothing. */
    method Finalize()
      requires handle != NoFile
      modifies this
      ensures handle == Closed && text == old(text) && fileName == old(fileName)
    {
      handle := Closed;
    }

    /** Opens `filename` for writing, which empties it, and prints the
        header as its first line iff `printHeader`. */
    method InitOutputFile(filename: string, printHeader: bool)
      modifies this
      ensures handle == Open && fileName == filename
      ensures text == if printHeader then csvHeader + "\n" else ""
    {
      fileName := filename;
      handle := Open;
      text := "";
      if printHeader {
        text := text + csvHeader + "\n";
      }
    }

    /** Prints one timing line per result, in order. */
    method AddTimingEntry(show: real -> string, timings: seq<SingleRunResult>)
      requires handle == Open
      modifies this
      ensures handle == Open && fileName == old(fileName)
      ensures text == old(text) + LinesOf(TimingLines(show, timings))
    {
      for i := 0 to |timings|
        invariant handle == Open && fileName == old(fileName)
        invariant text == old(text) + LinesOf(TimingLines(show, timings[..i]))
      {
        var line := TimingLine(show, timings[i]);
        TimingLinesSnoc(show, timings, i, old(text));
        text := text + line + "\n";
      }
      assert timings[..|timings|] == timings;
    }

    /** Prints `line` followed by a newline. */
    method WriteLine(line: string)
      requires handle == Open
      modifies this
      ensures handle == Open && fileName == old(fileName)
      ensures text == old(text) + line + "\n"
    {
      text := text + line + "\n";
    }

    /** Writes `raw` as it is, without a newline. */
    method WriteRaw(raw: string)
      requires handle == Open
      modifies this
      ensures handle == Open && fileName == old(fileName)
      ensures text == old(text) + raw
    {
      text := text + raw;
    }
  }

  /** In a file opened with the header, the header is the first line,
      whatever is printed after it. */
  lemma HeaderIsFirstLine(rest: string)
    ensures SplitLines(CsvHeader + "\n" + rest) == [CsvHeader] + SplitLines(rest)
  {
    HeaderFieldsPlain();
    JoinAvoids(", ", HeaderFields, '\n');
    SplitLinesPrefix(CsvHeader, rest);
  }
}
