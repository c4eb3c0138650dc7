/** The line syntax shared by both configuration readers: which lines of a
    configuration file are looked at, and how a line is split into an
    option and its argument. */
module ConfigSyntax {
  import opened Strings

  /** The characters `l.strip(' \r\n')` removes from both ends of a line. */
  const LineEnds: set<char> := {' ', '\r', '\n'}

  /** A raw line is processed iff it is not blank once stripped of spaces
      and line breaks, and its raw text (before stripping) does not begin
      with '#'. An indented `  # ...` line is therefore processed. */
  predicate IsEffective(line: string)
  {
    Strip(line, LineEnds) != "" && !StartsWith(line, "#")
  }

  /** `[l.strip(' \r\n') for l in configFile if l.strip(' \r\n') and not
      l.startswith('#')]`. */
  function EffectiveLines(lines: seq<string>): (r: seq<string>)
    ensures |r| <= |lines|
    ensures forall k :: 0 <= k < |r| ==> r[k] != "" && r[k][0] !in LineEnds && r[k][|r[k]| - 1] !in LineEnds
  {
    if lines == [] then []
    else
      var init := EffectiveLines(lines[..|lines| - 1]);
      var last := lines[|lines| - 1];
      if IsEffective(last) then init + [Strip(last, LineEnds)] else init
  }

  /** The filter works line by line: the lines of a concatenation are the
      lines of each part, in order. */
  lemma {:induction false} EffectiveLinesConcat(a: seq<string>, b: seq<string>)
    ensures EffectiveLines(a + b) == EffectiveLines(a) + EffectiveLines(b)
    decreases |b|
  {
    if b == [] {
      assert a + b == a;
    } else {
      var b' := b[..|b| - 1];
      assert (a + b)[..|a + b| - 1] == a + b';
      assert (a + b)[|a + b| - 1] == b[|b| - 1];
      EffectiveLinesConcat(a, b');
    }
  }

  /** A single line contributes its stripped text iff it is effective. */
  lemma EffectiveLinesSingle(line: string)
    ensures EffectiveLines([line]) == if IsEffective(line) then [Strip(line, LineEnds)] else []
  {
    assert [line][..0] == [];
  }

  /** A line whose raw text starts with '#' contributes nothing, wherever
      it stands. */
  lemma CommentIgnored(a: seq<string>, comment: string, b: seq<string>)
    requires StartsWith(comment, "#")
    ensures EffectiveLines(a + [comment] + b) == EffectiveLines(a) + EffectiveLines(b)
  {
    EffectiveLinesConcat(a + [comment], b);
    EffectiveLinesConcat(a, [comment]);
    EffectiveLinesSingle(comment);
  }

  /** The options either reader may recognise; `Unknown` stands for every
      other option text. */
  datatype Opt =
    | TestFolder | RunConfiguration | Ignore | Repetitions | Timeout | ListFiles
    | Arg | ConfigName | TimingCsv | PrintProcessOutput | OutputFile | Unknown

  /** The text that names a known option in a configuration file. */
  function OptionName(k: Opt): string
    requires k != Unknown
  {
    match k
    case TestFolder => "test_folder"
    case RunConfiguration => "run_configuration"
    case Ignore => "ignore"
    case Repetitions => "repetitions"
    case Timeout => "timeout"
    case ListFiles => "list_files"
    case Arg => "arg"
    case ConfigName => "config_name"
    case TimingCsv => "timing_csv"
    case PrintProcessOutput => "print_process_output"
    case OutputFile => "output_file"
  }

  /** An option and its argument. */
  datatype Directive = Directive(opt: string, arg: string)

  /** `line.split(" ", maxsplit=1)`, then `opt = line_splits.pop(0).strip()`:
      `None` when the line holds no space, i.e. the option has no argument;
      otherwise the text before the first space, stripped of whitespace,
      and everything after it. */
  function ParseLine(line: string): Option<Directive>
  {
    var parts := SplitOnce(line, ' ');
    if |parts| == 1 then None else Some(Directive(Strip(parts[0], Whitespace), parts[1]))
  }

  /** A line has an argument iff it holds a space; the first space then
      separates the option, stripped of whitespace, from the argument. */
  lemma ParseLineSplitsAtFirstSpace(line: string)
    ensures ParseLine(line).None? <==> ' ' !in line
    ensures ParseLine(line).Some? ==>
              exists i :: 0 <= i < |line| && line[i] == ' ' && ' ' !in line[..i]
                          && ParseLine(line).value.arg == line[i + 1..]
                          && ParseLine(line).value.opt == Strip(line[..i], Whitespace)
  {
    var parts := SplitOnce(line, ' ');
    if |parts| == 2 {
      assert line[|parts[0]|] == ' ';
      assert line[..|parts[0]|] == parts[0];
      assert line[|parts[0]| + 1..] == parts[1];
    }
  }

  /** On an effective line the argument is never empty: the line does not
      end in a space. */
  lemma ArgumentNonEmpty(line: string)
    requires line != [] && line[|line| - 1] !in LineEnds
    requires ParseLine(line).Some?
    ensures ParseLine(line).value.arg != ""
  {
    ParseLineSplitsAtFirstSpace(line);
  }

  /** An argument keeps its inner spaces: only the first space of the line
      separates the option from the argument. */
  lemma ArgumentKeepsSpaces(opt: string, arg: string)
    requires ' ' !in opt
    ensures ParseLine(opt + " " + arg) == Some(Directive(Strip(opt, Whitespace), arg))
  {
    var line := opt + " " + arg;
    assert line[|opt|] == ' ';
    var i := IndexOf(line, ' ');
    assert i == |opt|;
    assert line[..|opt|] == opt;
    assert line[|opt| + 1..] == arg;
    assert SplitOnce(line, ' ') == [opt, arg];
  }
}
