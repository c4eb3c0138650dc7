/** The placeholder resolver of src/util.py: the five placeholder tokens,
    `replace_placeholders`, and the path-derived file name built by
    `generate_path_dependent_filename` on top of POSIX `os.path.split`. */
module Util {
  import opened Strings

  const PlaceholderDate := "@date@"
  const PlaceholderFileName := "@file_name@"
  const PlaceholderPathDependentFileName := "@path_name@"
  const PlaceholderRep := "@rep@"
  const PlaceholderConfigName := "@config_name@"

  // ---------------------------------------------------------------------
  // os.path.split / os.path.basename (POSIX)

  /** `p.rfind('/') + 1`: the index just after the last slash, 0 if none. */
  function AfterLastSlash(p: string): (i: nat)
    ensures i <= |p|
    ensures i > 0 ==> p[i - 1] == '/'
    ensures forall j :: i <= j < |p| ==> p[j] != '/'
    ensures i == 0 <==> '/' !in p
  {
    if p == [] then 0
    else if p[|p| - 1] == '/' then |p|
    else AfterLastSlash(p[..|p| - 1])
  }

  predicate AllSlashes(h: string)
  {
    forall k :: 0 <= k < |h| ==> h[k] == '/'
  }

  /** `os.path.split(p)`: the tail is everything after the last slash; the
      head is everything before it, with trailing slashes removed unless
      the head consists of slashes only. */
  function Split(p: string): (r: (string, string))
    ensures |r.0| + |r.1| <= |p| && r.0 == p[..|r.0|]
    ensures '/' !in r.1 && r.1 == p[|p| - |r.1|..]
    ensures r.0 == "" <==> '/' !in p
  {
    var i := AfterLastSlash(p);
    var head := p[..i];
    if head != "" && !AllSlashes(head) then (TrimRight(head, {'/'}), p[i..])
    else (head, p[i..])
  }

  /** `os.path.basename(p)`. */
  function Basename(p: string): (b: string)
    ensures '/' !in b && EndsWith(p, b)
  {
    Split(p).1
  }

  /** A path that does not start at the root. */
  predicate Relative(p: string)
  {
    p == "" || p[0] != '/'
  }

  /** Splitting a relative path gives a relative head that is strictly
      shorter, unless it is empty. */
  lemma SplitOfRelative(p: string)
    requires Relative(p)
    ensures Relative(Split(p).0)
    ensures Split(p).0 != "" ==> |Split(p).0| < |p|
  {
    var i := AfterLastSlash(p);
    if i > 0 {
      var head := p[..i];
      assert head[0] != '/';
      var h := TrimRight(head, {'/'});
      assert h != [];
      assert h[0] == p[0];
      if i == |p| {
        assert h[|h| - 1] != '/';
      }
    }
  }

  /** The last slash of `a + "/" + b` is the one added, when `b` has none. */
  lemma SplitAtAddedSlash(a: string, b: string)
    requires '/' !in b
    ensures AfterLastSlash(a + "/" + b) == |a| + 1
  {
    var p := a + "/" + b;
    var i := AfterLastSlash(p);
    assert p[|a|] == '/';
  }

  // ---------------------------------------------------------------------
  // generate_path_dependent_filename

  /** The folder list that `generate_path_dependent_filename` collects, in
      the order it finally joins it: the tail of every split whose head is
      non-empty, outermost first. The source's loop only ends when a head
      is empty, which never happens for a path starting with '/', so this
      version of it needs a relative path. */
  function PathFolders(file: string): seq<string>
    requires Relative(file)
    decreases |file|
  {
    SplitOfRelative(file);
    var (head, tail) := Split(file);
    if head == "" then [] else PathFolders(head) + [tail]
  }

  /** One round of the source's loop. */
  lemma PathFoldersStep(f: string)
    requires Relative(f) && Split(f).0 != ""
    ensures Relative(Split(f).0) && |Split(f).0| < |f|
    ensures PathFolders(f) == PathFolders(Split(f).0) + [Split(f).1]
  {
    SplitOfRelative(f);
  }

  /** Moving an element from the front of one sequence to the back of
      another keeps their concatenation. */
  lemma ConcatShift<T>(whole: seq<T>, front: seq<T>, rest: seq<T>, rest2: seq<T>, x: T)
    requires whole == front + [x] && rest2 == [x] + rest
    ensures whole + rest == front + rest2
  {
  }

  /** The loop invariant of `generate_path_dependent_filename` survives one
      round: the folders still to be collected and the reversed folders
      already collected make up all folders of the file. */
  lemma CollectStep(file: string, f: string, folders: seq<string>)
    requires Relative(file) && Relative(f) && Split(f).0 != ""
    requires PathFolders(file) == PathFolders(f) + Reverse(folders)
    ensures Relative(Split(f).0) && |Split(f).0| < |f|
    ensures PathFolders(file) == PathFolders(Split(f).0) + Reverse(folders + [Split(f).1])
  {
    var (head, tail) := Split(f);
    PathFoldersStep(f);
    ReverseSnoc(folders, tail);
    ConcatShift(PathFolders(f), PathFolders(head), Reverse(folders), Reverse(folders + [tail]), tail);
  }

  /** `generate_path_dependent_filename` as written: a `while True` loop
      that appends the tail of each split, moves on to the head, and
      reverses the folders before joining them with '_'. */
  method GeneratePathDependentFilename(file: string) returns (name: string)
    requires Relative(file)
    ensures name == Join("_", PathFolders(file))
    ensures name == PathDependentName(file)
  {
    var folders: seq<string> := [];
    var f := file;
    while true
      invariant Relative(f)
      invariant PathFolders(file) == PathFolders(f) + Reverse(folders)
      decreases |f|
    {
      var parts := Split(f);
      var path, folder := parts.0, parts.1;
      if path != "" {
        CollectStep(file, f, folders);
        folders := folders + [folder];
      } else {
        assert PathFolders(f) == [];
        break;
      }
      f := path;
    }
    folders := Reverse(folders);
    name := Join("_", folders);
    CollectedName(file, folders);
  }

  /** Joining the collected folders gives the path-dependent name. */
  lemma CollectedName(file: string, folders: seq<string>)
    requires Relative(file) && folders == PathFolders(file)
    ensures Join("_", folders) == PathDependentName(file)
  {
    FixedAgreesOnRelative(file);
  }

  /** The loop of `generate_path_dependent_filename` with the exit it needs
      for paths that start at the root: it also stops once splitting no
      longer changes the path (the root itself, `os.path.split("/") ==
      ("/", "")`). */
  function PathFoldersFixed(file: string): seq<string>
    decreases |file|
  {
    var (head, tail) := Split(file);
    if head == "" || head == file then [] else PathFoldersFixed(head) + [tail]
  }

  /** The path-derived name that `@path_name@` stands for. */
  function PathDependentName(file: string): string
  {
    Join("_", PathFoldersFixed(file))
  }

  /** On relative paths the corrected loop collects exactly what the
      source's loop collects. */
  lemma {:induction false} FixedAgreesOnRelative(file: string)
    requires Relative(file)
    ensures PathFoldersFixed(file) == PathFolders(file)
    decreases |file|
  {
    SplitOfRelative(file);
    var (head, tail) := Split(file);
    if head != "" {
      FixedAgreesOnRelative(head);
    }
  }

  /** For an absolute path, every path the source's loop reaches has a
      non-empty head again, so its only exit (`if path: ... else: break`) is
      never taken. */
  lemma {:induction false} AbsolutePathNeverExits(p: string, n: nat)
    requires p != "" && p[0] == '/'
    ensures Split(Iterate(p, n)).0 != ""
    ensures Iterate(p, n) != "" && Iterate(p, n)[0] == '/'
    decreases n
  {
    if n > 0 {
      var h := Split(p).0;
      assert h != "" && h[0] == p[0];
      AbsolutePathNeverExits(h, n - 1);
    }
    var q := Iterate(p, n);
    assert '/' in q;
  }

  /** The path the source's loop holds after `n` rounds. */
  function Iterate(p: string, n: nat): string
    decreases n
  {
    if n == 0 then p else Iterate(Split(p).0, n - 1)
  }

  /** The root is a fixpoint of `os.path.split`. */
  lemma RootIsFixpoint()
    ensures Split("/") == ("/", "")
  {
    assert AfterLastSlash("/") == 1;
    assert "/"[..1] == "/" && "/"[1..] == "";
    assert AllSlashes("/");
  }

  /** A path segment: non-empty and free of slashes. */
  predicate IsSegment(s: string)
  {
    s != "" && '/' !in s
  }

  /** Splitting `q/last` at the added slash gives back `q` and `last`
      when `q` neither starts nor ends with a slash. */
  lemma SplitAtJoin(q: string, last: string)
    requires q != "" && q[0] != '/' && q[|q| - 1] != '/'
    requires '/' !in last
    ensures Split(q + "/" + last) == (q, last)
  {
    var p := q + "/" + last;
    SplitAtAddedSlash(q, last);
    var head := p[..|q| + 1];
    assert head == q + "/";
    assert head[0] == q[0];
    assert !AllSlashes(head);
    assert head[..|head| - 1] == q;
    assert TrimRight(head, {'/'}) == q;
    assert p[|q| + 1..] == last;
  }

  /** `os.path.basename(a + "/" + b)` is `b` when `b` has no slash. */
  lemma BasenameAfterSlash(a: string, b: string)
    requires '/' !in b
    ensures Basename(a + "/" + b) == b
  {
    SplitAtAddedSlash(a, b);
    assert (a + "/" + b)[|a| + 1..] == b;
  }

  /** For a relative path `s0/s1/.../sn` the folders are `s1, ..., sn`: the
      first segment is dropped and the base name is kept. */
  lemma {:induction false} FoldersOfSegments(segs: seq<string>)
    requires |segs| >= 1
    requires forall k :: 0 <= k < |segs| ==> IsSegment(segs[k])
    ensures Join("/", segs) != "" && Relative(Join("/", segs))
    ensures Join("/", segs)[|Join("/", segs)| - 1] != '/'
    ensures PathFolders(Join("/", segs)) == segs[1..]
  {
    var p := Join("/", segs);
    if |segs| == 1 {
      assert p == segs[0];
    } else {
      var init := segs[..|segs| - 1];
      var last := segs[|segs| - 1];
      var q := Join("/", init);
      FoldersOfSegments(init);
      assert p == q + "/" + last;
      SplitAtJoin(q, last);
      SplitOfRelative(p);
      assert PathFolders(p) == PathFolders(q) + [last];
      assert init[1..] + [last] == segs[1..];
    }
  }

  /** A base name with no directory part has an empty path-derived name. */
  lemma BareNameHasEmptyPathName(file: string)
    requires '/' !in file
    ensures PathDependentName(file) == ""
  {
  }

  /** The path-derived name of `s0/s1/.../sn` is `s1_..._sn`. */
  lemma SegmentedPathName(segs: seq<string>)
    requires |segs| >= 1
    requires forall k :: 0 <= k < |segs| ==> IsSegment(segs[k])
    ensures PathDependentName(Join("/", segs)) == Join("_", segs[1..])
  {
    FoldersOfSegments(segs);
    FixedAgreesOnRelative(Join("/", segs));
  }

  /** Splitting `/q/last` at the added slash gives back `/q` and `last`
      when `q` neither starts nor ends with a slash. */
  lemma SplitAtRootedJoin(q: string, last: string)
    requires q != "" && q[0] != '/' && q[|q| - 1] != '/'
    requires '/' !in last
    ensures Split("/" + q + "/" + last) == ("/" + q, last)
  {
    var p := "/" + q + "/" + last;
    assert p == ("/" + q) + "/" + last;
    SplitAtAddedSlash("/" + q, last);
    var head := p[..|q| + 2];
    assert head == "/" + q + "/";
    assert head[1] == q[0];
    assert !AllSlashes(head);
    assert head[..|head| - 1] == "/" + q;
    assert TrimRight(head, {'/'}) == "/" + q;
    assert p[|q| + 2..] == last;
  }

  /** The corrected loop on `/s`: one folder, then the root stops it. */
  lemma RootedSingle(seg: string)
    requires IsSegment(seg)
    ensures PathFoldersFixed("/" + seg) == [seg]
  {
    var p := "/" + seg;
    assert p == "" + "/" + seg;
    SplitAtAddedSlash("", seg);
    assert p[..1] == "/" && AllSlashes("/");
    assert p[1..] == seg;
    assert Split(p) == ("/", seg);
    RootIsFixpoint();
    assert PathFoldersFixed("/") == [];
  }

  /** One round of the corrected loop on `/q/last`. */
  lemma RootedStep(q: string, last: string)
    requires q != "" && q[0] != '/' && q[|q| - 1] != '/'
    requires '/' !in last
    ensures PathFoldersFixed("/" + (q + "/" + last)) == PathFoldersFixed("/" + q) + [last]
  {
    SplitAtRootedJoin(q, last);
    var p := "/" + q + "/" + last;
    assert "/" + (q + "/" + last) == p;
    assert |"/" + q| < |p|;
    assert "/" + q != p;
  }

  /** With the corrected loop an absolute path `/s1/.../sn` keeps all its
      segments: only the root is dropped. */
  lemma {:induction false} RootedFolders(segs: seq<string>)
    requires |segs| >= 1
    requires forall k :: 0 <= k < |segs| ==> IsSegment(segs[k])
    ensures PathFoldersFixed("/" + Join("/", segs)) == segs
  {
    if |segs| == 1 {
      assert Join("/", segs) == segs[0];
      RootedSingle(segs[0]);
    } else {
      var init := segs[..|segs| - 1];
      var last := segs[|segs| - 1];
      assert segs == init + [last];
      var q := Join("/", init);
      FoldersOfSegments(init);
      RootedFolders(init);
      JoinSnoc("/", init, last);
      RootedStep(q, last);
      assert Join("/", segs) == q + "/" + last;
    }
  }

  /** The path-derived name of `/s1/.../sn` is `s1_..._sn`. */
  lemma RootedPathName(segs: seq<string>)
    requires |segs| >= 1
    requires forall k :: 0 <= k < |segs| ==> IsSegment(segs[k])
    ensures PathDependentName("/" + Join("/", segs)) == Join("_", segs)
  {
    RootedFolders(segs);
  }

  lemma JoinAB()
    ensures Join("/", ["a", "b"]) == "a/b"
  {
    JoinSnoc("/", ["a"], "b");
  }

  lemma JoinABC()
    ensures Join("/", ["a", "b", "c"]) == "a/b/c"
  {
    JoinAB();
    JoinSnoc("/", ["a", "b"], "c");
  }

  /** `a/b/c/test.in` is the join of its four segments. */
  lemma ExampleSegments(segs: seq<string>)
    requires segs == ["a", "b", "c", "test.in"]
    ensures Join("/", segs) == "a/b/c/test.in"
  {
    JoinABC();
    assert segs == ["a", "b", "c"] + ["test.in"];
    JoinSnoc("/", ["a", "b", "c"], "test.in");
  }

  /** None of `a`, `b`, `c`, `test.in` is empty or holds a slash. */
  lemma ExampleAreSegments(segs: seq<string>)
    requires segs == ["a", "b", "c", "test.in"]
    ensures forall k :: 0 <= k < |segs| ==> IsSegment(segs[k])
  {
    assert IsSegment(segs[3]);
  }

  /** `b_c_test.in` is the '_'-join of `b`, `c` and `test.in`. */
  lemma ExampleUnderscores(names: seq<string>)
    requires names == ["b", "c", "test.in"]
    ensures Join("_", names) == "b_c_test.in"
  {
    JoinSnoc("_", ["b"], "c");
    assert names == ["b", "c"] + ["test.in"];
    JoinSnoc("_", ["b", "c"], "test.in");
  }

  /** The worked example: `a/b/c/test.in` gives `b_c_test.in`. */
  lemma ExamplePathName(p: string)
    requires p == "a/b/c/test.in"
    ensures PathDependentName(p) == "b_c_test.in"
  {
    var segs := ["a", "b", "c", "test.in"];
    ExampleSegments(segs);
    ExampleAreSegments(segs);
    SegmentedPathName(segs);
    ExampleUnderscores(segs[1..]);
  }

  // ---------------------------------------------------------------------
  // replace_placeholders

  /** `replace_placeholders(string, file, repetition, date, config_name)`:
      five `str.replace` calls in a fixed order (date, file name, repetition,
      path name, configuration name), each rescanning the output of the
      previous one. `rep` is `str(repetition)`; the source's defaults are
      `file = ""`, `rep = PlaceholderRep` and `configName =
      PlaceholderConfigName`. With an empty `file` the file-name and
      path-name tokens are replaced by themselves. */
  function ReplacePlaceholders(s: string, file: string, rep: string, date: string,
                               configName: string): string
  {
    var fileName := if file != "" then Basename(file) else PlaceholderFileName;
    var pathName := if file != "" then PathDependentName(file) else PlaceholderPathDependentFileName;
    Replace(Replace(Replace(Replace(Replace(s, PlaceholderDate, date),
                                    PlaceholderFileName, fileName),
                            PlaceholderRep, rep),
                    PlaceholderPathDependentFileName, pathName),
            PlaceholderConfigName, configName)
  }

  /** A template without any of the five tokens is returned unchanged. */
  lemma NoPlaceholderUnchanged(s: string, file: string, rep: string, date: string,
                               configName: string)
    requires !Occurs(s, PlaceholderDate) && !Occurs(s, PlaceholderFileName)
    requires !Occurs(s, PlaceholderRep) && !Occurs(s, PlaceholderPathDependentFileName)
    requires !Occurs(s, PlaceholderConfigName)
    ensures ReplacePlaceholders(s, file, rep, date, configName) == s
  {
    ReplaceAbsent(s, PlaceholderDate, date);
    var fileName := if file != "" then Basename(file) else PlaceholderFileName;
    var pathName := if file != "" then PathDependentName(file) else PlaceholderPathDependentFileName;
    ReplaceAbsent(s, PlaceholderFileName, fileName);
    ReplaceAbsent(s, PlaceholderRep, rep);
    ReplaceAbsent(s, PlaceholderPathDependentFileName, pathName);
    ReplaceAbsent(s, PlaceholderConfigName, configName);
  }

  /** Without a file, `@file_name@` and `@path_name@` survive: only the
      date, repetition and configuration tokens are substituted. */
  lemma EmptyFileKeepsFileTokens(s: string, rep: string, date: string, configName: string)
    ensures ReplacePlaceholders(s, "", rep, date, configName)
         == Replace(Replace(Replace(s, PlaceholderDate, date), PlaceholderRep, rep),
                    PlaceholderConfigName, configName)
  {
    var s1 := Replace(s, PlaceholderDate, date);
    ReplaceSelf(s1, PlaceholderFileName);
    var s3 := Replace(s1, PlaceholderRep, rep);
    ReplaceSelf(s3, PlaceholderPathDependentFileName);
  }

  /** With every default argument only `@date@` is substituted: the
      default repetition and configuration name equal their own tokens. */
  lemma DefaultsReplaceOnlyDate(s: string, date: string)
    ensures ReplacePlaceholders(s, "", PlaceholderRep, date, PlaceholderConfigName)
         == Replace(s, PlaceholderDate, date)
  {
    EmptyFileKeepsFileTokens(s, PlaceholderRep, date, PlaceholderConfigName);
    var s1 := Replace(s, PlaceholderDate, date);
    ReplaceSelf(s1, PlaceholderRep);
    ReplaceSelf(s1, PlaceholderConfigName);
  }

  /** Replacing a whole pattern gives the replacement. */
  lemma ReplaceWhole(pat: string, rep: string)
    requires pat != []
    ensures Replace(pat, pat, rep) == rep
  {
    assert pat[..|pat|] == pat;
    assert pat[|pat|..] == [];
  }

  /** The date step leaves `@file_name@` alone: the token has no 'd'. */
  lemma DateStepKeepsFileToken(date: string)
    ensures Replace(PlaceholderFileName, PlaceholderDate, date) == PlaceholderFileName
  {
    NotOccursByChar(PlaceholderFileName, PlaceholderDate, 1);
    ReplaceAbsent(PlaceholderFileName, PlaceholderDate, date);
  }

  /** With a file, every `@file_name@` of a template becomes the file's base
      name and nothing else changes, as long as the template has no
      `@date@` and the text after that step holds none of the later tokens:
      none in the template, none in the base name and none formed where
      the base name meets the template's text (`InsertedTextIsRescanned`
      shows that such a token would be substituted too). */
  lemma FileNameTokenIsBasename(s: string, file: string, rep: string, date: string, configName: string)
    requires file != "" && !Occurs(s, PlaceholderDate)
    requires !Occurs(Replace(s, PlaceholderFileName, Basename(file)), PlaceholderRep)
    requires !Occurs(Replace(s, PlaceholderFileName, Basename(file)), PlaceholderPathDependentFileName)
    requires !Occurs(Replace(s, PlaceholderFileName, Basename(file)), PlaceholderConfigName)
    ensures ReplacePlaceholders(s, file, rep, date, configName) == Replace(s, PlaceholderFileName, Basename(file))
  {
    ReplaceAbsent(s, PlaceholderDate, date);
    var t := Replace(s, PlaceholderFileName, Basename(file));
    ReplaceAbsent(t, PlaceholderRep, rep);
    ReplaceAbsent(t, PlaceholderPathDependentFileName, PathDependentName(file));
    ReplaceAbsent(t, PlaceholderConfigName, configName);
  }

  /** In particular the lone token becomes the base name, as long as the
      base name itself carries none of the later tokens. */
  lemma FileNameTokenAlone(file: string, rep: string, date: string, configName: string)
    requires file != ""
    requires !Occurs(Basename(file), PlaceholderRep)
    requires !Occurs(Basename(file), PlaceholderPathDependentFileName)
    requires !Occurs(Basename(file), PlaceholderConfigName)
    ensures ReplacePlaceholders(PlaceholderFileName, file, rep, date, configName) == Basename(file)
  {
    NotOccursByChar(PlaceholderFileName, PlaceholderDate, 1);
    ReplaceWhole(PlaceholderFileName, Basename(file));
    FileNameTokenIsBasename(PlaceholderFileName, file, rep, date, configName);
  }

  /** The repetition step on `@rep@.sil`. */
  lemma RepStepExample()
    ensures Replace("@rep@.sil", PlaceholderRep, "3") == "3.sil"
  {
    var s := "@rep@.sil";
    assert s[..5] == PlaceholderRep;
    assert s[5..] == ".sil";
    assert Replace(".sil", PlaceholderRep, "3") == ".sil";
  }

  /** Substitution is sequential: text inserted by an earlier step is
      rescanned by the later ones. A file whose base name is `@rep@.sil`
      turns `@file_name@` into `3.sil` at repetition 3. */
  lemma InsertedTextIsRescanned(date: string, configName: string)
    ensures ReplacePlaceholders(PlaceholderFileName, "tests/@rep@.sil", "3", date, configName)
         == "3.sil"
  {
    var file := "tests/@rep@.sil";
    assert file == "tests" + "/" + "@rep@.sil";
    BasenameAfterSlash("tests", "@rep@.sil");
    DateStepKeepsFileToken(date);
    ReplaceWhole(PlaceholderFileName, "@rep@.sil");
    RepStepExample();
    NotOccursInShorter("3.sil", PlaceholderPathDependentFileName);
    ReplaceAbsent("3.sil", PlaceholderPathDependentFileName, PathDependentName(file));
    NotOccursInShorter("3.sil", PlaceholderConfigName);
    ReplaceAbsent("3.sil", PlaceholderConfigName, configName);
  }
}
