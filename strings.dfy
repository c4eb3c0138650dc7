/** String and sequence helpers that model the handful of Python `str`
    operations the harness relies on: `replace`, `join`, `strip`,
    `split(" ", maxsplit=1)`, `startswith`/`endswith` and `str()` of
    integers and booleans. */
module Strings {

  datatype Option<T> = None | Some(value: T)

  datatype Result<T, E> = Ok(value: T) | Err(error: E)

  // ---------------------------------------------------------------------
  // Occurrences and str.replace

  /** `pat` occurs in `s` at index `i`. */
  predicate OccursAt(s: string, pat: string, i: nat)
  {
    i + |pat| <= |s| && s[i..i + |pat|] == pat
  }

  /** `pat in s` for a non-empty `pat`. */
  predicate Occurs(s: string, pat: string)
  {
    exists i: nat | i <= |s| :: OccursAt(s, pat, i)
  }

  /** Python's `s.replace(pat, rep)` for a non-empty `pat`: every
      non-overlapping occurrence, scanning left to right, is replaced. */
  function Replace(s: string, pat: string, rep: string): string
    requires pat != []
    decreases |s|
  {
    if |s| < |pat| then s
    else if s[..|pat|] == pat then rep + Replace(s[|pat|..], pat, rep)
    else [s[0]] + Replace(s[1..], pat, rep)
  }

  /** A string in which the pattern does not occur is returned unchanged. */
  lemma {:induction false} ReplaceAbsent(s: string, pat: string, rep: string)
    requires pat != []
    requires !Occurs(s, pat)
    ensures Replace(s, pat, rep) == s
    decreases |s|
  {
    if |s| >= |pat| {
      assert !OccursAt(s, pat, 0);
      assert s[0..|pat|] == s[..|pat|];
      if Occurs(s[1..], pat) {
        var i: nat :| i <= |s[1..]| && OccursAt(s[1..], pat, i);
        assert i + |pat| <= |s| - 1;
        assert s[1..][i..i + |pat|] == s[i + 1..i + 1 + |pat|];
        assert OccursAt(s, pat, i + 1);
        assert false;
      }
      ReplaceAbsent(s[1..], pat, rep);
      assert [s[0]] + s[1..] == s;
    }
  }

  /** Replacing a pattern by itself is the identity. */
  lemma {:induction false} ReplaceSelf(s: string, pat: string)
    requires pat != []
    ensures Replace(s, pat, pat) == s
    decreases |s|
  {
    if |s| >= |pat| {
      if s[..|pat|] == pat {
        ReplaceSelf(s[|pat|..], pat);
        assert s[..|pat|] + s[|pat|..] == s;
      } else {
        ReplaceSelf(s[1..], pat);
        assert [s[0]] + s[1..] == s;
      }
    }
  }

  // ---------------------------------------------------------------------
  // Prefixes, suffixes, characters

  predicate StartsWith(s: string, prefix: string)
  {
    |prefix| <= |s| && s[..|prefix|] == prefix
  }

  predicate EndsWith(s: string, suffix: string)
  {
    |suffix| <= |s| && s[|s| - |suffix|..] == suffix
  }

  /** True iff `s` ends with some entry of `suffixes`: Python's
      `s.endswith(tuple(suffixes))`, which is false for an empty tuple. */
  predicate EndsWithAny(s: string, suffixes: seq<string>)
  {
    exists k :: 0 <= k < |suffixes| && EndsWith(s, suffixes[k])
  }

  /** The number of occurrences of character `c` in `s`. */
  function Count(s: string, c: char): (n: nat)
    ensures n <= |s|
    ensures n == 0 <==> c !in s
  {
    if s == [] then 0 else (if s[0] == c then 1 else 0) + Count(s[1..], c)
  }

  lemma {:induction false} CountConcat(a: string, b: string, c: char)
    ensures Count(a + b, c) == Count(a, c) + Count(b, c)
  {
    if a != [] {
      assert (a + b)[1..] == a[1..] + b;
      CountConcat(a[1..], b, c);
    } else {
      assert a + b == b;
    }
  }

  /** The number of places where `a` is immediately followed by `b`. For
      `", "`, which cannot overlap itself, this is Python's
      `s.count(", ")`, and `s.split(", ")` yields one part more. */
  function CountPair(s: string, a: char, b: char): nat
    decreases |s|
  {
    if |s| < 2 then 0 else (if s[0] == a && s[1] == b then 1 else 0) + CountPair(s[1..], a, b)
  }

  /** The pairs of a concatenation are those of each part, plus one where
      the parts meet when the first ends in `a` and the second starts
      with `b`. */
  lemma {:induction false} CountPairConcat(x: string, y: string, a: char, b: char)
    ensures CountPair(x + y, a, b)
         == CountPair(x, a, b) + CountPair(y, a, b)
            + (if x != [] && y != [] && x[|x| - 1] == a && y[0] == b then 1 else 0)
    decreases |x|
  {
    if x == [] {
      assert x + y == y;
    } else if |x| == 1 {
      if y != [] {
        assert (x + y)[1..] == y;
      }
    } else {
      assert (x + y)[1..] == x[1..] + y;
      CountPairConcat(x[1..], y, a, b);
    }
  }

  /** A string in which `a` is never followed by `b` has no such pair. */
  lemma {:induction false} CountPairAbsent(s: string, a: char, b: char)
    requires !Occurs(s, [a, b])
    ensures CountPair(s, a, b) == 0
    decreases |s|
  {
    if |s| >= 2 {
      assert !OccursAt(s, [a, b], 0);
      assert s[0..2] == [s[0], s[1]];
      forall i: nat | i <= |s[1..]|
        ensures !OccursAt(s[1..], [a, b], i)
      {
        assert !OccursAt(s, [a, b], i + 1);
        if i + 2 <= |s[1..]| {
          assert s[1..][i..i + 2] == s[i + 1..i + 3];
        }
      }
      CountPairAbsent(s[1..], a, b);
    }
  }

  // ---------------------------------------------------------------------
  // str.join

  /** Python's `sep.join(xs)`. */
  function Join(sep: string, xs: seq<string>): string
  {
    if |xs| == 0 then ""
    else if |xs| == 1 then xs[0]
    else Join(sep, xs[..|xs| - 1]) + sep + xs[|xs| - 1]
  }

  /** Joining one more element appends the separator and the element. */
  lemma JoinSnoc(sep: string, xs: seq<string>, x: string)
    requires |xs| >= 1
    ensures Join(sep, xs + [x]) == Join(sep, xs) + sep + x
  {
    assert (xs + [x])[..|xs|] == xs;
  }

  /** When no element contains `c` and the separator contains it once, a
      join of n elements contains `c` exactly n - 1 times; so the number
      of fields can be read off the joined text. */
  lemma {:induction false} CountJoin(sep: string, xs: seq<string>, c: char)
    requires |xs| >= 1
    requires Count(sep, c) == 1
    requires forall k :: 0 <= k < |xs| ==> c !in xs[k]
    ensures Count(Join(sep, xs), c) == |xs| - 1
  {
    if |xs| > 1 {
      var init := xs[..|xs| - 1];
      CountJoin(sep, init, c);
      CountConcat(Join(sep, init), sep, c);
      CountConcat(Join(sep, init) + sep, xs[|xs| - 1], c);
    }
  }

  /** When no element holds the pair, the separator holds it once, and the
      separator neither starts with `b` nor ends with `a`, a join of n
      elements holds the pair exactly n - 1 times. */
  lemma {:induction false} CountPairJoin(sep: string, xs: seq<string>, a: char, b: char)
    requires |xs| >= 1
    requires CountPair(sep, a, b) == 1 && sep != [] && sep[0] != b && sep[|sep| - 1] != a
    requires forall k :: 0 <= k < |xs| ==> CountPair(xs[k], a, b) == 0
    ensures CountPair(Join(sep, xs), a, b) == |xs| - 1
  {
    if |xs| > 1 {
      var init := xs[..|xs| - 1];
      var j := Join(sep, init);
      CountPairJoin(sep, init, a, b);
      CountPairConcat(j, sep, a, b);
      CountPairConcat(j + sep, xs[|xs| - 1], a, b);
      assert (j + sep)[|j + sep| - 1] == sep[|sep| - 1];
    }
  }

  /** `c` occurs in a join only through an element or the separator. */
  lemma {:induction false} JoinAvoids(sep: string, xs: seq<string>, c: char)
    requires c !in sep
    requires forall k :: 0 <= k < |xs| ==> c !in xs[k]
    ensures c !in Join(sep, xs)
  {
    if |xs| > 1 {
      JoinAvoids(sep, xs[..|xs| - 1], c);
    }
  }

  /** A join begins with its first element. */
  lemma {:induction false} JoinStartsWith(sep: string, xs: seq<string>)
    requires |xs| >= 1
    ensures StartsWith(Join(sep, xs), xs[0])
  {
    if |xs| > 1 {
      JoinStartsWith(sep, xs[..|xs| - 1]);
      var j := Join(sep, xs[..|xs| - 1]);
      assert (j + sep + xs[|xs| - 1])[..|xs[0]|] == j[..|xs[0]|];
    }
  }

  /** `list.reverse()`, as a value. */
  function Reverse<T>(s: seq<T>): (r: seq<T>)
    ensures |r| == |s|
  {
    if s == [] then [] else [s[|s| - 1]] + Reverse(s[..|s| - 1])
  }

  /** A prefix one longer is the prefix and the next element. */
  lemma PrefixSnoc<T>(s: seq<T>, j: nat)
    requires j < |s|
    ensures s[..j + 1] == s[..j] + [s[j]]
  {
  }

  /** Reversing after appending puts the new element first. */
  lemma ReverseSnoc<T>(s: seq<T>, x: T)
    ensures Reverse(s + [x]) == [x] + Reverse(s)
  {
    assert (s + [x])[..|s|] == s;
  }

  /** A character that a pattern needs but a string lacks rules the
      pattern out. */
  lemma NotOccursByChar(s: string, pat: string, k: nat)
    requires k < |pat| && pat[k] !in s
    ensures !Occurs(s, pat)
  {
  }

  /** A pattern shorter than itself cannot occur. */
  lemma NotOccursInShorter(s: string, pat: string)
    requires |s| < |pat|
    ensures !Occurs(s, pat)
  {
  }

  // ---------------------------------------------------------------------
  // str.strip

  /** `s.lstrip(chars)`. */
  function TrimLeft(s: string, chars: set<char>): (r: string)
    ensures |r| <= |s| && r == s[|s| - |r|..]
    ensures forall k :: 0 <= k < |s| - |r| ==> s[k] in chars
    ensures r == [] || r[0] !in chars
  {
    if s != [] && s[0] in chars then TrimLeft(s[1..], chars) else s
  }

  /** `s.rstrip(chars)`. */
  function TrimRight(s: string, chars: set<char>): (r: string)
    ensures |r| <= |s| && r == s[..|r|]
    ensures forall k :: |r| <= k < |s| ==> s[k] in chars
    ensures r == [] || r[|r| - 1] !in chars
  {
    if s != [] && s[|s| - 1] in chars then TrimRight(s[..|s| - 1], chars) else s
  }

  /** `s.strip(chars)`. */
  function Strip(s: string, chars: set<char>): (r: string)
    ensures r == [] || (r[0] !in chars && r[|r| - 1] !in chars)
    ensures (forall k :: 0 <= k < |s| ==> s[k] in chars) <==> r == []
  {
    var l := TrimLeft(s, chars);
    var r := TrimRight(l, chars);
    assert r != [] ==> l[0] == r[0];
    r
  }

  /** The characters Python's argument-less `str.strip()` removes
      (`str.isspace`). */
  const Whitespace: set<char> :=
    {' ', '\t', '\n', '\r', '\U{B}', '\U{C}', '\U{1C}', '\U{1D}', '\U{1E}', '\U{1F}',
     '\U{85}', '\U{A0}', '\U{1680}', '\U{2000}', '\U{2001}', '\U{2002}', '\U{2003}',
     '\U{2004}', '\U{2005}', '\U{2006}', '\U{2007}', '\U{2008}', '\U{2009}', '\U{200A}',
     '\U{2028}', '\U{2029}', '\U{202F}', '\U{205F}', '\U{3000}'}

  // ---------------------------------------------------------------------
  // str.split(c, maxsplit=1)

  /** The index of the first `c` in `s`, or `|s|` if there is none. */
  function IndexOf(s: string, c: char): (i: nat)
    ensures i <= |s|
    ensures i < |s| ==> s[i] == c
    ensures forall j :: 0 <= j < i ==> s[j] != c
    ensures i == |s| <==> c !in s
  {
    if s == [] then 0 else if s[0] == c then 0 else 1 + IndexOf(s[1..], c)
  }

  /** Python's `s.split(c, maxsplit=1)` for a one-character separator. */
  function SplitOnce(s: string, c: char): (parts: seq<string>)
    ensures 1 <= |parts| <= 2
    ensures |parts| == 1 <==> c !in s
    ensures |parts| == 1 ==> parts[0] == s
    ensures |parts| == 2 ==> parts[0] + [c] + parts[1] == s && c !in parts[0]
  {
    var i := IndexOf(s, c);
    if i == |s| then [s]
    else
      assert s[..i] + [c] + s[i + 1..] == s;
      [s[..i], s[i + 1..]]
  }

  // ---------------------------------------------------------------------
  // str() of integers and booleans

  function DigitChar(d: nat): (c: char)
    requires d < 10
    ensures '0' <= c <= '9'
  {
    "0123456789"[d]
  }

  /** `str(n)` for a non-negative integer. */
  function NatToString(n: nat): (s: string)
    ensures s != []
    ensures forall k :: 0 <= k < |s| ==> '0' <= s[k] <= '9'
  {
    if n < 10 then [DigitChar(n)] else NatToString(n / 10) + [DigitChar(n % 10)]
  }

  /** `str(i)` for any integer. */
  function IntToString(i: int): string
  {
    if i < 0 then "-" + NatToString(-i) else NatToString(i)
  }

  /** `str(i)` holds only digits and a leading minus sign. */
  lemma IntToStringAvoids(i: int, c: char)
    requires c != '-' && !('0' <= c <= '9')
    ensures c !in IntToString(i)
  {
    var n := if i < 0 then -i else i;
    assert forall k :: 0 <= k < |NatToString(n)| ==> NatToString(n)[k] != c;
    if i < 0 {
      assert IntToString(i) == "-" + NatToString(n);
      assert forall k :: 0 <= k < |IntToString(i)| ==> IntToString(i)[k] != c;
    }
  }

  /** `str(b)` for a boolean. */
  function BoolToString(b: bool): string
  {
    if b then "True" else "False"
  }

  // ---------------------------------------------------------------------
  // Lines of a text file

  /** The text `print(line, file=f)` leaves after printing each line in
      turn: every line followed by a newline. */
  function LinesOf(lines: seq<string>): string
  {
    if lines == [] then "" else lines[0] + "\n" + LinesOf(lines[1..])
  }

  /** Printing one more line appends it and a newline. */
  lemma {:induction false} LinesOfSnoc(lines: seq<string>, line: string)
    ensures LinesOf(lines + [line]) == LinesOf(lines) + line + "\n"
  {
    if lines == [] {
      assert [] + [line] == [line];
      assert [line][1..] == [];
    } else {
      assert (lines + [line])[1..] == lines[1..] + [line];
      LinesOfSnoc(lines[1..], line);
    }
  }

  /** The lines of a text: the pieces between newlines, where a final
      newline ends the last line rather than starting an empty one. */
  function SplitLines(text: string): seq<string>
    decreases |text|
  {
    if text == "" then []
    else
      var i := IndexOf(text, '\n');
      if i == |text| then [text] else [text[..i]] + SplitLines(text[i + 1..])
  }

  /** A line without a newline, printed before `rest`, is the first line. */
  lemma SplitLinesPrefix(line: string, rest: string)
    requires '\n' !in line
    ensures SplitLines(line + "\n" + rest) == [line] + SplitLines(rest)
  {
    var text := line + "\n" + rest;
    assert text[|line|] == '\n';
    assert forall j :: 0 <= j < |line| ==> text[j] == line[j];
    assert IndexOf(text, '\n') == |line|;
    assert text[..|line|] == line;
    assert text[|line| + 1..] == rest;
  }

  /** Printed lines followed by more text read back as those lines
      followed by the lines of the rest. */
  lemma {:induction false} SplitLinesAfterLines(lines: seq<string>, rest: string)
    requires forall k :: 0 <= k < |lines| ==> '\n' !in lines[k]
    ensures SplitLines(LinesOf(lines) + rest) == lines + SplitLines(rest)
  {
    if lines == [] {
      assert LinesOf(lines) + rest == rest;
    } else {
      var tail := lines[1..];
      calc {
        SplitLines(LinesOf(lines) + rest);
        { assert LinesOf(lines) + rest == lines[0] + "\n" + (LinesOf(tail) + rest); }
        SplitLines(lines[0] + "\n" + (LinesOf(tail) + rest));
        { SplitLinesPrefix(lines[0], LinesOf(tail) + rest); }
        [lines[0]] + SplitLines(LinesOf(tail) + rest);
        { SplitLinesAfterLines(tail, rest); }
        [lines[0]] + (tail + SplitLines(rest));
        { assert lines == [lines[0]] + tail; }
        lines + SplitLines(rest);
      }
    }
  }

  /** Reading back the printed lines gives the lines, as long as none of
      them holds a newline. */
  lemma {:induction false} SplitLinesOfLines(lines: seq<string>)
    requires forall k :: 0 <= k < |lines| ==> '\n' !in lines[k]
    ensures SplitLines(LinesOf(lines)) == lines
  {
    if lines != [] {
      SplitLinesPrefix(lines[0], LinesOf(lines[1..]));
      SplitLinesOfLines(lines[1..]);
    }
  }

  /** Printing two groups of lines is printing their concatenation. */
  lemma {:induction false} LinesOfConcat(a: seq<string>, b: seq<string>)
    ensures LinesOf(a + b) == LinesOf(a) + LinesOf(b)
  {
    if a == [] {
      assert a + b == b;
    } else {
      assert (a + b)[1..] == a[1..] + b;
      LinesOfConcat(a[1..], b);
    }
  }

  // ---------------------------------------------------------------------
  // Reading decimal integers back

  predicate IsDigits(s: string)
  {
    forall k :: 0 <= k < |s| ==> '0' <= s[k] <= '9'
  }

  /** The value of a string of decimal digits. */
  function DigitsValue(s: string): nat
    requires IsDigits(s)
  {
    if s == [] then 0 else 10 * DigitsValue(s[..|s| - 1]) + (s[|s| - 1] as int - '0' as int)
  }

  /** Python's `int()` on an optional minus sign followed by digits. */
  function ParseDecimal(s: string): Option<int>
  {
    if s != [] && s[0] == '-' && |s| > 1 && IsDigits(s[1..]) then Some(-(DigitsValue(s[1..]) as int))
    else if s != [] && IsDigits(s) then Some(DigitsValue(s) as int)
    else None
  }

  lemma DigitCharValue(d: nat)
    requires d < 10
    ensures DigitChar(d) as int - '0' as int == d
  {
  }

  /** Reading back `str(n)` gives `n`. */
  lemma {:induction false} NatToStringValue(n: nat)
    ensures DigitsValue(NatToString(n)) == n
  {
    var s := NatToString(n);
    if n < 10 {
      DigitCharValue(n);
      assert s[..0] == [];
    } else {
      DigitCharValue(n % 10);
      assert s[..|s| - 1] == NatToString(n / 10);
      NatToStringValue(n / 10);
    }
  }

  /** `int()` of a minus sign and digits. */
  lemma ParseNegative(t: string)
    requires t != [] && IsDigits(t)
    ensures ParseDecimal("-" + t) == Some(-(DigitsValue(t) as int))
  {
    var s := "-" + t;
    assert s[1..] == t;
  }

  /** `int()` of digits alone. */
  lemma ParseDigits(t: string)
    requires t != [] && IsDigits(t)
    ensures ParseDecimal(t) == Some(DigitsValue(t) as int)
  {
    assert t[0] != '-';
  }

  /** Reading back `str(i)` gives `i`: the rendering loses nothing. */
  lemma IntToStringRoundTrip(i: int)
    ensures ParseDecimal(IntToString(i)) == Some(i)
  {
    var n: nat := if i < 0 then -i else i;
    var t := NatToString(n);
    NatToStringValue(n);
    assert IsDigits(t);
    if i < 0 {
      assert IntToString(i) == "-" + t;
      ParseNegative(t);
    } else {
      assert IntToString(i) == t;
      ParseDigits(t);
    }
  }
}
