/** The result store: every single run's result, keyed by input file in
    the order the files were first seen, three counters, and the per-file
    grouping by run configuration with each group's mean running time. */
module Result {
  import Strings

  /** One run of one configuration on one input file. */
  datatype SingleRunResult = SingleRunResult(
    configName: string,
    timeElapsed: real,
    inputFile: string,
    timeoutOccurred: bool,
    returnCode: int)

  /** `SingleRunResult(config_name, file_name)`: no time yet, no timeout,
      exit code 0. */
  function NewSingleRunResult(configName: string, fileName: string): SingleRunResult
  {
    SingleRunResult(configName, -1.0, fileName, false, 0)
  }

  /** `if result.return_code:` a non-zero exit code counts as an error. */
  predicate IsError(r: SingleRunResult)
  {
    r.returnCode != 0
  }

  // ---------------------------------------------------------------------
  // Counting

  /** The three counters `add_results` keeps. */
  datatype Counter = Measurements | Timeouts | Errors

  /** Whether a result raises the given counter: every result is a
      measurement; `timeout_occurred` raises the timeouts; a non-zero exit
      code raises the errors. */
  predicate Raises(c: Counter, r: SingleRunResult)
  {
    match c
    case Measurements => true
    case Timeouts => r.timeoutOccurred
    case Errors => IsError(r)
  }

  /** How much `add_results(xs)` raises counter `c`. */
  function CountOf(c: Counter, xs: seq<SingleRunResult>): (n: nat)
    ensures n <= |xs|
  {
    if xs == [] then 0 else (if Raises(c, xs[0]) then 1 else 0) + CountOf(c, xs[1..])
  }

  /** Every result is a measurement. */
  lemma {:induction false} MeasurementsCountAll(xs: seq<SingleRunResult>)
    ensures CountOf(Measurements, xs) == |xs|
  {
    if xs != [] {
      MeasurementsCountAll(xs[1..]);
    }
  }

  lemma {:induction false} CountOfConcat(c: Counter, xs: seq<SingleRunResult>, ys: seq<SingleRunResult>)
    ensures CountOf(c, xs + ys) == CountOf(c, xs) + CountOf(c, ys)
  {
    if xs == [] {
      assert xs + ys == ys;
    } else {
      assert (xs + ys)[1..] == xs[1..] + ys;
      CountOfConcat(c, xs[1..], ys);
    }
  }

  lemma CountOfSingle(c: Counter, r: SingleRunResult)
    ensures CountOf(c, [r]) == if Raises(c, r) then 1 else 0
  {
    assert [r][1..] == [];
  }

  /** A fresh result is counted as a measurement but neither as a timeout
      nor as an error, and carries a negative time. */
  lemma FreshResultIsNeutral(configName: string, fileName: string)
    ensures CountOf(Measurements, [NewSingleRunResult(configName, fileName)]) == 1
    ensures CountOf(Timeouts, [NewSingleRunResult(configName, fileName)]) == 0
    ensures CountOf(Errors, [NewSingleRunResult(configName, fileName)]) == 0
    ensures NewSingleRunResult(configName, fileName).timeElapsed < 0.0
  {
    var r := NewSingleRunResult(configName, fileName);
    CountOfSingle(Measurements, r);
    CountOfSingle(Timeouts, r);
    CountOfSingle(Errors, r);
  }

  predicate Distinct<T(==)>(s: seq<T>)
  {
    forall i, j :: 0 <= i < j < |s| ==> s[i] != s[j]
  }

  /** The sum of counter `c` over the lists of all files in `order`. */
  function SumCount(c: Counter, order: seq<string>, m: map<string, seq<SingleRunResult>>): nat
    requires forall k :: 0 <= k < |order| ==> order[k] in m
  {
    if order == [] then 0
    else SumCount(c, order[..|order| - 1], m) + CountOf(c, m[order[|order| - 1]])
  }

  /** No counter exceeds the number of measurements. */
  lemma {:induction false} SumCountBounded(c: Counter, order: seq<string>, m: map<string, seq<SingleRunResult>>)
    requires forall k :: 0 <= k < |order| ==> order[k] in m
    ensures SumCount(c, order, m) <= SumCount(Measurements, order, m)
  {
    if order != [] {
      var f := order[|order| - 1];
      SumCountBounded(c, order[..|order| - 1], m);
      MeasurementsCountAll(m[f]);
    }
  }

  /** Changing the list of a file outside `order` does not change the sum. */
  lemma {:induction false} SumCountOther(c: Counter, order: seq<string>, m: map<string, seq<SingleRunResult>>,
                                         f: string, xs: seq<SingleRunResult>)
    requires forall k :: 0 <= k < |order| ==> order[k] in m
    requires f !in order
    ensures SumCount(c, order, m[f := xs]) == SumCount(c, order, m)
    decreases |order|
  {
    if order != [] {
      SumCountOther(c, order[..|order| - 1], m, f, xs);
    }
  }

  /** Appending to the list of one file adds exactly the new results'
      count to the sum. */
  lemma {:induction false} SumCountAppend(c: Counter, order: seq<string>, m: map<string, seq<SingleRunResult>>,
                                          f: string, ys: seq<SingleRunResult>)
    requires forall k :: 0 <= k < |order| ==> order[k] in m
    requires Distinct(order) && f in order
    ensures SumCount(c, order, m[f := m[f] + ys]) == SumCount(c, order, m) + CountOf(c, ys)
    decreases |order|
  {
    var init := order[..|order| - 1];
    var last := order[|order| - 1];
    if last == f {
      assert f !in init;
      SumCountOther(c, init, m, f, m[f] + ys);
      CountOfConcat(c, m[f], ys);
    } else {
      assert f in init;
      SumCountAppend(c, init, m, f, ys);
    }
  }

  /** A file new to `order` adds its list's count to the sum. */
  lemma SumCountNew(c: Counter, order: seq<string>, m: map<string, seq<SingleRunResult>>,
                    f: string, xs: seq<SingleRunResult>)
    requires forall k :: 0 <= k < |order| ==> order[k] in m
    requires f !in order
    ensures SumCount(c, order + [f], m[f := xs]) == SumCount(c, order, m) + CountOf(c, xs)
  {
    assert (order + [f])[..|order|] == order;
    SumCountOther(c, order, m, f, xs);
  }

  // ---------------------------------------------------------------------
  // The store

  /** The fields of `RunResult`. The dictionaries are maps; their
      insertion order is kept next to them (`fileOrder` for
      `file_to_result`, `processedOrder` for the two derived
      dictionaries, which always gain the same keys together). */
  datatype Store = Store(
    fileOrder: seq<string>,
    fileToResult: map<string, seq<SingleRunResult>>,
    processedOrder: seq<string>,
    fileToSortedResult: map<string, map<string, seq<SingleRunResult>>>,
    fileToResultAvg: map<string, map<string, real>>,
    nMeasurements: nat,
    nTimeouts: nat,
    nErrors: nat)

  /** `RunResult.__init__`. */
  const Empty: Store := Store([], map[], [], map[], map[], 0, 0, 0)

  predicate IsPrefix<T(==)>(a: seq<T>, b: seq<T>)
  {
    |a| <= |b| && b[..|a|] == a
  }

  /** The value of one counter of the store. */
  function CounterValue(s: Store, c: Counter): nat
  {
    match c
    case Measurements => s.nMeasurements
    case Timeouts => s.nTimeouts
    case Errors => s.nErrors
  }

  /** `order` lists the keys of `m`, each once: the insertion order of a
      dictionary. */
  ghost predicate KeysInOrder<V>(order: seq<string>, m: map<string, V>)
  {
    Distinct(order) && forall f :: f in m <==> f in order
  }

  /** Every list is non-empty and holds results for its own file. */
  ghost predicate ListsOwnFile(m: map<string, seq<SingleRunResult>>)
  {
    && (forall f :: f in m ==> m[f] != [])
    && (forall f, k :: (f in m && 0 <= k < |m[f]|) ==> m[f][k].inputFile == f)
  }

  /** Each counter equals its count over all lists. */
  ghost predicate Counted(s: Store)
    requires KeysInOrder(s.fileOrder, s.fileToResult)
  {
    forall c :: CounterValue(s, c) == SumCount(c, s.fileOrder, s.fileToResult)
  }

  /** The derived dictionaries share their keys and their key order, which
      is a prefix of the files' order. */
  ghost predicate DerivedKeys(s: Store)
  {
    && IsPrefix(s.processedOrder, s.fileOrder)
    && (forall f :: f in s.fileToSortedResult <==> f in s.processedOrder)
    && (forall f :: f in s.fileToResultAvg <==> f in s.processedOrder)
  }

  /** The part of the invariant that `process_timings` relies on. */
  ghost predicate Ordered(s: Store)
  {
    KeysInOrder(s.fileOrder, s.fileToResult) && DerivedKeys(s)
  }

  /** What every reachable store satisfies. */
  ghost predicate ValidStore(s: Store)
  {
    && KeysInOrder(s.fileOrder, s.fileToResult)
    && ListsOwnFile(s.fileToResult)
    && Counted(s)
    && DerivedKeys(s)
  }

  lemma EmptyValid()
    ensures ValidStore(Empty)
  {
    forall c ensures CounterValue(Empty, c) == SumCount(c, [], map[]) {
    }
  }

  /** The counters never exceed the number of measurements, and the
      number of measurements is the number of results stored. */
  lemma CountersBounded(s: Store)
    requires ValidStore(s)
    ensures s.nTimeouts <= s.nMeasurements && s.nErrors <= s.nMeasurements
  {
    assert CounterValue(s, Measurements) == SumCount(Measurements, s.fileOrder, s.fileToResult);
    assert CounterValue(s, Timeouts) == SumCount(Timeouts, s.fileOrder, s.fileToResult);
    assert CounterValue(s, Errors) == SumCount(Errors, s.fileOrder, s.fileToResult);
    SumCountBounded(Timeouts, s.fileOrder, s.fileToResult);
    SumCountBounded(Errors, s.fileOrder, s.fileToResult);
  }

  // ---------------------------------------------------------------------
  // add_results

  /** One round of the loop of `add_results`. */
  function AddOne(s: Store, r: SingleRunResult): Store
  {
    var f := r.inputFile;
    var known := f in s.fileToResult;
    s.(fileOrder := if known then s.fileOrder else s.fileOrder + [f],
       fileToResult := s.fileToResult[f := if known then s.fileToResult[f] + [r] else [r]],
       nMeasurements := s.nMeasurements + 1,
       nTimeouts := s.nTimeouts + if r.timeoutOccurred then 1 else 0,
       nErrors := s.nErrors + if IsError(r) then 1 else 0)
  }

  /** `add_results(single_results)`. */
  function AddAll(s: Store, results: seq<SingleRunResult>): Store
    decreases |results|
  {
    if results == [] then s
    else AddOne(AddAll(s, results[..|results| - 1]), results[|results| - 1])
  }

  /** The results for file `f`, in order. */
  function ForFile(results: seq<SingleRunResult>, f: string): (r: seq<SingleRunResult>)
    ensures forall k :: 0 <= k < |r| ==> r[k].inputFile == f
    ensures |r| <= |results|
  {
    if results == [] then []
    else
      var x := results[|results| - 1];
      ForFile(results[..|results| - 1], f) + (if x.inputFile == f then [x] else [])
  }

  /** The files of `results` not in `order`, in order of first appearance. */
  function NewFiles(order: seq<string>, results: seq<SingleRunResult>): seq<string>
  {
    if results == [] then []
    else
      var prev := NewFiles(order, results[..|results| - 1]);
      var f := results[|results| - 1].inputFile;
      if f in order || f in prev then prev else prev + [f]
  }

  /** One result keeps the key order of the lists. */
  lemma AddOneKeys(s: Store, r: SingleRunResult)
    requires KeysInOrder(s.fileOrder, s.fileToResult)
    ensures KeysInOrder(AddOne(s, r).fileOrder, AddOne(s, r).fileToResult)
  {
  }

  /** One result raises a counter by one iff it raises that counter. */
  lemma AddOneRaises(s: Store, r: SingleRunResult, c: Counter)
    ensures CounterValue(AddOne(s, r), c) == CounterValue(s, c) + CountOf(c, [r])
  {
    CountOfSingle(c, r);
  }

  /** One result keeps each counter equal to its count over all lists. */
  lemma AddOneCounted(s: Store, r: SingleRunResult, c: Counter)
    requires ValidStore(s)
    ensures KeysInOrder(AddOne(s, r).fileOrder, AddOne(s, r).fileToResult)
    ensures CounterValue(AddOne(s, r), c) == SumCount(c, AddOne(s, r).fileOrder, AddOne(s, r).fileToResult)
  {
    AddOneKeys(s, r);
    var f := r.inputFile;
    assert CounterValue(s, c) == SumCount(c, s.fileOrder, s.fileToResult);
    AddOneRaises(s, r, c);
    if f in s.fileToResult {
      SumCountAppend(c, s.fileOrder, s.fileToResult, f, [r]);
    } else {
      SumCountNew(c, s.fileOrder, s.fileToResult, f, [r]);
    }
  }

  /** One result keeps every list non-empty and holding its own file. */
  lemma AddOneLists(s: Store, r: SingleRunResult)
    requires ListsOwnFile(s.fileToResult)
    ensures ListsOwnFile(AddOne(s, r).fileToResult)
  {
  }

  /** One result leaves the derived dictionaries alone and only extends
      the files' order. */
  lemma AddOneDerived(s: Store, r: SingleRunResult)
    requires DerivedKeys(s)
    ensures DerivedKeys(AddOne(s, r))
  {
    if r.inputFile !in s.fileToResult {
      assert AddOne(s, r).fileOrder[..|s.fileOrder|] == s.fileOrder;
    }
  }

  /** One result keeps the store valid. */
  lemma AddOneValid(s: Store, r: SingleRunResult)
    requires ValidStore(s)
    ensures ValidStore(AddOne(s, r))
  {
    var s' := AddOne(s, r);
    AddOneKeys(s, r);
    AddOneLists(s, r);
    AddOneDerived(s, r);
    forall c ensures CounterValue(s', c) == SumCount(c, s'.fileOrder, s'.fileToResult) {
      AddOneCounted(s, r, c);
    }
  }

  /** `add_results` keeps the store valid: in particular the counters stay
      equal to the counts over all lists. */
  lemma {:induction false} AddAllValid(s: Store, results: seq<SingleRunResult>)
    requires ValidStore(s)
    ensures ValidStore(AddAll(s, results))
    decreases |results|
  {
    if results != [] {
      AddAllValid(s, results[..|results| - 1]);
      AddOneValid(AddAll(s, results[..|results| - 1]), results[|results| - 1]);
    }
  }

  /** Each file's list gains exactly that file's results, in order; a file
      seen for the first time starts from an empty list; no other key
      appears. */
  lemma {:induction false} AddAllLists(s: Store, results: seq<SingleRunResult>, f: string)
    ensures f in AddAll(s, results).fileToResult <==> f in s.fileToResult || ForFile(results, f) != []
    ensures f in AddAll(s, results).fileToResult ==>
              AddAll(s, results).fileToResult[f]
              == (if f in s.fileToResult then s.fileToResult[f] else []) + ForFile(results, f)
    decreases |results|
  {
    if results != [] {
      AddAllLists(s, results[..|results| - 1], f);
    }
  }

  /** Each counter grows by the count of the new results; the derived
      dictionaries are untouched. */
  lemma {:induction false} AddAllCounters(s: Store, results: seq<SingleRunResult>, c: Counter)
    ensures CounterValue(AddAll(s, results), c) == CounterValue(s, c) + CountOf(c, results)
    ensures AddAll(s, results).processedOrder == s.processedOrder
    ensures AddAll(s, results).fileToSortedResult == s.fileToSortedResult
    ensures AddAll(s, results).fileToResultAvg == s.fileToResultAvg
    decreases |results|
  {
    if results != [] {
      var init := results[..|results| - 1];
      var last := results[|results| - 1];
      AddAllCounters(s, init, c);
      CountOfConcat(c, init, [last]);
      CountOfSingle(c, last);
      assert init + [last] == results;
    }
  }

  /** The key order grows by the files seen for the first time, in order of
      first appearance. */
  lemma {:induction false} AddAllOrder(s: Store, results: seq<SingleRunResult>)
    requires ValidStore(s)
    ensures AddAll(s, results).fileOrder == s.fileOrder + NewFiles(s.fileOrder, results)
    decreases |results|
  {
    if results != [] {
      var init := results[..|results| - 1];
      var mid := AddAll(s, init);
      AddAllOrder(s, init);
      AddAllValid(s, init);
      var f := results[|results| - 1].inputFile;
      assert f in mid.fileToResult <==> f in s.fileOrder || f in NewFiles(s.fileOrder, init);
    }
  }

  // ---------------------------------------------------------------------
  // process_timings: grouping by run configuration and averaging

  /** The results of `data` run with configuration `c`, in order: the list
      `config_to_time[c]` that `process_timings` builds. */
  function Group(data: seq<SingleRunResult>, c: string): (g: seq<SingleRunResult>)
    ensures |g| <= |data|
    ensures forall k :: 0 <= k < |g| ==> g[k].configName == c
    ensures g != [] <==> exists k :: 0 <= k < |data| && data[k].configName == c
  {
    if data == [] then []
    else
      var x := data[|data| - 1];
      Group(data[..|data| - 1], c) + (if x.configName == c then [x] else [])
  }

  /** The configurations that occur in `data`: the keys of
      `config_to_time` and `config_to_avg_time`. */
  function ConfigsOf(data: seq<SingleRunResult>): set<string>
  {
    set k | 0 <= k < |data| :: data[k].configName
  }

  /** The running times of a list of results. */
  function Times(xs: seq<SingleRunResult>): (ts: seq<real>)
    ensures |ts| == |xs|
    ensures forall k :: 0 <= k < |xs| ==> ts[k] == xs[k].timeElapsed
  {
    if xs == [] then [] else [xs[0].timeElapsed] + Times(xs[1..])
  }

  function Sum(xs: seq<real>): real
  {
    if xs == [] then 0.0 else Sum(xs[..|xs| - 1]) + xs[|xs| - 1]
  }

  /** `statistics.mean`, computed exactly: the model does not round to a
      floating-point number. */
  function Mean(xs: seq<real>): real
    requires xs != []
  {
    Sum(xs) / (|xs| as real)
  }

  /** `config_to_time` after the inner loop over `data`. */
  function GroupMap(data: seq<SingleRunResult>): map<string, seq<SingleRunResult>>
  {
    map c | c in ConfigsOf(data) :: Group(data, c)
  }

  /** The running times of every group. */
  function TimesOfGroups(groups: map<string, seq<SingleRunResult>>): map<string, seq<real>>
  {
    map c | c in groups :: Times(groups[c])
  }

  /** `config_to_avg_time` after the inner loop over `data`, before the
      means are taken. */
  function TimesMap(data: seq<SingleRunResult>): map<string, seq<real>>
  {
    TimesOfGroups(GroupMap(data))
  }

  /** `config_to_avg_time` after the means are taken. */
  function AvgMap(data: seq<SingleRunResult>): map<string, real>
  {
    var times := TimesMap(data);
    map c | c in times :: Mean(times[c])
  }

  /** `process_timings()` on a valid store: every file of `file_to_result`
      gets its grouping and its averages, overwriting what an earlier call
      left, and the derived dictionaries' key order becomes the files'
      order. The lists and the counters are not touched. */
  function Processed(s: Store): Store
    requires Ordered(s)
  {
    s.(processedOrder := s.fileOrder, fileToSortedResult := SortedOf(s), fileToResultAvg := AvgOf(s))
  }

  /** Every file's grouping by configuration. */
  function SortedOf(s: Store): map<string, map<string, seq<SingleRunResult>>>
  {
    map f | f in s.fileToResult :: GroupMap(s.fileToResult[f])
  }

  /** Every file's averages by configuration. */
  function AvgOf(s: Store): map<string, map<string, real>>
  {
    map f | f in s.fileToResult :: AvgMap(s.fileToResult[f])
  }

  /** Grouping distributes over concatenation: it keeps the order of the
      results. */
  lemma {:induction false} GroupConcat(a: seq<SingleRunResult>, b: seq<SingleRunResult>, c: string)
    ensures Group(a + b, c) == Group(a, c) + Group(b, c)
    decreases |b|
  {
    if b == [] {
      assert a + b == a;
    } else {
      var b' := b[..|b| - 1];
      assert (a + b)[..|a + b| - 1] == a + b';
      assert (a + b)[|a + b| - 1] == b[|b| - 1];
      GroupConcat(a, b', c);
    }
  }

  /** A single result falls in its own configuration's group and no other. */
  lemma GroupSingle(x: SingleRunResult, c: string)
    ensures Group([x], c) == if x.configName == c then [x] else []
  {
    assert [x][..0] == [];
  }

  /** When every result has configuration `c`, the group is the whole
      list. */
  lemma {:induction false} GroupOfUniform(data: seq<SingleRunResult>, c: string)
    requires forall k :: 0 <= k < |data| ==> data[k].configName == c
    ensures Group(data, c) == data
  {
    if data != [] {
      var init := data[..|data| - 1];
      GroupOfUniform(init, c);
      assert data == init + [data[|data| - 1]];
    }
  }

  /** The groups partition the list: every result occurs in the group of
      its own configuration exactly as often as in the list, and in no
      other group. */
  lemma {:induction false} GroupPartition(data: seq<SingleRunResult>, x: SingleRunResult, c: string)
    ensures multiset(Group(data, x.configName))[x] == multiset(data)[x]
    ensures c != x.configName ==> x !in Group(data, c)
  {
    if data != [] {
      var init := data[..|data| - 1];
      GroupPartition(init, x, c);
      assert data == init + [data[|data| - 1]];
    }
  }

  /** The keys of the grouping are the configurations that occur, and each
      group is non-empty. */
  lemma GroupMapKeys(data: seq<SingleRunResult>, c: string)
    ensures c in GroupMap(data) <==> exists k :: 0 <= k < |data| && data[k].configName == c
    ensures c in GroupMap(data) ==> GroupMap(data)[c] != []
  {
  }

  /** The configurations of a list with one more result. */
  lemma ConfigsOfSnoc(data: seq<SingleRunResult>, x: SingleRunResult)
    ensures ConfigsOf(data + [x]) == ConfigsOf(data) + {x.configName}
  {
    var d := data + [x];
    assert forall k :: 0 <= k < |data| ==> d[k] == data[k];
    assert d[|data|] == x;
  }

  /** One more result extends its own configuration's group, creating the
      group on first sight: a round of the inner loop. */
  lemma GroupMapSnoc(data: seq<SingleRunResult>, x: SingleRunResult)
    ensures GroupMap(data + [x])
            == GroupMap(data)[x.configName := if x.configName in GroupMap(data) then GroupMap(data)[x.configName] + [x] else [x]]
  {
    var d := data + [x];
    var g := GroupMap(data);
    var rhs := g[x.configName := if x.configName in g then g[x.configName] + [x] else [x]];
    ConfigsOfSnoc(data, x);
    assert GroupMap(d).Keys == rhs.Keys;
    forall c | c in rhs
      ensures GroupMap(d)[c] == rhs[c]
    {
      GroupSnoc(data, x, c);
      if c == x.configName && c !in g {
        GroupMapKeys(data, c);
      }
    }
  }

  /** One more result extends the group of its configuration alone. */
  lemma GroupSnoc(data: seq<SingleRunResult>, x: SingleRunResult, c: string)
    ensures Group(data + [x], c) == Group(data, c) + (if x.configName == c then [x] else [])
  {
    assert (data + [x])[..|data|] == data;
  }

  /** Appending a result to one group appends its running time to that
      group's times. */
  lemma TimesOfGroupsAppend(groups: map<string, seq<SingleRunResult>>, x: SingleRunResult)
    ensures TimesOfGroups(groups[x.configName := if x.configName in groups then groups[x.configName] + [x] else [x]])
            == TimesOfGroups(groups)[x.configName := if x.configName in groups then TimesOfGroups(groups)[x.configName] + [x.timeElapsed] else [x.timeElapsed]]
  {
    var c := x.configName;
    var v := if c in groups then groups[c] + [x] else [x];
    var lhs := TimesOfGroups(groups[c := v]);
    var rhs := TimesOfGroups(groups)[c := if c in groups then TimesOfGroups(groups)[c] + [x.timeElapsed] else [x.timeElapsed]];
    if c in groups {
      TimesConcat(groups[c], [x]);
    }
    assert Times([x]) == [x.timeElapsed];
    assert lhs.Keys == rhs.Keys;
    assert lhs[c] == rhs[c];
    assert forall c' | c' in rhs && c' != c :: lhs[c'] == rhs[c'];
  }

  /** The same for the lists of running times. */
  lemma TimesMapSnoc(data: seq<SingleRunResult>, x: SingleRunResult)
    ensures TimesMap(data + [x])
            == TimesMap(data)[x.configName := if x.configName in TimesMap(data) then TimesMap(data)[x.configName] + [x.timeElapsed] else [x.timeElapsed]]
  {
    GroupMapSnoc(data, x);
    TimesOfGroupsAppend(GroupMap(data), x);
  }

  /** The times of a concatenation are the concatenated times. */
  lemma {:induction false} TimesConcat(a: seq<SingleRunResult>, b: seq<SingleRunResult>)
    ensures Times(a + b) == Times(a) + Times(b)
  {
    if a != [] {
      assert (a + b)[1..] == a[1..] + b;
      TimesConcat(a[1..], b);
    } else {
      assert a + b == b;
    }
  }

  /** The mean lies between the smallest and the largest running time. */
  lemma MeanBounds(xs: seq<real>, lo: real, hi: real)
    requires xs != []
    requires forall k :: 0 <= k < |xs| ==> lo <= xs[k] <= hi
    ensures lo <= Mean(xs) <= hi
  {
    SumBounds(xs, lo, hi);
  }

  lemma {:induction false} SumBounds(xs: seq<real>, lo: real, hi: real)
    requires forall k :: 0 <= k < |xs| ==> lo <= xs[k] <= hi
    ensures (|xs| as real) * lo <= Sum(xs) <= (|xs| as real) * hi
  {
    if xs != [] {
      SumBounds(xs[..|xs| - 1], lo, hi);
    }
  }

  /** A group whose runs all took the same time averages to that time. */
  lemma MeanOfConstant(xs: seq<real>, v: real)
    requires xs != []
    requires forall k :: 0 <= k < |xs| ==> xs[k] == v
    ensures Mean(xs) == v
  {
    SumBounds(xs, v, v);
  }

  /** The running times of each group are non-empty. */
  lemma TimesMapKeys(data: seq<SingleRunResult>, c: string)
    ensures c in TimesMap(data) <==> c in GroupMap(data)
    ensures c in TimesMap(data) ==> TimesMap(data)[c] == Times(Group(data, c)) != []
  {
  }

  /** `process_timings` keeps the store valid. */
  lemma ProcessedValid(s: Store)
    requires ValidStore(s)
    ensures ValidStore(Processed(s))
  {
    var p := Processed(s);
    assert p.processedOrder[..|p.processedOrder|] == p.fileOrder;
    forall c ensures CounterValue(p, c) == SumCount(c, p.fileOrder, p.fileToResult) {
      assert CounterValue(s, c) == SumCount(c, s.fileOrder, s.fileToResult);
    }
  }

  /** `process_timings` reads only the lists: it leaves them, their order
      and the counters as they were. */
  lemma ProcessedKeepsResults(s: Store, c: Counter)
    requires ValidStore(s)
    ensures Processed(s).fileOrder == s.fileOrder
    ensures Processed(s).fileToResult == s.fileToResult
    ensures CounterValue(Processed(s), c) == CounterValue(s, c)
  {
  }

  /** After `process_timings` every file has a grouping and averages, and no
      other key does; for each configuration that occurs in the file's list,
      the group is the order-preserving subsequence of the list run with
      that configuration, it is non-empty, and the average is the mean of
      its running times, timeouts and errors included. */
  lemma ProcessedGroups(s: Store, f: string, c: string)
    requires ValidStore(s)
    ensures f in Processed(s).fileToSortedResult <==> f in s.fileToResult
    ensures f in Processed(s).fileToResultAvg <==> f in s.fileToResult
    ensures f in s.fileToResult ==>
              && (c in Processed(s).fileToSortedResult[f]
                  <==> exists k :: 0 <= k < |s.fileToResult[f]| && s.fileToResult[f][k].configName == c)
              && (c in Processed(s).fileToResultAvg[f] <==> c in Processed(s).fileToSortedResult[f])
    ensures f in s.fileToResult && c in Processed(s).fileToSortedResult[f] ==>
              && Processed(s).fileToSortedResult[f][c] == Group(s.fileToResult[f], c) != []
              && Processed(s).fileToResultAvg[f][c] == Mean(Times(Group(s.fileToResult[f], c)))
  {
    if f in s.fileToResult {
      TimesMapKeys(s.fileToResult[f], c);
    }
  }

  /** Running `process_timings` twice leaves the same store as running it
      once. */
  lemma ProcessedIdempotent(s: Store)
    requires ValidStore(s)
    ensures ValidStore(Processed(s))
    ensures Processed(Processed(s)) == Processed(s)
  {
    ProcessedValid(s);
  }

  // ---------------------------------------------------------------------
  // The loops of process_timings

  /** Creating an empty list on first sight and then appending to it is a
      single update of the map. */
  lemma AppendEntry<V>(m: map<string, seq<V>>, m': map<string, seq<V>>, c: string, v: V)
    requires m' == if c in m then m else m[c := []]
    ensures m'[c := m'[c] + [v]] == m[c := if c in m then m[c] + [v] else [v]]
  {
    if c !in m {
      assert [] + [v] == [v];
    }
  }

  /** The inner loop of `process_timings` over one file's list: builds
      `config_to_time` and `config_to_avg_time` (still holding lists), and
      the order in which their keys were inserted. */
  method CollectTimings(data: seq<SingleRunResult>)
    returns (configToTime: map<string, seq<SingleRunResult>>, configToTimes: map<string, seq<real>>,
             configOrder: seq<string>)
    ensures configToTime == GroupMap(data)
    ensures configToTimes == TimesMap(data)
    ensures KeysInOrder(configOrder, configToTimes)
  {
    configToTime, configToTimes, configOrder := map[], map[], [];
    assert data[..0] == [];
    for j := 0 to |data|
      invariant configToTime == GroupMap(data[..j])
      invariant configToTimes == TimesMap(data[..j])
      invariant KeysInOrder(configOrder, configToTimes)
    {
      var res := data[j];
      var name := res.configName;
      ghost var before, beforeTimes := configToTime, configToTimes;
      Strings.PrefixSnoc(data, j);
      GroupMapSnoc(data[..j], res);
      TimesMapSnoc(data[..j], res);
      TimesMapKeys(data[..j], name);
      if name !in configToTimes {
        configToTimes := configToTimes[name := []];
        configToTime := configToTime[name := []];
        configOrder := configOrder + [name];
      }
      AppendEntry(before, configToTime, name, res);
      AppendEntry(beforeTimes, configToTimes, name, res.timeElapsed);
      configToTime := configToTime[name := configToTime[name] + [res]];
      configToTimes := configToTimes[name := configToTimes[name] + [res.timeElapsed]];
    }
    assert data[..|data|] == data;
  }

  /** The second inner loop: every list of times, visited in key order, is
      replaced by its mean. */
  method TakeMeans(configToTimes: map<string, seq<real>>, configOrder: seq<string>)
    returns (configToAvg: map<string, real>)
    requires KeysInOrder(configOrder, configToTimes)
    requires forall c :: c in configToTimes ==> configToTimes[c] != []
    ensures configToAvg == map c | c in configToTimes :: Mean(configToTimes[c])
  {
    configToAvg := map[];
    for k := 0 to |configOrder|
      invariant configToAvg == map c | c in configOrder[..k] :: Mean(configToTimes[c])
    {
      var name := configOrder[k];
      assert configOrder[..k + 1] == configOrder[..k] + [name];
      configToAvg := configToAvg[name := Mean(configToTimes[name])];
    }
    assert configOrder[..|configOrder|] == configOrder;
  }

  function Max(a: nat, b: nat): nat
  {
    if a < b then b else a
  }

  /** The files whose derived entries exist once the outer loop of
      `process_timings` has handled `i` files: those that had them before
      (a prefix of the files' order) and those handled. */
  function Done(order: seq<string>, processed: seq<string>, i: nat): seq<string>
    requires i <= |order| && |processed| <= |order|
  {
    order[..Max(i, |processed|)]
  }

  /** One round of the outer loop: the file handled is new to the derived
      dictionaries iff the loop has passed the end of their old keys, and
      then it is appended to their key order. */
  lemma DoneStep(order: seq<string>, processed: seq<string>, i: nat)
    requires Distinct(order) && IsPrefix(processed, order) && i < |order|
    ensures order[i] in Done(order, processed, i) <==> i < |processed|
    ensures i < |processed| ==> Done(order, processed, i + 1) == Done(order, processed, i)
    ensures i >= |processed| ==> Done(order, processed, i + 1) == Done(order, processed, i) + [order[i]]
  {
    if i < |processed| {
      assert Done(order, processed, i)[i] == order[i];
    } else {
      assert order[..i + 1] == order[..i] + [order[i]];
    }
  }

  /** The map `m` once `vals[f]` has been written for each of the first
      `i` entries `f` of `order`, in order. */
  function WriteAll<A>(m: map<string, A>, order: seq<string>, vals: map<string, A>, i: nat): map<string, A>
    requires i <= |order| && forall f :: f in order ==> f in vals
  {
    if i == 0 then m else WriteAll(m, order, vals, i - 1)[order[i - 1] := vals[order[i - 1]]]
  }

  /** The last write of `i` rounds. */
  lemma WriteAllStep<A>(m: map<string, A>, order: seq<string>, vals: map<string, A>, i: nat)
    requires 0 < i <= |order| && forall f :: f in order ==> f in vals
    ensures WriteAll(m, order, vals, i) == WriteAll(m, order, vals, i - 1)[order[i - 1] := vals[order[i - 1]]]
  {
  }

  /** A map that holds the writes of `i - 1` rounds, updated with the
      write of round `i`, holds the writes of `i` rounds. */
  lemma WriteAllNext<A>(p: map<string, A>, m: map<string, A>, order: seq<string>, vals: map<string, A>, i: nat, v: A)
    requires 0 < i <= |order| && forall f :: f in order ==> f in vals
    requires p == WriteAll(m, order, vals, i - 1) && v == vals[order[i - 1]]
    ensures p[order[i - 1] := v] == WriteAll(m, order, vals, i)
  {
  }

  /** The keys written are added to those there before... */
  lemma {:induction false} WriteAllKeys<A>(m: map<string, A>, order: seq<string>, vals: map<string, A>, i: nat)
    requires i <= |order| && forall f :: f in order ==> f in vals
    ensures forall f :: f in WriteAll(m, order, vals, i) <==> f in m || f in order[..i]
  {
    if i > 0 {
      WriteAllKeys(m, order, vals, i - 1);
      assert order[..i] == order[..i - 1] + [order[i - 1]];
    }
  }

  /** ...and each holds its value written. */
  lemma {:induction false} WriteAllValues<A>(m: map<string, A>, order: seq<string>, vals: map<string, A>, i: nat)
    requires i <= |order| && forall f :: f in order ==> f in vals
    ensures forall k :: 0 <= k < i ==>
              order[k] in WriteAll(m, order, vals, i) && WriteAll(m, order, vals, i)[order[k]] == vals[order[k]]
  {
    if i > 0 {
      WriteAllValues(m, order, vals, i - 1);
    }
  }

  /** Writing every key of `vals` over a map whose keys are among them
      gives `vals`. */
  lemma WriteAllEverything<A>(m: map<string, A>, order: seq<string>, vals: map<string, A>)
    requires forall f :: f in vals <==> f in order
    requires forall f :: f in m ==> f in order
    ensures WriteAll(m, order, vals, |order|) == vals
  {
    var w := WriteAll(m, order, vals, |order|);
    WriteAllKeys(m, order, vals, |order|);
    WriteAllValues(m, order, vals, |order|);
    assert order[..|order|] == order;
    forall f | f in vals
      ensures w[f] == vals[f]
    {
      var k :| 0 <= k < |order| && order[k] == f;
    }
  }

  /** In a list without repetitions, the entry at `j` is among the first
      `n` iff `j < n`. */
  lemma DistinctIndex(order: seq<string>, j: nat, n: nat)
    requires Distinct(order) && j < |order| && n <= |order|
    ensures order[j] in order[..n] <==> j < n
  {
    if order[j] in order[..n] {
      var k :| 0 <= k < n && order[..n][k] == order[j];
    }
  }

  /** One round of the outer loop of `process_timings`, on file `f`: its
      grouping and averages replace what the derived dictionaries held,
      and a file new to them is appended to their key order. */
  function ProcessStep(s: Store, f: string): Store
    requires f in s.fileToResult
  {
    s.(processedOrder := if f in s.fileToSortedResult then s.processedOrder else s.processedOrder + [f],
       fileToSortedResult := s.fileToSortedResult[f := GroupMap(s.fileToResult[f])],
       fileToResultAvg := s.fileToResultAvg[f := AvgMap(s.fileToResult[f])])
  }

  /** The store once the outer loop has handled the first `i` files. */
  function ProcessUpTo(s: Store, i: nat): (r: Store)
    requires i <= |s.fileOrder| && forall f :: f in s.fileOrder ==> f in s.fileToResult
    ensures r.fileOrder == s.fileOrder && r.fileToResult == s.fileToResult
    ensures r.nMeasurements == s.nMeasurements && r.nTimeouts == s.nTimeouts && r.nErrors == s.nErrors
  {
    if i == 0 then s else ProcessStep(ProcessUpTo(s, i - 1), s.fileOrder[i - 1])
  }

  /** After `i` rounds the derived dictionaries hold, over what they held
      before, the groupings... */
  lemma {:induction false} ProcessUpToGroups(s: Store, i: nat)
    requires i <= |s.fileOrder| && forall f :: f in s.fileOrder ==> f in s.fileToResult
    ensures ProcessUpTo(s, i).fileToSortedResult == WriteAll(s.fileToSortedResult, s.fileOrder, SortedOf(s), i)
  {
    if i == 0 {
      assert ProcessUpTo(s, 0) == s;
    } else {
      ProcessUpToGroups(s, i - 1);
      var p, f := ProcessUpTo(s, i - 1), s.fileOrder[i - 1];
      assert f in s.fileToResult;
      var v := GroupMap(s.fileToResult[f]);
      assert SortedOf(s)[f] == v;
      assert ProcessUpTo(s, i).fileToSortedResult == p.fileToSortedResult[f := v];
      WriteAllNext(p.fileToSortedResult, s.fileToSortedResult, s.fileOrder, SortedOf(s), i, v);
    }
  }

  /** ...and the averages of the first `i` files... */
  lemma {:induction false} ProcessUpToAverages(s: Store, i: nat)
    requires i <= |s.fileOrder| && forall f :: f in s.fileOrder ==> f in s.fileToResult
    ensures ProcessUpTo(s, i).fileToResultAvg == WriteAll(s.fileToResultAvg, s.fileOrder, AvgOf(s), i)
  {
    if i == 0 {
      assert ProcessUpTo(s, 0) == s;
    } else {
      ProcessUpToAverages(s, i - 1);
      var p, f := ProcessUpTo(s, i - 1), s.fileOrder[i - 1];
      assert f in s.fileToResult;
      var v := AvgMap(s.fileToResult[f]);
      assert AvgOf(s)[f] == v;
      assert ProcessUpTo(s, i).fileToResultAvg == p.fileToResultAvg[f := v];
      WriteAllNext(p.fileToResultAvg, s.fileToResultAvg, s.fileOrder, AvgOf(s), i, v);
    }
  }

  /** ...and their key order is the files handled after those they held
      before. */
  lemma {:induction false} ProcessUpToOrder(s: Store, i: nat)
    requires i <= |s.fileOrder| && forall f :: f in s.fileOrder ==> f in s.fileToResult
    requires Distinct(s.fileOrder) && IsPrefix(s.processedOrder, s.fileOrder)
    requires forall f :: f in s.fileToSortedResult <==> f in s.processedOrder
    ensures ProcessUpTo(s, i).processedOrder == Done(s.fileOrder, s.processedOrder, i)
  {
    if i == 0 {
      assert Done(s.fileOrder, s.processedOrder, 0) == s.processedOrder;
    } else {
      var order, processed := s.fileOrder, s.processedOrder;
      ProcessUpToOrder(s, i - 1);
      ProcessUpToGroups(s, i - 1);
      WriteAllKeys(s.fileToSortedResult, order, SortedOf(s), i - 1);
      DistinctIndex(order, i - 1, i - 1);
      DistinctIndex(order, i - 1, |processed|);
      DoneStep(order, processed, i - 1);
    }
  }

  /** Handling every file in order gives `Processed(s)`. */
  lemma ProcessedByUpTo(s: Store)
    requires Ordered(s)
    ensures ProcessUpTo(s, |s.fileOrder|) == Processed(s)
  {
    var n := |s.fileOrder|;
    ProcessUpToOrder(s, n);
    assert Done(s.fileOrder, s.processedOrder, n) == s.fileOrder;
    ProcessUpToGroups(s, n);
    ProcessUpToAverages(s, n);
    WriteAllEverything(s.fileToSortedResult, s.fileOrder, SortedOf(s));
    WriteAllEverything(s.fileToResultAvg, s.fileOrder, AvgOf(s));
  }

  /** `RunResult`: the store, updated in place. */
  class RunResult {
    var fileOrder: seq<string>
    var fileToResult: map<string, seq<SingleRunResult>>
    var processedOrder: seq<string>
    var fileToSortedResult: map<string, map<string, seq<SingleRunResult>>>
    var fileToResultAvg: map<string, map<string, real>>
    var nMeasurements: nat
    var nTimeouts: nat
    var nErrors: nat

    /** The fields as a value. */
    function State(): Store
      reads this
    {
      Store(fileOrder, fileToResult, processedOrder, fileToSortedResult, fileToResultAvg,
            nMeasurements, nTimeouts, nErrors)
    }

    ghost predicate Valid()
      reads this
    {
      ValidStore(State())
    }

    /** `RunResult()`: no results, no groupings, all counters zero. */
    constructor()
      ensures State() == Empty && Valid()
    {
      fileOrder, fileToResult, processedOrder := [], map[], [];
      fileToSortedResult, fileToResultAvg := map[], map[];
      nMeasurements, nTimeouts, nErrors := 0, 0, 0;
      EmptyValid();
    }

    /** `add_results(single_results)`. */
    method AddResults(singleResults: seq<SingleRunResult>)
      requires Valid()
      modifies this
      ensures State() == AddAll(old(State()), singleResults)
      ensures Valid()
    {
      for i := 0 to |singleResults|
        invariant State() == AddAll(old(State()), singleResults[..i])
      {
        AddResult(singleResults[i]);
        assert singleResults[..i + 1][..i] == singleResults[..i];
      }
      assert singleResults[..|singleResults|] == singleResults;
      AddAllValid(old(State()), singleResults);
    }

    /** One round of the loop of `add_results`. */
    method AddResult(result: SingleRunResult)
      modifies this
      ensures State() == AddOne(old(State()), result)
    {
      ghost var lists := fileToResult;
      nMeasurements := nMeasurements + 1;
      if result.timeoutOccurred {
        nTimeouts := nTimeouts + 1;
      }
      if IsError(result) {
        nErrors := nErrors + 1;
      }
      if result.inputFile !in fileToResult {
        fileToResult := fileToResult[result.inputFile := []];
        fileOrder := fileOrder + [result.inputFile];
      }
      AppendEntry(lists, fileToResult, result.inputFile, result);
      fileToResult := fileToResult[result.inputFile := fileToResult[result.inputFile] + [result]];
    }

    /** `process_timings()`. */
    method ProcessTimings()
      requires Valid()
      modifies this
      ensures State() == Processed(old(State()))
      ensures Valid()
    {
      ghost var s0 := State();
      HandleFiles(s0);
      ProcessedByUpTo(s0);
      ProcessedValid(s0);
    }

    /** The outer loop of `process_timings`: every file in order. */
    method HandleFiles(ghost s0: Store)
      requires State() == s0 && forall f :: f in s0.fileOrder ==> f in s0.fileToResult
      modifies this
      ensures State() == ProcessUpTo(s0, |s0.fileOrder|)
    {
      for i := 0 to |fileOrder|
        invariant State() == ProcessUpTo(s0, i)
      {
        ProcessFile(fileOrder[i]);
      }
    }

    /** One round of the outer loop of `process_timings`. */
    method ProcessFile(fileName: string)
      requires fileName in fileToResult
      modifies this
      ensures State() == ProcessStep(old(State()), fileName)
    {
      var data := fileToResult[fileName];
      var configToTime, configToTimes, configOrder := CollectTimings(data);
      if fileName !in fileToSortedResult {
        processedOrder := processedOrder + [fileName];
      }
      fileToSortedResult := fileToSortedResult[fileName := configToTime];
      forall c | c in configToTimes
        ensures configToTimes[c] != []
      {
        TimesMapKeys(data, c);
      }
      var configToAvg := TakeMeans(configToTimes, configOrder);
      fileToResultAvg := fileToResultAvg[fileName := configToAvg];
    }
  }
}
