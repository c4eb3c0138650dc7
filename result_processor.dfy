/** Turning the collected results into report files: the raw table with
    one row per result, the per-configuration table with one row per input
    file and repetition, and the table of per-configuration averages.
    Files are modelled as a map from file name to the text the file holds. */
module ResultProcessor {
  import opened Strings
  import opened Result
  import opened Sorting
  import FileWriter

  // ---------------------------------------------------------------------
  // Headers

  /** The raw table's header: the timing file's column names separated by
      "; ". */
  const RawHeader := Join("; ", FileWriter.HeaderFields)

  /** The raw header has five fields and is a single line. */
  lemma RawHeaderShape()
    ensures Count(RawHeader, ';') == 4
    ensures '\n' !in RawHeader
    ensures StartsWith(RawHeader, "runtime [s]")
  {
    FileWriter.HeaderFieldsPlain();
    assert ';' !in "runtime [s]" && ';' !in "input file" && ';' !in "run configuration";
    assert ';' !in "exit code" && ';' !in "timeout";
    assert Count("; ", ';') == 1;
    CountJoin("; ", FileWriter.HeaderFields, ';');
    assert '\n' !in "; ";
    JoinAvoids("; ", FileWriter.HeaderFields, '\n');
    JoinStartsWith("; ", FileWriter.HeaderFields);
  }

  /** The concatenation of a sequence of sequences. */
  function Flatten<T>(xss: seq<seq<T>>): seq<T>
  {
    if xss == [] then [] else Flatten(xss[..|xss| - 1]) + xss[|xss| - 1]
  }

  /** Blocks of width `w` flatten to `w` elements per block... */
  lemma {:induction false} FlattenLength<T>(xss: seq<seq<T>>, w: nat)
    requires forall k :: 0 <= k < |xss| ==> |xss[k]| == w
    ensures |Flatten(xss)| == |xss| * w
  {
    if xss != [] {
      var init := xss[..|xss| - 1];
      FlattenLength(init, w);
      assert |xss| * w == (|xss| - 1) * w + w;
    }
  }

  /** ...block `k` at positions `k × w` to `k × w + w - 1`. */
  lemma {:induction false} FlattenAt<T>(xss: seq<seq<T>>, w: nat, k: nat, j: nat)
    requires forall k :: 0 <= k < |xss| ==> |xss[k]| == w
    requires k < |xss| && j < w
    ensures k * w + j < |Flatten(xss)|
    ensures Flatten(xss)[k * w + j] == xss[k][j]
  {
    var n := |xss|;
    var init := xss[..n - 1];
    FlattenLength(init, w);
    if k < n - 1 {
      FlattenAt(init, w, k, j);
      assert init[k] == xss[k];
    } else {
      assert k * w == (n - 1) * w;
    }
  }

  /** When no field of any block holds `c`, no field of their
      concatenation does. */
  lemma {:induction false} FlattenAvoids(xss: seq<seq<string>>, c: char)
    requires forall k, i :: 0 <= k < |xss| && 0 <= i < |xss[k]| ==> c !in xss[k][i]
    ensures forall i :: 0 <= i < |Flatten(xss)| ==> c !in Flatten(xss)[i]
  {
    if xss != [] {
      var init := xss[..|xss| - 1];
      assert forall k :: 0 <= k < |init| ==> init[k] == xss[k];
      FlattenAvoids(init, c);
    }
  }

  /** The three per-configuration columns of the configuration `name`. */
  function ConfigColumns(name: string): seq<string>
  {
    [name + ", runtime [s]", name + ", exit condition", name + ", timeout"]
  }

  /** The per-configuration columns of each name, in sorted order. */
  function ColumnBlocks(sorted: seq<string>): seq<seq<string>>
  {
    seq(|sorted|, k requires 0 <= k < |sorted| => ConfigColumns(sorted[k]))
  }

  /** The per-configuration header's fields: the input file, then three
      columns per configuration name in sorted order. */
  function PerConfigHeaderFields(names: seq<string>): seq<string>
  {
    ["input file"] + Flatten(ColumnBlocks(Sort(names)))
  }

  function PerConfigHeader(names: seq<string>): string
  {
    Join(";", PerConfigHeaderFields(names))
  }

  /** The average header's fields: the input file, then one column per
      configuration name in sorted order. */
  function AvgHeaderFields(names: seq<string>): seq<string>
  {
    var sorted := Sort(names);
    ["input file"] + seq(|sorted|, k requires 0 <= k < |sorted| => sorted[k] + ", average runtime [s]")
  }

  function AvgHeader(names: seq<string>): string
  {
    Join(";", AvgHeaderFields(names))
  }

  /** A name of the sorted list is a name of the list. */
  lemma SortedNameOf(names: seq<string>, k: nat)
    requires k < |names|
    ensures Sort(names)[k] in names
  {
    SortPermutes(names);
    assert Sort(names)[k] in multiset(Sort(names));
  }

  /** The per-configuration header is the input file followed by, for
      each configuration name in sorted order, its runtime, exit condition
      and timeout columns. */
  lemma PerConfigHeaderLayout(names: seq<string>)
    ensures |PerConfigHeaderFields(names)| == 1 + 3 * |names|
    ensures PerConfigHeaderFields(names)[0] == "input file"
    ensures forall k :: 0 <= k < |names| ==>
              && PerConfigHeaderFields(names)[1 + 3 * k] == Sort(names)[k] + ", runtime [s]"
              && PerConfigHeaderFields(names)[2 + 3 * k] == Sort(names)[k] + ", exit condition"
              && PerConfigHeaderFields(names)[3 + 3 * k] == Sort(names)[k] + ", timeout"
  {
    var sorted := Sort(names);
    var blocks := ColumnBlocks(sorted);
    var flat := Flatten(blocks);
    FlattenLength(blocks, 3);
    var fields := PerConfigHeaderFields(names);
    assert fields == ["input file"] + flat;
    forall k | 0 <= k < |names|
      ensures fields[1 + 3 * k] == sorted[k] + ", runtime [s]"
      ensures fields[2 + 3 * k] == sorted[k] + ", exit condition"
      ensures fields[3 + 3 * k] == sorted[k] + ", timeout"
    {
      assert 3 * k == k * 3;
      FlattenAt(blocks, 3, k, 0);
      FlattenAt(blocks, 3, k, 1);
      FlattenAt(blocks, 3, k, 2);
      assert fields[1 + 3 * k] == flat[k * 3 + 0] == blocks[k][0];
      assert fields[2 + 3 * k] == flat[k * 3 + 1] == blocks[k][1];
      assert fields[3 + 3 * k] == flat[k * 3 + 2] == blocks[k][2];
    }
  }

  /** As long as no configuration name holds a ';', the per-configuration
      header has 1 + 3k fields for k names. */
  lemma PerConfigHeaderCount(names: seq<string>)
    requires forall k :: 0 <= k < |names| ==> ';' !in names[k]
    ensures Count(PerConfigHeader(names), ';') == 3 * |names|
  {
    var blocks := ColumnBlocks(Sort(names));
    assert ';' !in ", runtime [s]" && ';' !in ", exit condition" && ';' !in ", timeout";
    forall k, i | 0 <= k < |blocks| && 0 <= i < |blocks[k]|
      ensures ';' !in blocks[k][i]
    {
      SortedNameOf(names, k);
    }
    FlattenAvoids(blocks, ';');
    FlattenLength(blocks, 3);
    var fields := PerConfigHeaderFields(names);
    assert ';' !in "input file";
    assert forall i :: 0 < i < |fields| ==> fields[i] == Flatten(blocks)[i - 1];
    assert Count(";", ';') == 1;
    CountJoin(";", fields, ';');
  }

  /** As long as no configuration name holds a ';', the average header has
      1 + k fields for k names. */
  lemma AvgHeaderCount(names: seq<string>)
    requires forall k :: 0 <= k < |names| ==> ';' !in names[k]
    ensures Count(AvgHeader(names), ';') == |names|
    ensures |AvgHeaderFields(names)| == 1 + |names|
  {
    var fields := AvgHeaderFields(names);
    assert ';' !in ", average runtime [s]" && ';' !in "input file";
    forall i | 0 <= i < |fields|
      ensures ';' !in fields[i]
    {
      if i > 0 {
        SortedNameOf(names, i - 1);
      }
    }
    assert Count(";", ';') == 1;
    CountJoin(";", fields, ';');
  }

  /** Both configuration headers begin with the input-file column. */
  lemma HeadersStartWithInputFile(names: seq<string>)
    ensures StartsWith(PerConfigHeader(names), "input file")
    ensures StartsWith(AvgHeader(names), "input file")
  {
    JoinStartsWith(";", PerConfigHeaderFields(names));
    JoinStartsWith(";", AvgHeaderFields(names));
  }

  /** Sorting the configuration's names in place changes no header built
      from them later: the headers depend on the names' sorted order only. */
  lemma HeadersIgnoreSorting(names: seq<string>)
    ensures PerConfigHeader(Sort(names)) == PerConfigHeader(names)
    ensures AvgHeader(Sort(names)) == AvgHeader(names)
  {
    SortIdempotent(names);
  }

  // ---------------------------------------------------------------------
  // The raw table

  /** The raw row of one result: time, input file, configuration name,
      exit code and timeout flag, separated by ";". */
  function RawRow(show: real -> string, r: SingleRunResult): string
  {
    Join(";", [show(r.timeElapsed), r.inputFile, r.configName,
               IntToString(r.returnCode), BoolToString(r.timeoutOccurred)])
  }

  /** The raw rows of one file's results, in order. */
  function RawRowsOf(show: real -> string, xs: seq<SingleRunResult>): seq<string>
  {
    seq(|xs|, k requires 0 <= k < |xs| => RawRow(show, xs[k]))
  }

  /** The raw rows of all files, file by file in `order`. */
  function RawRows(show: real -> string, order: seq<string>, m: map<string, seq<SingleRunResult>>): seq<string>
    requires forall k :: 0 <= k < |order| ==> order[k] in m
  {
    if order == [] then []
    else RawRows(show, order[..|order| - 1], m) + RawRowsOf(show, m[order[|order| - 1]])
  }

  /** The raw table of a store: its header, then every result's row. */
  function RawTable(show: real -> string, s: Store): string
    requires forall k :: 0 <= k < |s.fileOrder| ==> s.fileOrder[k] in s.fileToResult
  {
    RawHeader + "\n" + LinesOf(RawRows(show, s.fileOrder, s.fileToResult))
  }

  /** There is one raw row per result of the files of `order`. */
  lemma {:induction false} RawRowsCount(show: real -> string, order: seq<string>, m: map<string, seq<SingleRunResult>>)
    requires forall k :: 0 <= k < |order| ==> order[k] in m
    ensures |RawRows(show, order, m)| == SumCount(Measurements, order, m)
  {
    if order != [] {
      RawRowsCount(show, order[..|order| - 1], m);
      MeasurementsCountAll(m[order[|order| - 1]]);
    }
  }

  /** The raw table of a valid store has as many rows as the store counted
      measurements. */
  lemma RawTableRows(show: real -> string, s: Store)
    requires ValidStore(s)
    ensures |RawRows(show, s.fileOrder, s.fileToResult)| == s.nMeasurements
  {
    RawRowsCount(show, s.fileOrder, s.fileToResult);
    assert CounterValue(s, Measurements) == SumCount(Measurements, s.fileOrder, s.fileToResult);
  }

  /** A raw row has as many fields as the raw header (five), as long as the
      rendered time, the file and the configuration name hold no ';'. */
  lemma RawRowMatchesHeader(show: real -> string, r: SingleRunResult)
    requires ';' !in show(r.timeElapsed) && ';' !in r.inputFile && ';' !in r.configName
    ensures Count(RawRow(show, r), ';') == 4 == Count(RawHeader, ';')
  {
    IntToStringAvoids(r.returnCode, ';');
    assert ';' !in "True" && ';' !in "False";
    var fields := [show(r.timeElapsed), r.inputFile, r.configName,
                   IntToString(r.returnCode), BoolToString(r.timeoutOccurred)];
    assert forall k :: 0 <= k < |fields| ==> ';' !in fields[k];
    assert Count(";", ';') == 1;
    CountJoin(";", fields, ';');
    RawHeaderShape();
  }

  // ---------------------------------------------------------------------
  // Tables that may stop early

  /** The rows written before a table stopped, and whether it was
      finished: a missing configuration or repetition raises an exception
      in the middle of the table, after the rows before it were written. */
  datatype Partial = Partial(rows: seq<string>, complete: bool)

  // ---------------------------------------------------------------------
  // The per-configuration table

  /** One row of the per-configuration table is due for each input file
      and each repetition. */
  datatype Slot = Slot(file: string, repetition: nat)

  /** `for i in range(0, n)`: the number of rounds. */
  function RangeLength(n: int): nat
  {
    if n < 0 then 0 else n
  }

  /** The slots of one file: repetitions 0 to `reps - 1`. */
  function FileSlots(file: string, reps: nat): seq<Slot>
  {
    seq(reps, i requires 0 <= i < reps => Slot(file, i))
  }

  /** The slots of all files, file by file. */
  function Slots(order: seq<string>, reps: nat): seq<Slot>
  {
    if order == [] then [] else Slots(order[..|order| - 1], reps) + FileSlots(order[|order| - 1], reps)
  }

  lemma {:induction false} SlotsCount(order: seq<string>, reps: nat)
    ensures |Slots(order, reps)| == |order| * reps
  {
    if order != [] {
      SlotsCount(order[..|order| - 1], reps);
      assert |order| * reps == (|order| - 1) * reps + reps;
    }
  }

  /** Slot `i × reps + j` is repetition j of file i: exactly `reps` rows
      per file, file by file. */
  lemma {:induction false} SlotAt(order: seq<string>, reps: nat, i: nat, j: nat)
    requires i < |order| && j < reps
    ensures i * reps + j < |Slots(order, reps)|
    ensures Slots(order, reps)[i * reps + j] == Slot(order[i], j)
  {
    var n := |order|;
    var init := order[..n - 1];
    SlotsCount(init, reps);
    if i < n - 1 {
      SlotAt(init, reps, i, j);
      assert init[i] == order[i];
    } else {
      assert i * reps == (n - 1) * reps;
    }
  }

  /** Every slot names a file of `order` and a repetition below `reps`. */
  lemma {:induction false} SlotsMembers(order: seq<string>, reps: nat)
    ensures forall j :: 0 <= j < |Slots(order, reps)| ==>
              Slots(order, reps)[j].file in order && Slots(order, reps)[j].repetition < reps
  {
    if order != [] {
      var init := order[..|order| - 1];
      SlotsMembers(init, reps);
      assert forall f :: f in init ==> f in order;
    }
  }

  lemma {:induction false} SlotsConcat(a: seq<string>, b: seq<string>, reps: nat)
    ensures Slots(a + b, reps) == Slots(a, reps) + Slots(b, reps)
    decreases |b|
  {
    if b == [] {
      assert a + b == a;
    } else {
      var b' := b[..|b| - 1];
      var ab := a + b;
      assert ab[..|ab| - 1] == a + b' && ab[|ab| - 1] == b[|b| - 1];
      assert Slots(ab, reps) == Slots(a + b', reps) + FileSlots(b[|b| - 1], reps);
      SlotsConcat(a, b', reps);
    }
  }

  /** Every sorted configuration name has a result for repetition `i`:
      `cfg_dict[name][i]` raises no exception. */
  predicate HasRepetition(cfg: map<string, seq<SingleRunResult>>, names: seq<string>, i: nat)
  {
    forall k :: 0 <= k < |names| ==> names[k] in cfg && i < |cfg[names[k]]|
  }

  /** The three cells of one result: time, exit code and timeout flag. */
  function Cells(show: real -> string, r: SingleRunResult): seq<string>
  {
    [show(r.timeElapsed), IntToString(r.returnCode), BoolToString(r.timeoutOccurred)]
  }

  /** The cells of repetition `i` of every name, one block per name. */
  function CellBlocks(show: real -> string, cfg: map<string, seq<SingleRunResult>>, names: seq<string>, i: nat)
    : seq<seq<string>>
    requires HasRepetition(cfg, names, i)
  {
    seq(|names|, k requires 0 <= k < |names| => Cells(show, cfg[names[k]][i]))
  }

  /** `values` of repetition `i` of one file: the file, then the cells of
      each name in order. */
  function PerConfigValues(show: real -> string, file: string, cfg: map<string, seq<SingleRunResult>>,
                           names: seq<string>, i: nat): seq<string>
    requires HasRepetition(cfg, names, i)
  {
    [file] + Flatten(CellBlocks(show, cfg, names, i))
  }

  predicate SlotReady(sorted: map<string, map<string, seq<SingleRunResult>>>, names: seq<string>, slot: Slot)
  {
    slot.file in sorted && HasRepetition(sorted[slot.file], names, slot.repetition)
  }

  function SlotRow(show: real -> string, sorted: map<string, map<string, seq<SingleRunResult>>>,
                   names: seq<string>, slot: Slot): string
    requires SlotReady(sorted, names, slot)
  {
    Join(";", PerConfigValues(show, slot.file, sorted[slot.file], names, slot.repetition))
  }

  /** The rows written for `slots`, in order, up to the first slot whose
      row cannot be built. */
  function PerConfigRows(show: real -> string, sorted: map<string, map<string, seq<SingleRunResult>>>,
                         names: seq<string>, slots: seq<Slot>): Partial
  {
    if slots == [] then Partial([], true)
    else
      var p := PerConfigRows(show, sorted, names, slots[..|slots| - 1]);
      var slot := slots[|slots| - 1];
      if !p.complete then p
      else if SlotReady(sorted, names, slot) then Partial(p.rows + [SlotRow(show, sorted, names, slot)], true)
      else Partial(p.rows, false)
  }

  /** The per-configuration table is finished iff every slot's row can be
      built; then it holds one row per slot, and otherwise it holds the
      rows of the slots before the first failing one. */
  lemma {:induction false} PerConfigRowsMeaning(show: real -> string, sorted: map<string, map<string, seq<SingleRunResult>>>,
                                                names: seq<string>, slots: seq<Slot>)
    ensures PerConfigRows(show, sorted, names, slots).complete
            <==> forall j :: 0 <= j < |slots| ==> SlotReady(sorted, names, slots[j])
    ensures |PerConfigRows(show, sorted, names, slots).rows| <= |slots|
    ensures PerConfigRows(show, sorted, names, slots).complete
            ==> |PerConfigRows(show, sorted, names, slots).rows| == |slots|
    ensures forall j :: 0 <= j < |PerConfigRows(show, sorted, names, slots).rows| ==>
              SlotReady(sorted, names, slots[j])
              && PerConfigRows(show, sorted, names, slots).rows[j] == SlotRow(show, sorted, names, slots[j])
    ensures !PerConfigRows(show, sorted, names, slots).complete
            ==> |PerConfigRows(show, sorted, names, slots).rows| < |slots|
                && !SlotReady(sorted, names, slots[|PerConfigRows(show, sorted, names, slots).rows|])
  {
    if slots != [] {
      var init := slots[..|slots| - 1];
      PerConfigRowsMeaning(show, sorted, names, init);
      assert forall j :: 0 <= j < |init| ==> init[j] == slots[j];
    }
  }

  /** Once the table has stopped, later slots add nothing. */
  lemma {:induction false} PerConfigRowsStopped(show: real -> string, sorted: map<string, map<string, seq<SingleRunResult>>>,
                                                names: seq<string>, a: seq<Slot>, b: seq<Slot>)
    requires !PerConfigRows(show, sorted, names, a).complete
    ensures PerConfigRows(show, sorted, names, a + b) == PerConfigRows(show, sorted, names, a)
    decreases |b|
  {
    if b == [] {
      assert a + b == a;
    } else {
      var b' := b[..|b| - 1];
      assert (a + b)[..|a + b| - 1] == a + b';
      PerConfigRowsStopped(show, sorted, names, a, b');
    }
  }

  /** How the table of `done + [slot]` follows from that of `done`. */
  lemma PerConfigRowsStep(show: real -> string, sorted: map<string, map<string, seq<SingleRunResult>>>,
                          names: seq<string>, done: seq<Slot>, slot: Slot)
    ensures PerConfigRows(show, sorted, names, done + [slot])
         == var p := PerConfigRows(show, sorted, names, done);
            if !p.complete then p
            else if SlotReady(sorted, names, slot) then Partial(p.rows + [SlotRow(show, sorted, names, slot)], true)
            else Partial(p.rows, false)
  {
    assert (done + [slot])[..|done|] == done;
  }

  /** A per-configuration row has as many fields as the header (1 + 3k for
      k names), as long as no file, name or rendered time holds a ';'. */
  lemma PerConfigRowMatchesHeader(show: real -> string, sorted: map<string, map<string, seq<SingleRunResult>>>,
                                  names: seq<string>, slot: Slot)
    requires SlotReady(sorted, names, slot)
    requires forall k :: 0 <= k < |names| ==> ';' !in names[k]
    requires ';' !in slot.file
    requires forall k :: 0 <= k < |names| ==>
               ';' !in show(sorted[slot.file][names[k]][slot.repetition].timeElapsed)
    ensures Count(SlotRow(show, sorted, names, slot), ';') == 3 * |names| == Count(PerConfigHeader(names), ';')
  {
    var cfg := sorted[slot.file];
    var blocks := CellBlocks(show, cfg, names, slot.repetition);
    assert ';' !in "True" && ';' !in "False";
    forall k, i | 0 <= k < |blocks| && 0 <= i < |blocks[k]|
      ensures ';' !in blocks[k][i]
    {
      IntToStringAvoids(cfg[names[k]][slot.repetition].returnCode, ';');
    }
    FlattenAvoids(blocks, ';');
    FlattenLength(blocks, 3);
    var values := PerConfigValues(show, slot.file, cfg, names, slot.repetition);
    assert forall i :: 0 < i < |values| ==> values[i] == Flatten(blocks)[i - 1];
    assert Count(";", ';') == 1;
    CountJoin(";", values, ';');
    PerConfigHeaderCount(names);
  }

  /** After `process_timings`, the per-configuration table is finished
      whenever every input file has at least `reps` results of every
      configuration name, which is what running every configuration
      `reps` times on every file yields. */
  lemma ProcessedTableComplete(show: real -> string, s: Store, names: seq<string>, reps: nat)
    requires Ordered(s)
    requires forall f, k :: f in s.fileToResult && 0 <= k < |names| ==> reps <= |Group(s.fileToResult[f], names[k])|
    ensures PerConfigRows(show, Processed(s).fileToSortedResult, Sort(names), Slots(Processed(s).processedOrder, reps)).complete
  {
    var p := Processed(s);
    var sorted := Sort(names);
    var slots := Slots(p.processedOrder, reps);
    SlotsMembers(p.processedOrder, reps);
    forall j | 0 <= j < |slots|
      ensures SlotReady(p.fileToSortedResult, sorted, slots[j])
    {
      var f := slots[j].file;
      var data := s.fileToResult[f];
      forall k | 0 <= k < |sorted|
        ensures sorted[k] in p.fileToSortedResult[f] && slots[j].repetition < |p.fileToSortedResult[f][sorted[k]]|
      {
        SortedNameOf(names, k);
        var n :| 0 <= n < |names| && names[n] == sorted[k];
        assert Group(data, sorted[k]) != [];
        GroupMapKeys(data, sorted[k]);
      }
    }
    PerConfigRowsMeaning(show, p.fileToSortedResult, sorted, slots);
  }

  // ---------------------------------------------------------------------
  // The table of averages

  /** Every sorted configuration name has an average: `cfg_dict[name]`
      raises no exception. */
  predicate HasAverages(avg: map<string, real>, names: seq<string>)
  {
    forall k :: 0 <= k < |names| ==> names[k] in avg
  }

  /** The row of one file: the file, then the rendered average of each
      name in order. */
  function AvgValues(show: real -> string, file: string, avg: map<string, real>, names: seq<string>): seq<string>
    requires HasAverages(avg, names)
  {
    [file] + seq(|names|, k requires 0 <= k < |names| => show(avg[names[k]]))
  }

  /** The rows written for the files of `order`, in order, up to the first
      file missing an average. */
  function AvgRows(show: real -> string, avgs: map<string, map<string, real>>, names: seq<string>,
                   order: seq<string>): Partial
    requires forall k :: 0 <= k < |order| ==> order[k] in avgs
  {
    if order == [] then Partial([], true)
    else
      var p := AvgRows(show, avgs, names, order[..|order| - 1]);
      var f := order[|order| - 1];
      if !p.complete then p
      else if HasAverages(avgs[f], names) then Partial(p.rows + [Join(";", AvgValues(show, f, avgs[f], names))], true)
      else Partial(p.rows, false)
  }

  /** The table of averages is finished iff every file has every average;
      then it holds one row per file, and otherwise the rows of the files
      before the first one that has not. */
  lemma {:induction false} AvgRowsMeaning(show: real -> string, avgs: map<string, map<string, real>>,
                                          names: seq<string>, order: seq<string>)
    requires forall k :: 0 <= k < |order| ==> order[k] in avgs
    ensures AvgRows(show, avgs, names, order).complete
            <==> forall j :: 0 <= j < |order| ==> HasAverages(avgs[order[j]], names)
    ensures |AvgRows(show, avgs, names, order).rows| <= |order|
    ensures AvgRows(show, avgs, names, order).complete ==> |AvgRows(show, avgs, names, order).rows| == |order|
    ensures forall j :: 0 <= j < |AvgRows(show, avgs, names, order).rows| ==>
              HasAverages(avgs[order[j]], names)
              && AvgRows(show, avgs, names, order).rows[j] == Join(";", AvgValues(show, order[j], avgs[order[j]], names))
    ensures !AvgRows(show, avgs, names, order).complete
            ==> |AvgRows(show, avgs, names, order).rows| < |order|
                && !HasAverages(avgs[order[|AvgRows(show, avgs, names, order).rows|]], names)
  {
    if order != [] {
      var init := order[..|order| - 1];
      AvgRowsMeaning(show, avgs, names, init);
      assert forall j :: 0 <= j < |init| ==> init[j] == order[j];
    }
  }

  lemma AvgRowsStep(show: real -> string, avgs: map<string, map<string, real>>, names: seq<string>,
                    done: seq<string>, f: string)
    requires forall k :: 0 <= k < |done| ==> done[k] in avgs
    requires f in avgs
    ensures AvgRows(show, avgs, names, done + [f])
         == var p := AvgRows(show, avgs, names, done);
            if !p.complete then p
            else if HasAverages(avgs[f], names) then Partial(p.rows + [Join(";", AvgValues(show, f, avgs[f], names))], true)
            else Partial(p.rows, false)
  {
    assert (done + [f])[..|done|] == done;
  }

  lemma {:induction false} AvgRowsStopped(show: real -> string, avgs: map<string, map<string, real>>,
                                          names: seq<string>, a: seq<string>, b: seq<string>)
    requires forall k :: 0 <= k < |a| ==> a[k] in avgs
    requires forall k :: 0 <= k < |b| ==> b[k] in avgs
    requires !AvgRows(show, avgs, names, a).complete
    ensures AvgRows(show, avgs, names, a + b) == AvgRows(show, avgs, names, a)
    decreases |b|
  {
    if b == [] {
      assert a + b == a;
    } else {
      var b' := b[..|b| - 1];
      assert (a + b)[..|a + b| - 1] == a + b';
      AvgRowsStopped(show, avgs, names, a, b');
    }
  }

  /** An average row has as many fields as the average header (1 + k for k
      names), as long as no file, name or rendered average holds a ';'. */
  lemma AvgRowMatchesHeader(show: real -> string, file: string, avg: map<string, real>, names: seq<string>)
    requires HasAverages(avg, names)
    requires forall k :: 0 <= k < |names| ==> ';' !in names[k] && ';' !in show(avg[names[k]])
    requires ';' !in file
    ensures Count(Join(";", AvgValues(show, file, avg, names)), ';') == |names| == Count(AvgHeader(names), ';')
  {
    var values := AvgValues(show, file, avg, names);
    assert forall i :: 0 <= i < |values| ==> ';' !in values[i];
    assert Count(";", ';') == 1;
    CountJoin(";", values, ';');
    AvgHeaderCount(names);
  }

  /** After `process_timings`, a file has the average of every name that
      has at least one of its results. */
  lemma ProcessedFileAverages(s: Store, f: string, names: seq<string>)
    requires Ordered(s) && f in s.fileToResult
    requires forall k :: 0 <= k < |names| ==> Group(s.fileToResult[f], names[k]) != []
    ensures f in Processed(s).fileToResultAvg
    ensures HasAverages(Processed(s).fileToResultAvg[f], Sort(names))
  {
    var data := s.fileToResult[f];
    var sorted := Sort(names);
    assert Processed(s).fileToResultAvg[f] == AvgMap(data);
    forall k | 0 <= k < |sorted|
      ensures sorted[k] in AvgMap(data)
    {
      SortedNameOf(names, k);
      var n :| 0 <= n < |names| && names[n] == sorted[k];
      GroupMapKeys(data, sorted[k]);
      TimesMapKeys(data, sorted[k]);
    }
  }

  /** So every file that can fill a per-configuration row also fills an
      average row, and the table of averages is finished. */
  lemma ProcessedAveragesComplete(show: real -> string, s: Store, names: seq<string>)
    requires Ordered(s)
    requires forall f, k :: f in s.fileToResult && 0 <= k < |names| ==> Group(s.fileToResult[f], names[k]) != []
    ensures forall k :: 0 <= k < |Processed(s).processedOrder| ==>
              Processed(s).processedOrder[k] in Processed(s).fileToResultAvg
    ensures AvgRows(show, Processed(s).fileToResultAvg, Sort(names), Processed(s).processedOrder).complete
  {
    var p := Processed(s);
    forall j | 0 <= j < |p.processedOrder|
      ensures p.processedOrder[j] in p.fileToResultAvg
      ensures HasAverages(p.fileToResultAvg[p.processedOrder[j]], Sort(names))
    {
      ProcessedFileAverages(s, p.processedOrder[j], names);
    }
    AvgRowsMeaning(show, p.fileToResultAvg, Sort(names), p.processedOrder);
  }

  // ---------------------------------------------------------------------
  // Report files

  /** The text of file `name`; a file never written is empty. */
  function Read(files: map<string, string>, name: string): string
  {
    if name in files then files[name] else ""
  }

  /** Writing `text` at the end of file `name`. */
  function Append(files: map<string, string>, name: string, text: string): map<string, string>
  {
    files[name := Read(files, name) + text]
  }

  lemma AppendNothing(files: map<string, string>, name: string)
    requires name in files
    ensures Append(files, name, "") == files
  {
    assert files[name] + "" == files[name];
  }

  lemma AppendAfterSet(files: map<string, string>, name: string, t: string, a: string)
    ensures Append(files[name := t], name, a) == files[name := t + a]
  {
  }

  lemma AppendTwice(files: map<string, string>, name: string, a: string, b: string)
    ensures Append(Append(files, name, a), name, b) == Append(files, name, a + b)
  {
    assert Read(files, name) + a + b == Read(files, name) + (a + b);
  }

  /** Printing more lines after some lines. */
  lemma AppendLines(files: map<string, string>, name: string, lines: seq<string>, more: seq<string>)
    ensures Append(Append(files, name, LinesOf(lines)), name, LinesOf(more)) == Append(files, name, LinesOf(lines + more))
  {
    AppendTwice(files, name, LinesOf(lines), LinesOf(more));
    LinesOfConcat(lines, more);
  }

  /** The attributes of the configuration the processor reads. */
  datatype ReportSettings = ReportSettings(
    timingCsvFileName: string,
    perConfigTimingCsvFileName: string,
    avgPerConfigTimingCsvFileName: string,
    runConfigNames: seq<string>,
    repetitions: int)

  /** The file a writer is created for, if its name is set. */
  function NameIfSet(name: string): Option<string>
  {
    if name == "" then None else Some(name)
  }

  /** The files after the constructor: each writer whose file name is set
      opens its file, which empties it, and prints its header. */
  function Opened(files: map<string, string>, c: ReportSettings): map<string, string>
  {
    var f1 := if c.timingCsvFileName != "" then files[c.timingCsvFileName := RawHeader + "\n"] else files;
    var f2 := if c.perConfigTimingCsvFileName != "" then f1[c.perConfigTimingCsvFileName := PerConfigHeader(c.runConfigNames) + "\n"] else f1;
    if c.avgPerConfigTimingCsvFileName != "" then f2[c.avgPerConfigTimingCsvFileName := AvgHeader(c.runConfigNames) + "\n"] else f2
  }

  /** The rows of the per-configuration table of a processed store:
      `repetitions` rows per file, in the derived dictionaries' order. */
  function TableRows(show: real -> string, s: Store, names: seq<string>, reps: int): Partial
  {
    PerConfigRows(show, s.fileToSortedResult, Sort(names), Slots(s.processedOrder, RangeLength(reps)))
  }

  /** The rows of the table of averages of a processed store. */
  function AverageRows(show: real -> string, s: Store, names: seq<string>): Partial
    requires Ordered(s)
  {
    AvgRows(show, s.fileToResultAvg, Sort(names), s.processedOrder)
  }

  /** The files after writing, and whether no exception was raised. */
  datatype Written = Written(files: map<string, string>, ok: bool)

  /** `write_result_files()`: `raw` is the raw table's file when its writer
      exists, `perConfig` the file the per-configuration table goes to when
      its writer exists, and `avg` the file of the writer of averages when
      it exists. The raw table is written whole. The per-configuration
      table is written up to its first missing entry, where an exception
      ends the call; then, if there is a writer of averages, the averages
      are printed after what its file holds, again up to the first missing
      one. */
  function WrittenFiles(files: map<string, string>, show: real -> string, s: Store, names: seq<string>, reps: int,
                        raw: Option<string>, perConfig: Option<string>, avg: Option<string>): Written
    requires Ordered(s)
  {
    var f1 := if raw.Some? then files[raw.value := RawTable(show, s)] else files;
    if perConfig.None? then Written(f1, true)
    else TablesWritten(f1, perConfig.value, PerConfigHeader(names), TableRows(show, s, names, reps),
                       avg, AverageRows(show, s, names))
  }

  /** `writer_per_config_file()` on files: the per-configuration table
      `t` replaces file `name`; if it was finished and there is a writer of
      averages, the averages `a` are printed after what its file holds. */
  function TablesWritten(files: map<string, string>, name: string, header: string, t: Partial,
                         avg: Option<string>, a: Partial): Written
  {
    var f := files[name := header + "\n" + LinesOf(t.rows)];
    if !t.complete || avg.None? then Written(f, t.complete)
    else Written(Append(f, avg.value, LinesOf(a.rows)), a.complete)
  }

  /** A processor built on a valid store, then asked to write its files,
      with the per-configuration table sent to `perConfigTarget`. */
  function ReportTo(files: map<string, string>, show: real -> string, s: Store, c: ReportSettings,
                    perConfigTarget: string): Written
    requires ValidStore(s)
  {
    ProcessedValid(s);
    WrittenFiles(Opened(files, c), show, Processed(s), c.runConfigNames, c.repetitions,
                 NameIfSet(c.timingCsvFileName),
                 if c.perConfigTimingCsvFileName != "" then Some(perConfigTarget) else None,
                 NameIfSet(c.avgPerConfigTimingCsvFileName))
  }

  /** The report as the processor writes it: the per-configuration table
      goes to the raw table's file, `timing_csv_file_name`. */
  function ReportAsWritten(files: map<string, string>, show: real -> string, s: Store, c: ReportSettings): Written
    requires ValidStore(s)
  {
    ReportTo(files, show, s, c, c.timingCsvFileName)
  }

  /** The report as intended: the per-configuration table goes to its own
      file. `ResultProcessor` below writes this one. */
  function Report(files: map<string, string>, show: real -> string, s: Store, c: ReportSettings): Written
    requires ValidStore(s)
  {
    ReportTo(files, show, s, c, c.perConfigTimingCsvFileName)
  }

  /** As written, when both the raw and the per-configuration files are
      asked for, the raw table never survives in its file: the file ends up
      holding the per-configuration table, which begins with another
      header. */
  lemma AsWrittenLosesRawTable(files: map<string, string>, show: real -> string, s: Store, c: ReportSettings)
    requires ValidStore(s)
    requires c.timingCsvFileName != "" && c.perConfigTimingCsvFileName != ""
    ensures StartsWith(Read(ReportAsWritten(files, show, s, c).files, c.timingCsvFileName), PerConfigHeader(c.runConfigNames))
    ensures Read(ReportAsWritten(files, show, s, c).files, c.timingCsvFileName) != RawTable(show, s)
  {
    ProcessedValid(s);
    var p, names := Processed(s), c.runConfigNames;
    var name := c.timingCsvFileName;
    var header := PerConfigHeader(names);
    var f1 := Opened(files, c)[name := RawTable(show, p)];
    var r := TablesWritten(f1, name, header, TableRows(show, p, names, c.repetitions),
                           NameIfSet(c.avgPerConfigTimingCsvFileName), AverageRows(show, p, names));
    assert ReportAsWritten(files, show, s, c) == r;
    TablesWrittenStartWithHeader(f1, name, header, TableRows(show, p, names, c.repetitions),
                                 NameIfSet(c.avgPerConfigTimingCsvFileName), AverageRows(show, p, names));
    HeadersStartWithInputFile(names);
    RawHeaderShape();
    assert Read(r.files, name)[0] == header[0] == "input file"[0] == 'i';
    assert RawTable(show, s)[0] == RawHeader[0] == "runtime [s]"[0] == 'r';
  }

  /** The file the per-configuration table replaces begins with that
      table's header, whether or not the averages follow it there. */
  lemma TablesWrittenStartWithHeader(files: map<string, string>, name: string, header: string, t: Partial,
                                     avg: Option<string>, a: Partial)
    ensures StartsWith(Read(TablesWritten(files, name, header, t, avg, a).files, name), header)
  {
    var table := header + "\n" + LinesOf(t.rows);
    assert table[..|header|] == header;
    if t.complete && avg.Some? && avg.value == name {
      assert Read(TablesWritten(files, name, header, t, avg, a).files, name) == table + LinesOf(a.rows);
      assert (table + LinesOf(a.rows))[..|header|] == header;
    }
  }

  /** As intended, with three distinct file names, each file holds its own
      table: the raw table whole, the per-configuration table up to its
      first missing entry, and the averages after their header when the
      per-configuration table was finished. */
  lemma ReportWritesEachTable(files: map<string, string>, show: real -> string, s: Store, c: ReportSettings)
    requires ValidStore(s)
    requires c.timingCsvFileName != "" && c.perConfigTimingCsvFileName != "" && c.avgPerConfigTimingCsvFileName != ""
    requires c.timingCsvFileName != c.perConfigTimingCsvFileName
    requires c.timingCsvFileName != c.avgPerConfigTimingCsvFileName
    requires c.perConfigTimingCsvFileName != c.avgPerConfigTimingCsvFileName
    ensures Ordered(Processed(s))
    ensures Read(Report(files, show, s, c).files, c.timingCsvFileName) == RawTable(show, s)
    ensures Read(Report(files, show, s, c).files, c.perConfigTimingCsvFileName)
         == PerConfigHeader(c.runConfigNames) + "\n" + LinesOf(TableRows(show, Processed(s), c.runConfigNames, c.repetitions).rows)
    ensures Read(Report(files, show, s, c).files, c.avgPerConfigTimingCsvFileName)
         == AvgHeader(c.runConfigNames) + "\n"
            + (if TableRows(show, Processed(s), c.runConfigNames, c.repetitions).complete
               then LinesOf(AverageRows(show, Processed(s), c.runConfigNames).rows) else "")
    ensures Report(files, show, s, c).ok
        == (TableRows(show, Processed(s), c.runConfigNames, c.repetitions).complete
            && AverageRows(show, Processed(s), c.runConfigNames).complete)
  {
    ProcessedValid(s);
  }

  /** Writing the report raises an exception iff the per-configuration
      file is asked for and its table, or the averages when asked for, miss
      an entry. */
  lemma ReportOk(files: map<string, string>, show: real -> string, s: Store, c: ReportSettings)
    requires ValidStore(s)
    ensures Ordered(Processed(s))
    ensures Report(files, show, s, c).ok
        <==> (c.perConfigTimingCsvFileName != ""
              ==> TableRows(show, Processed(s), c.runConfigNames, c.repetitions).complete
                  && (c.avgPerConfigTimingCsvFileName != "" ==> AverageRows(show, Processed(s), c.runConfigNames).complete))
  {
    ProcessedValid(s);
  }

  /** When every configuration ran `repetitions` times (at least once) on
      every input file, writing the report raises no exception. */
  lemma ReportCompleteWhenEveryRunIsThere(files: map<string, string>, show: real -> string, s: Store, c: ReportSettings)
    requires ValidStore(s) && c.repetitions > 0
    requires forall f, k :: f in s.fileToResult && 0 <= k < |c.runConfigNames| ==>
               c.repetitions <= |Group(s.fileToResult[f], c.runConfigNames[k])|
    ensures Report(files, show, s, c).ok
  {
    var p, names := Processed(s), c.runConfigNames;
    ReportOk(files, show, s, c);
    assert Ordered(s);
    assert RangeLength(c.repetitions) == c.repetitions;
    ProcessedTableComplete(show, s, names, c.repetitions);
    assert TableRows(show, p, names, c.repetitions).complete;
    assert forall f, k :: f in s.fileToResult && 0 <= k < |names| ==> Group(s.fileToResult[f], names[k]) != [];
    ProcessedAveragesComplete(show, s, names);
    assert AverageRows(show, p, names).complete;
  }

  // ---------------------------------------------------------------------
  // Files and writers

  /** The file system, as far as the report goes: file names and texts. */
  class Disk {
    var files: map<string, string>

    constructor (files: map<string, string>)
      ensures this.files == files
    {
      this.files := files;
    }
  }

  /** A writer bound to one file on a disk. */
  class CsvWriter {
    const disk: Disk
    const name: string
    var closed: bool

    /** `FileWriter(name, header=header)`: opens `name` for writing, which
        empties it, and prints the header as its first line. */
    constructor (disk: Disk, name: string, header: string)
      modifies disk
      ensures this.disk == disk && this.name == name && !closed
      ensures disk.files == old(disk.files)[name := header + "\n"]
    {
      this.disk := disk;
      this.name := name;
      closed := false;
      new;
      disk.files := disk.files[name := header + "\n"];
    }

    /** Prints `line` followed by a newline. */
    method WriteLine(line: string)
      modifies disk
      ensures disk.files == Append(old(disk.files), name, line + "\n")
    {
      disk.files := Append(disk.files, name, line + "\n");
    }

    method Finalize()
      modifies this
      ensures closed
    {
      closed := true;
    }
  }

  /** The configuration object the processor reads, and whose list of
      names it sorts. */
  class ReportConfig {
    var timingCsvFileName: string
    var perConfigTimingCsvFileName: string
    var avgPerConfigTimingCsvFileName: string
    var runConfigNames: seq<string>
    var repetitions: int

    function State(): ReportSettings
      reads this
    {
      ReportSettings(timingCsvFileName, perConfigTimingCsvFileName, avgPerConfigTimingCsvFileName,
                     runConfigNames, repetitions)
    }

    constructor (c: ReportSettings)
      ensures State() == c
    {
      timingCsvFileName := c.timingCsvFileName;
      perConfigTimingCsvFileName := c.perConfigTimingCsvFileName;
      avgPerConfigTimingCsvFileName := c.avgPerConfigTimingCsvFileName;
      runConfigNames := c.runConfigNames;
      repetitions := c.repetitions;
    }

    /** `config_names.sort()` on the configuration's own list. */
    method SortRunConfigNames()
      modifies this
      ensures State() == old(State()).(runConfigNames := Sort(old(runConfigNames)))
    {
      runConfigNames := Sort(runConfigNames);
    }
  }

  /** The raw rows of one file's results, printed one by one. */
  method WriteRawRows(w: CsvWriter, show: real -> string, xs: seq<SingleRunResult>)
    requires w.name in w.disk.files
    modifies w.disk
    ensures w.disk.files == Append(old(w.disk.files), w.name, LinesOf(RawRowsOf(show, xs)))
  {
    assert RawRowsOf(show, xs[..0]) == [];
    AppendNothing(w.disk.files, w.name);
    for k := 0 to |xs|
      invariant w.disk.files == Append(old(w.disk.files), w.name, LinesOf(RawRowsOf(show, xs[..k])))
    {
      var line := RawRow(show, xs[k]);
      assert RawRowsOf(show, xs[..k + 1]) == RawRowsOf(show, xs[..k]) + [line];
      w.WriteLine(line);
      AppendLines(old(w.disk.files), w.name, RawRowsOf(show, xs[..k]), [line]);
      assert LinesOf([line]) == line + "\n";
    }
    assert xs[..|xs|] == xs;
  }

  /** The raw rows of the files of `order`, file by file. */
  method WriteRawTable(w: CsvWriter, show: real -> string, order: seq<string>, m: map<string, seq<SingleRunResult>>)
    requires forall k :: 0 <= k < |order| ==> order[k] in m
    requires w.name in w.disk.files
    modifies w.disk
    ensures w.disk.files == Append(old(w.disk.files), w.name, LinesOf(RawRows(show, order, m)))
  {
    assert RawRows(show, order[..0], m) == [];
    AppendNothing(w.disk.files, w.name);
    for i := 0 to |order|
      invariant w.disk.files == Append(old(w.disk.files), w.name, LinesOf(RawRows(show, order[..i], m)))
    {
      assert order[..i + 1][..i] == order[..i];
      WriteRawRows(w, show, m[order[i]]);
      AppendLines(old(w.disk.files), w.name, RawRows(show, order[..i], m), RawRowsOf(show, m[order[i]]));
    }
    assert order[..|order|] == order;
  }

  /** `values` of repetition `i` of a file, built name by name: `None` at
      the first name without a result for that repetition. */
  method RowValues(show: real -> string, file: string, cfg: map<string, seq<SingleRunResult>>,
                   names: seq<string>, i: nat) returns (v: Option<seq<string>>)
    ensures v.Some? <==> HasRepetition(cfg, names, i)
    ensures v.Some? ==> HasRepetition(cfg, names, i) && v.value == PerConfigValues(show, file, cfg, names, i)
  {
    var values := [file];
    for k := 0 to |names|
      invariant HasRepetition(cfg, names[..k], i)
      invariant values == [file] + Flatten(CellBlocks(show, cfg, names[..k], i))
    {
      var name := names[k];
      if name !in cfg || i >= |cfg[name]| {
        return None;
      }
      var result := cfg[name][i];
      assert HasRepetition(cfg, names[..k + 1], i);
      assert CellBlocks(show, cfg, names[..k + 1], i) == CellBlocks(show, cfg, names[..k], i) + [Cells(show, result)];
      values := values + [show(result.timeElapsed), IntToString(result.returnCode), BoolToString(result.timeoutOccurred)];
    }
    assert names[..|names|] == names;
    return Some(values);
  }

  /** The row of one file: the file, then the rendered average of each
      name, built name by name: `None` at the first missing name. */
  method AvgValuesOf(show: real -> string, file: string, avg: map<string, real>, names: seq<string>)
    returns (v: Option<seq<string>>)
    ensures v.Some? <==> HasAverages(avg, names)
    ensures v.Some? ==> HasAverages(avg, names) && v.value == AvgValues(show, file, avg, names)
  {
    var values := [file];
    for k := 0 to |names|
      invariant HasAverages(avg, names[..k])
      invariant values == [file] + seq(k, j requires 0 <= j < k => show(avg[names[j]]))
    {
      var name := names[k];
      if name !in avg {
        return None;
      }
      values := values + [show(avg[name])];
    }
    assert names[..|names|] == names;
    return Some(values);
  }

  lemma FileSlotsStep(done: seq<Slot>, file: string, i: nat)
    ensures done + FileSlots(file, i + 1) == (done + FileSlots(file, i)) + [Slot(file, i)]
  {
    assert FileSlots(file, i + 1) == FileSlots(file, i) + [Slot(file, i)];
  }

  /** A file whose repetition `i` has no row ends the table there. */
  lemma FileSlotsStopped(show: real -> string, sorted: map<string, map<string, seq<SingleRunResult>>>,
                         names: seq<string>, done: seq<Slot>, file: string, i: nat, reps: nat)
    requires i < reps
    requires !PerConfigRows(show, sorted, names, done + FileSlots(file, i + 1)).complete
    ensures PerConfigRows(show, sorted, names, done + FileSlots(file, reps))
         == PerConfigRows(show, sorted, names, done + FileSlots(file, i + 1))
  {
    var all := FileSlots(file, reps);
    assert all == FileSlots(file, i + 1) + all[i + 1..];
    assert done + all == (done + FileSlots(file, i + 1)) + all[i + 1..];
    PerConfigRowsStopped(show, sorted, names, done + FileSlots(file, i + 1), all[i + 1..]);
  }

  /** A file whose rows stop the table ends it for the files after it too. */
  lemma TableStopped(show: real -> string, sorted: map<string, map<string, seq<SingleRunResult>>>,
                     names: seq<string>, order: seq<string>, fi: nat, reps: nat)
    requires fi < |order|
    requires !PerConfigRows(show, sorted, names, Slots(order[..fi + 1], reps)).complete
    ensures PerConfigRows(show, sorted, names, Slots(order, reps))
         == PerConfigRows(show, sorted, names, Slots(order[..fi + 1], reps))
  {
    assert order == order[..fi + 1] + order[fi + 1..];
    SlotsConcat(order[..fi + 1], order[fi + 1..], reps);
    PerConfigRowsStopped(show, sorted, names, Slots(order[..fi + 1], reps), Slots(order[fi + 1..], reps));
  }

  lemma OneLine(line: string)
    ensures LinesOf([line]) == line + "\n"
  {
    assert [line][1..] == [];
  }

  /** The rows of one file, for repetitions 0 to `reps - 1`, printed after
      the rows of the slots `done`; false at the first missing entry. */
  method WriteFileRows(w: CsvWriter, show: real -> string, file: string, cfg: map<string, seq<SingleRunResult>>,
                       names: seq<string>, reps: nat, ghost sorted: map<string, map<string, seq<SingleRunResult>>>,
                       ghost done: seq<Slot>, ghost base: map<string, string>) returns (ok: bool)
    requires file in sorted && sorted[file] == cfg
    requires PerConfigRows(show, sorted, names, done).complete
    requires w.disk.files == Append(base, w.name, LinesOf(PerConfigRows(show, sorted, names, done).rows))
    modifies w.disk
    ensures w.disk.files == Append(base, w.name, LinesOf(PerConfigRows(show, sorted, names, done + FileSlots(file, reps)).rows))
    ensures ok == PerConfigRows(show, sorted, names, done + FileSlots(file, reps)).complete
  {
    assert done + FileSlots(file, 0) == done;
    for i := 0 to reps
      invariant w.disk.files == Append(base, w.name, LinesOf(PerConfigRows(show, sorted, names, done + FileSlots(file, i)).rows))
      invariant PerConfigRows(show, sorted, names, done + FileSlots(file, i)).complete
    {
      ghost var before := done + FileSlots(file, i);
      ghost var rows := PerConfigRows(show, sorted, names, before).rows;
      FileSlotsStep(done, file, i);
      PerConfigRowsStep(show, sorted, names, before, Slot(file, i));
      var v := RowValues(show, file, cfg, names, i);
      if v.None? {
        FileSlotsStopped(show, sorted, names, done, file, i, reps);
        return false;
      }
      var line := Join(";", v.value);
      assert line == SlotRow(show, sorted, names, Slot(file, i));
      w.WriteLine(line);
      OneLine(line);
      AppendLines(base, w.name, rows, [line]);
    }
    return true;
  }

  /** The per-configuration rows of the files of `order`, printed file by
      file; false at the first missing entry. */
  method WriteTableRows(w: CsvWriter, show: real -> string, order: seq<string>,
                        sorted: map<string, map<string, seq<SingleRunResult>>>, names: seq<string>, reps: nat)
    returns (ok: bool)
    requires forall k :: 0 <= k < |order| ==> order[k] in sorted
    requires w.name in w.disk.files
    modifies w.disk
    ensures w.disk.files == Append(old(w.disk.files), w.name, LinesOf(PerConfigRows(show, sorted, names, Slots(order, reps)).rows))
    ensures ok == PerConfigRows(show, sorted, names, Slots(order, reps)).complete
  {
    AppendNothing(w.disk.files, w.name);
    assert Slots(order[..0], reps) == [];
    for fi := 0 to |order|
      invariant w.disk.files
             == Append(old(w.disk.files), w.name, LinesOf(PerConfigRows(show, sorted, names, Slots(order[..fi], reps)).rows))
      invariant PerConfigRows(show, sorted, names, Slots(order[..fi], reps)).complete
    {
      assert order[..fi + 1][..fi] == order[..fi];
      assert Slots(order[..fi + 1], reps) == Slots(order[..fi], reps) + FileSlots(order[fi], reps);
      ok := WriteFileRows(w, show, order[fi], sorted[order[fi]], names, reps, sorted, Slots(order[..fi], reps),
                          old(w.disk.files));
      if !ok {
        TableStopped(show, sorted, names, order, fi, reps);
        return;
      }
    }
    assert order[..|order|] == order;
    return true;
  }

  /** The rows of averages of the files of `order`, printed file by file;
      false at the first file missing an average. */
  method WriteAverages(w: CsvWriter, show: real -> string, order: seq<string>,
                       avgs: map<string, map<string, real>>, names: seq<string>) returns (ok: bool)
    requires forall k :: 0 <= k < |order| ==> order[k] in avgs
    requires w.name in w.disk.files
    modifies w.disk
    ensures w.disk.files == Append(old(w.disk.files), w.name, LinesOf(AvgRows(show, avgs, names, order).rows))
    ensures ok == AvgRows(show, avgs, names, order).complete
  {
    AppendNothing(w.disk.files, w.name);
    for fi := 0 to |order|
      invariant w.disk.files == Append(old(w.disk.files), w.name, LinesOf(AvgRows(show, avgs, names, order[..fi]).rows))
      invariant AvgRows(show, avgs, names, order[..fi]).complete
    {
      var file := order[fi];
      ghost var rows := AvgRows(show, avgs, names, order[..fi]).rows;
      assert order[..fi + 1] == order[..fi] + [file];
      AvgRowsStep(show, avgs, names, order[..fi], file);
      var v := AvgValuesOf(show, file, avgs[file], names);
      if v.None? {
        assert order == order[..fi + 1] + order[fi + 1..];
        AvgRowsStopped(show, avgs, names, order[..fi + 1], order[fi + 1..]);
        return false;
      }
      var line := Join(";", v.value);
      w.WriteLine(line);
      OneLine(line);
      AppendLines(old(w.disk.files), w.name, rows, [line]);
    }
    assert order[..|order|] == order;
    return true;
  }

  /** The per-configuration table into a new file `name`, then, if there
      is a writer of averages, the averages; false at the first missing
      entry. */
  method WriteConfigTables(disk: Disk, avgWriter: CsvWriter?, show: real -> string, name: string, header: string,
                           order: seq<string>, sorted: map<string, map<string, seq<SingleRunResult>>>,
                           avgs: map<string, map<string, real>>, names: seq<string>, reps: nat)
    returns (ok: bool)
    requires forall k :: 0 <= k < |order| ==> order[k] in sorted && order[k] in avgs
    requires avgWriter != null ==> avgWriter.disk == disk && avgWriter.name in disk.files
    modifies disk, avgWriter
    ensures Written(disk.files, ok)
         == TablesWritten(old(disk.files), name, header, PerConfigRows(show, sorted, names, Slots(order, reps)),
                          if avgWriter != null then Some(avgWriter.name) else None, AvgRows(show, avgs, names, order))
    ensures avgWriter != null ==> avgWriter.closed == (old(avgWriter.closed) || ok)
    ensures avgWriter != null ==> avgWriter.name in disk.files
  {
    var w := new CsvWriter(disk, name, header);
    ok := WriteTableRows(w, show, order, sorted, names, reps);
    AppendAfterSet(old(disk.files), name, header + "\n", LinesOf(PerConfigRows(show, sorted, names, Slots(order, reps)).rows));
    w.Finalize();
    if ok && avgWriter != null {
      ok := WriteAverages(avgWriter, show, order, avgs, names);
      if ok {
        avgWriter.Finalize();
      }
    }
  }

  /** `ResultProcessor`: the store, the configuration, and one writer per
      report file whose name was set when the processor was built. */
  class ResultProcessor {
    const runResult: RunResult
    const config: ReportConfig
    const disk: Disk
    /** `str()` of a float. */
    const show: real -> string
    const rawWriter: CsvWriter?
    const perConfigWriter: CsvWriter?
    const avgWriter: CsvWriter?

    ghost predicate Valid()
      reads runResult, disk
    {
      && runResult.Valid()
      && (avgWriter != null ==> avgWriter.disk == disk && avgWriter.name in disk.files)
    }

    /** Creates a writer, with its header, for each report file whose name
        is set, then groups and averages the store's results. */
    constructor (runResult: RunResult, config: ReportConfig, disk: Disk, show: real -> string)
      requires runResult.Valid()
      modifies runResult, disk
      ensures this.runResult == runResult && this.config == config && this.disk == disk && this.show == show
      ensures (rawWriter != null <==> config.timingCsvFileName != "")
      ensures (perConfigWriter != null <==> config.perConfigTimingCsvFileName != "")
      ensures (avgWriter != null <==> config.avgPerConfigTimingCsvFileName != "")
      ensures avgWriter != null ==> fresh(avgWriter) && avgWriter.name == config.avgPerConfigTimingCsvFileName && !avgWriter.closed
      ensures disk.files == Opened(old(disk.files), config.State())
      ensures runResult.State() == Processed(old(runResult.State()))
      ensures Valid()
    {
      var c := config.State();
      var raw: CsvWriter? := null;
      if c.timingCsvFileName != "" {
        raw := new CsvWriter(disk, c.timingCsvFileName, RawHeader);
      }
      var perConfig: CsvWriter? := null;
      if c.perConfigTimingCsvFileName != "" {
        perConfig := new CsvWriter(disk, c.perConfigTimingCsvFileName, PerConfigHeader(c.runConfigNames));
      }
      var avg: CsvWriter? := null;
      if c.avgPerConfigTimingCsvFileName != "" {
        avg := new CsvWriter(disk, c.avgPerConfigTimingCsvFileName, AvgHeader(c.runConfigNames));
      }
      this.runResult := runResult;
      this.config := config;
      this.disk := disk;
      this.show := show;
      rawWriter, perConfigWriter, avgWriter := raw, perConfig, avg;
      new;
      runResult.ProcessTimings();
    }

    /** `write_result_files()`: the raw table if its writer exists, then
        the per-configuration table if its writer exists; false when a
        missing entry raised an exception. */
    method WriteResultFiles() returns (ok: bool)
      requires Valid()
      modifies disk, config, avgWriter
      ensures Written(disk.files, ok)
           == WrittenFiles(old(disk.files), show, runResult.State(), old(config.runConfigNames), old(config.repetitions),
                           if rawWriter != null then Some(old(config.timingCsvFileName)) else None,
                           if perConfigWriter != null then Some(old(config.perConfigTimingCsvFileName)) else None,
                           if avgWriter != null then Some(avgWriter.name) else None)
      ensures config.State()
           == if perConfigWriter != null then old(config.State()).(runConfigNames := Sort(old(config.runConfigNames)))
              else old(config.State())
      ensures avgWriter != null ==> avgWriter.closed == (old(avgWriter.closed) || (perConfigWriter != null && ok))
      ensures Valid()
    {
      if rawWriter != null {
        WriteResultCsv();
      }
      ok := true;
      if perConfigWriter != null {
        ok := WriterPerConfigFile();
      }
    }

    /** `write_result_csv()`: the raw table, file by file in the order the
        files were first seen. */
    method WriteResultCsv()
      requires Valid()
      modifies disk
      ensures disk.files == old(disk.files)[config.timingCsvFileName := RawTable(show, runResult.State())]
      ensures Valid()
    {
      var name := config.timingCsvFileName;
      var w := new CsvWriter(disk, name, RawHeader);
      WriteRawTable(w, show, runResult.fileOrder, runResult.fileToResult);
      AppendAfterSet(old(disk.files), name, RawHeader + "\n",
                     LinesOf(RawRows(show, runResult.fileOrder, runResult.fileToResult)));
      w.Finalize();
    }

    /** `writer_per_config_file()`: sorts the configuration's names in
        place, writes the per-configuration table, then, if there is a
        writer of averages, the averages; false when a missing entry raised
        an exception, which ends the call. */
    method WriterPerConfigFile() returns (ok: bool)
      requires Valid()
      modifies disk, config, avgWriter
      ensures Written(disk.files, ok)
           == WrittenFiles(old(disk.files), show, runResult.State(), old(config.runConfigNames), old(config.repetitions),
                           None, Some(old(config.perConfigTimingCsvFileName)),
                           if avgWriter != null then Some(avgWriter.name) else None)
      ensures config.State() == old(config.State()).(runConfigNames := Sort(old(config.runConfigNames)))
      ensures avgWriter != null ==> avgWriter.closed == (old(avgWriter.closed) || ok)
      ensures Valid()
    {
      var header := PerConfigHeader(config.runConfigNames);
      config.SortRunConfigNames();
      ok := WriteConfigTables(disk, avgWriter, show, config.perConfigTimingCsvFileName, header,
                              runResult.processedOrder, runResult.fileToSortedResult, runResult.fileToResultAvg,
                              config.runConfigNames, RangeLength(config.repetitions));
    }
  }
}
