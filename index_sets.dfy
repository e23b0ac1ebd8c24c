/** calculate_hamming_distance_index_sets: all reference indices against all
    test indices, per channel, joined into one wide table. */
module IndexSets {
  import opened Results
  import opened Hamming

  /** One row of an index table: the unique sample name and its two index reads. */
  datatype Entry = Entry(name: string, i7: string, i5: string)

  /** The index channels, enumerated in the fixed order of the channel loop. */
  datatype Channel = I7 | I5

  const Channels: seq<Channel> := [I7, I5]

  function Label(ch: Channel): string
  {
    match ch
    case I7 => "i7"
    case I5 => "i5"
  }

  /** The name of a channel's distance column, `f'{_index}_hamming_distance'`. */
  function DistanceColumn(ch: Channel): string
  {
    Label(ch) + "_hamming_distance"
  }

  function SequenceOf(e: Entry, ch: Channel): string
  {
    match ch
    case I7 => e.i7
    case I5 => e.i5
  }

  /** `set_index('name')` treats the names as a key. */
  predicate UniqueNames(table: seq<Entry>)
  {
    forall i, j :: 0 <= i < j < |table| ==> table[i].name != table[j].name
  }

  predicate Comparable(r: Entry, t: Entry, ch: Channel)
  {
    |SequenceOf(r, ch)| == |SequenceOf(t, ch)|
  }

  /** Every reference entry can be compared with `t` on channel `ch`. */
  predicate ComparableWithAll(refSet: seq<Entry>, t: Entry, ch: Channel)
  {
    forall i :: 0 <= i < |refSet| ==> Comparable(refSet[i], t, ch)
  }

  predicate ChannelComparable(refSet: seq<Entry>, testSet: seq<Entry>, ch: Channel)
  {
    forall j :: 0 <= j < |testSet| ==> ComparableWithAll(refSet, testSet[j], ch)
  }

  /** No pair of entries has indices of different lengths, on either channel. */
  predicate AllComparable(refSet: seq<Entry>, testSet: seq<Entry>)
  {
    ChannelComparable(refSet, testSet, I7) && ChannelComparable(refSet, testSet, I5)
  }

  /** One cell of a per-channel table: a (reference, test) pair, keyed by the
      entries' names, and the distance of their reads on that channel. */
  datatype Cell = Cell(refName: string, testName: string, distance: nat)

  function CellOf(r: Entry, t: Entry, ch: Channel): Cell
    requires Comparable(r, t, ch)
  {
    Cell(r.name, t.name, Distance(SequenceOf(r, ch), SequenceOf(t, ch)))
  }

  /** The series computed for one test entry: one cell per reference entry, in reference order. */
  function ColumnSpec(refSet: seq<Entry>, t: Entry, ch: Channel): seq<Cell>
    requires ComparableWithAll(refSet, t, ch)
  {
    seq(|refSet|, i requires 0 <= i < |refSet| => CellOf(refSet[i], t, ch))
  }

  /** The columns gathered for one channel: one series per test entry, in test order. */
  function GridSpec(refSet: seq<Entry>, testSet: seq<Entry>, ch: Channel): seq<seq<Cell>>
    requires ChannelComparable(refSet, testSet, ch)
  {
    seq(|testSet|, j requires 0 <= j < |testSet| => ColumnSpec(refSet, testSet[j], ch))
  }

  // ------------------------------------------------------------ row-major frames

  predicate Uniform<T>(rows: seq<seq<T>>, n: nat)
  {
    forall i :: 0 <= i < |rows| ==> |rows[i]| == n
  }

  /** A frame read row by row, as `stack()` reads it. */
  function Flatten<T>(rows: seq<seq<T>>): seq<T>
  {
    if rows == [] then [] else rows[0] + Flatten(rows[1..])
  }

  lemma {:induction false} FlattenLength<T>(rows: seq<seq<T>>, n: nat)
    requires Uniform(rows, n)
    ensures |Flatten(rows)| == |rows| * n
  {
    if rows != [] {
      FlattenLength(rows[1..], n);
      assert |rows| * n == n + (|rows| - 1) * n;
    }
  }

  /** Row i, column j of a frame with rows of length n is position i * n + j. */
  lemma {:induction false} FlattenAt<T>(rows: seq<seq<T>>, n: nat, i: nat, j: nat)
    requires Uniform(rows, n) && i < |rows| && j < n
    ensures i * n + j < |Flatten(rows)| && Flatten(rows)[i * n + j] == rows[i][j]
  {
    if i > 0 {
      FlattenAt(rows[1..], n, i - 1, j);
      assert i * n + j == n + ((i - 1) * n + j);
    }
  }

  /** Every position of a flattened frame is some row i, column j. */
  lemma {:induction false} FlattenIndex<T>(rows: seq<seq<T>>, n: nat, k: nat) returns (i: nat, j: nat)
    requires Uniform(rows, n) && k < |Flatten(rows)|
    ensures i < |rows| && j < n && k == i * n + j && Flatten(rows)[k] == rows[i][j]
  {
    assert Flatten(rows) == rows[0] + Flatten(rows[1..]);
    if k < n {
      i, j := 0, k;
    } else {
      assert Flatten(rows)[k] == Flatten(rows[1..])[k - n];
      var i', j' := FlattenIndex(rows[1..], n, k - n);
      i, j := i' + 1, j';
      assert i * n == i' * n + n;
    }
  }

  /** With unique names, a name picks out one entry of a table. */
  lemma SameNameSameEntry(table: seq<Entry>, a: nat, b: nat)
    requires UniqueNames(table) && a < |table| && b < |table|
    requires table[a].name == table[b].name
    ensures a == b
  {
  }

  // ---------------------------------------------------------- per-channel table

  /** The per-channel frame `_df` after the concat: one row per reference entry,
      one column per test entry. */
  function CrossRows(refSet: seq<Entry>, testSet: seq<Entry>, ch: Channel): (rows: seq<seq<Cell>>)
    requires ChannelComparable(refSet, testSet, ch)
    ensures Uniform(rows, |testSet|)
  {
    seq(|refSet|, i requires 0 <= i < |refSet| =>
      seq(|testSet|, j requires 0 <= j < |testSet| => CellOf(refSet[i], testSet[j], ch)))
  }

  /** The per-channel table after `stack()`: every (reference, test) pair,
      reference-major, with the distance on channel `ch`. */
  function CrossSpec(refSet: seq<Entry>, testSet: seq<Entry>, ch: Channel): (cells: seq<Cell>)
    requires ChannelComparable(refSet, testSet, ch)
    ensures |cells| == |refSet| * |testSet|
  {
    FlattenLength(CrossRows(refSet, testSet, ch), |testSet|);
    Flatten(CrossRows(refSet, testSet, ch))
  }

  /** The cell at position i * |testSet| + j pairs reference entry i with test entry j. */
  lemma CrossSpecAt(refSet: seq<Entry>, testSet: seq<Entry>, ch: Channel, i: nat, j: nat)
    requires ChannelComparable(refSet, testSet, ch)
    requires i < |refSet| && j < |testSet|
    ensures i * |testSet| + j < |refSet| * |testSet|
    ensures CrossSpec(refSet, testSet, ch)[i * |testSet| + j] == CellOf(refSet[i], testSet[j], ch)
  {
    FlattenLength(CrossRows(refSet, testSet, ch), |testSet|);
    FlattenAt(CrossRows(refSet, testSet, ch), |testSet|, i, j);
  }

  /** Every cell of the per-channel table pairs some reference entry with some test entry. */
  lemma CrossSpecIndex(refSet: seq<Entry>, testSet: seq<Entry>, ch: Channel, k: nat) returns (i: nat, j: nat)
    requires ChannelComparable(refSet, testSet, ch)
    requires k < |refSet| * |testSet|
    ensures i < |refSet| && j < |testSet| && k == i * |testSet| + j
    ensures CrossSpec(refSet, testSet, ch)[k] == CellOf(refSet[i], testSet[j], ch)
  {
    FlattenLength(CrossRows(refSet, testSet, ch), |testSet|);
    i, j := FlattenIndex(CrossRows(refSet, testSet, ch), |testSet|, k);
  }

  /** Each (reference, test) pair appears in the per-channel table exactly once,
      at row i * |testSet| + j, carrying the distance of the two entries' reads. */
  lemma CellExactlyOnce(refSet: seq<Entry>, testSet: seq<Entry>, ch: Channel, i: nat, j: nat)
    requires UniqueNames(refSet) && UniqueNames(testSet)
    requires ChannelComparable(refSet, testSet, ch)
    requires i < |refSet| && j < |testSet|
    ensures var cells, k := CrossSpec(refSet, testSet, ch), i * |testSet| + j;
      k < |cells| && cells[k] == CellOf(refSet[i], testSet[j], ch) &&
      forall k' :: 0 <= k' < |cells| && cells[k'].refName == refSet[i].name && cells[k'].testName == testSet[j].name ==> k' == k
  {
    var cells := CrossSpec(refSet, testSet, ch);
    CrossSpecAt(refSet, testSet, ch, i, j);
    forall k' | 0 <= k' < |cells| && cells[k'].refName == refSet[i].name && cells[k'].testName == testSet[j].name
      ensures k' == i * |testSet| + j
    {
      var i', j' := CrossSpecIndex(refSet, testSet, ch, k');
      SameNameSameEntry(refSet, i', i);
      SameNameSameEntry(testSet, j', j);
    }
  }

  /** A cell is determined by the names it carries, not by its position: any
      cell naming reference entry i and test entry j holds their distance. */
  lemma CellKeyedByName(refSet: seq<Entry>, testSet: seq<Entry>, ch: Channel, k: nat, i: nat, j: nat)
    requires UniqueNames(refSet) && UniqueNames(testSet)
    requires ChannelComparable(refSet, testSet, ch)
    requires i < |refSet| && j < |testSet| && k < |refSet| * |testSet|
    requires CrossSpec(refSet, testSet, ch)[k].refName == refSet[i].name
    requires CrossSpec(refSet, testSet, ch)[k].testName == testSet[j].name
    ensures CrossSpec(refSet, testSet, ch)[k].distance == Distance(SequenceOf(refSet[i], ch), SequenceOf(testSet[j], ch))
  {
    var i', j' := CrossSpecIndex(refSet, testSet, ch, k);
    SameNameSameEntry(refSet, i', i);
    SameNameSameEntry(testSet, j', j);
  }

  /** The column lookups of the channel loop succeed: `ref_set[_index]` needs
      the reference column, and `row[_index]` is only evaluated when `apply`
      calls its lambda, that is when there is a reference entry. */
  predicate ChannelReadable(refColumns: seq<string>, testColumns: seq<string>, refSet: seq<Entry>, ch: Channel)
  {
    Label(ch) in refColumns && (|refSet| == 0 || Label(ch) in testColumns)
  }

  /** The error a channel's pass over a non-empty test table raises, if any: a
      missing column before any distance, otherwise a length mismatch. */
  function ChannelFailure(refColumns: seq<string>, testColumns: seq<string>, refSet: seq<Entry>, testSet: seq<Entry>, ch: Channel): Option<Error>
  {
    if !ChannelReadable(refColumns, testColumns, refSet, ch) then Some(MissingColumn)
    else if !ChannelComparable(refSet, testSet, ch) then Some(LengthMismatch)
    else None
  }

  /** The distances of every reference entry to one test entry, the
      `ref_set[_index].apply(...)` call: each call of the lambda first looks up
      the test entry's channel column, then compares; the first failure raises. */
  method DistancesToReference(testColumns: seq<string>, refSet: seq<Entry>, t: Entry, ch: Channel) returns (r: Result<seq<Cell>>)
    ensures r.Ok? <==> (|refSet| == 0 || Label(ch) in testColumns) && ComparableWithAll(refSet, t, ch)
    ensures r.Err? ==> r.error == (if Label(ch) in testColumns then LengthMismatch else MissingColumn)
    ensures r.Ok? ==> ComparableWithAll(refSet, t, ch) && r.value == ColumnSpec(refSet, t, ch)
  {
    var ans: seq<Cell> := [];
    for i := 0 to |refSet|
      invariant i > 0 ==> Label(ch) in testColumns
      invariant forall i' :: 0 <= i' < i ==> Comparable(refSet[i'], t, ch)
      invariant |ans| == i
      invariant forall i' :: 0 <= i' < i ==> ans[i'] == CellOf(refSet[i'], t, ch)
    {
      if Label(ch) !in testColumns {
        return Err(MissingColumn);
      }
      var d := CalcHammingDist(SequenceOf(refSet[i], ch), SequenceOf(t, ch));
      if d.Err? {
        return Err(d.error);
      }
      ans := ans + [Cell(refSet[i].name, t.name, d.value)];
    }
    return Ok(ans);
  }

  /** The loop over `test_set.iterrows()` for one channel: each pass looks up the
      reference column and appends one series, in test order; the first missing
      column or length mismatch aborts the channel. */
  method ChannelGrid(refColumns: seq<string>, testColumns: seq<string>, refSet: seq<Entry>, testSet: seq<Entry>, ch: Channel)
    returns (r: Result<seq<seq<Cell>>>)
    ensures r.Ok? <==> |testSet| == 0 || ChannelFailure(refColumns, testColumns, refSet, testSet, ch).None?
    ensures r.Err? ==> Some(r.error) == ChannelFailure(refColumns, testColumns, refSet, testSet, ch)
    ensures r.Ok? ==> ChannelComparable(refSet, testSet, ch) && r.value == GridSpec(refSet, testSet, ch)
  {
    var columns: seq<seq<Cell>> := [];
    for j := 0 to |testSet|
      invariant j > 0 ==> ChannelReadable(refColumns, testColumns, refSet, ch)
      invariant forall j' :: 0 <= j' < j ==> ComparableWithAll(refSet, testSet[j'], ch)
      invariant |columns| == j
      invariant forall j' :: 0 <= j' < j ==> columns[j'] == ColumnSpec(refSet, testSet[j'], ch)
    {
      if Label(ch) !in refColumns {
        return Err(MissingColumn);
      }
      var ans := DistancesToReference(testColumns, refSet, testSet[j], ch);
      if ans.Err? {
        return Err(ans.error);
      }
      columns := columns + [ans.value];
    }
    return Ok(columns);
  }

  /** The frame `pd.concat(columns, axis=1)` builds: one row per reference
      entry, one column per series. */
  function Frame(columns: seq<seq<Cell>>, refCount: nat): seq<seq<Cell>>
    requires Uniform(columns, refCount)
  {
    seq(refCount, i requires 0 <= i < refCount =>
      seq(|columns|, j requires 0 <= j < |columns| => columns[j][i]))
  }

  /** `pd.concat(columns, axis=1).stack()`: the frame read back row by row;
      `pd.concat` refuses an empty list. */
  function ConcatAndStack(columns: seq<seq<Cell>>, refCount: nat): (r: Result<seq<Cell>>)
    requires Uniform(columns, refCount)
    ensures r.Err? <==> columns == []
    ensures r.Err? ==> r.error == NoObjectsToConcatenate
    ensures r.Ok? ==> |r.value| == refCount * |columns|
  {
    if columns == [] then Err(NoObjectsToConcatenate)
    else
      var frame := Frame(columns, refCount);
      assert Uniform(frame, |columns|);
      FlattenLength(frame, |columns|);
      Ok(Flatten(frame))
  }

  /** Row i * |columns| + j of the stacked frame is entry i of column j:
      `stack()` reads the reference-by-test frame row by row. */
  lemma StackReadsRowByRow(columns: seq<seq<Cell>>, refCount: nat, i: nat, j: nat)
    requires Uniform(columns, refCount)
    requires i < refCount && j < |columns|
    ensures var r := ConcatAndStack(columns, refCount);
      r.Ok? && i * |columns| + j < |r.value| && r.value[i * |columns| + j] == columns[j][i]
  {
    FlattenAt(Frame(columns, refCount), |columns|, i, j);
  }

  /** Stacking a channel's columns yields that channel's cross table. */
  lemma StackedGridIsCross(refSet: seq<Entry>, testSet: seq<Entry>, ch: Channel)
    requires ChannelComparable(refSet, testSet, ch) && |testSet| > 0
    ensures Uniform(GridSpec(refSet, testSet, ch), |refSet|)
    ensures ConcatAndStack(GridSpec(refSet, testSet, ch), |refSet|) == Ok(CrossSpec(refSet, testSet, ch))
  {
    var grid := GridSpec(refSet, testSet, ch);
    var frame := Frame(grid, |refSet|);
    var rows := CrossRows(refSet, testSet, ch);
    forall i | 0 <= i < |refSet|
      ensures frame[i] == rows[i]
    {
      forall j | 0 <= j < |testSet|
        ensures frame[i][j] == rows[i][j]
      {
        assert grid[j] == ColumnSpec(refSet, testSet[j], ch);
      }
    }
    assert frame == rows;
  }

  // ------------------------------------------------------------ the wide table

  /** One row of the result: `ref-index-name`, `test-index-name`,
      `i7_hamming_distance`, `i5_hamming_distance`. */
  datatype WideRow = WideRow(refName: string, testName: string, i7Distance: nat, i5Distance: nat)

  function ChannelDistance(w: WideRow, ch: Channel): nat
  {
    match ch
    case I7 => w.i7Distance
    case I5 => w.i5Distance
  }

  predicate SameKey(a: Cell, b: Cell)
  {
    a.refName == b.refName && a.testName == b.testName
  }

  /** `pd.concat([i7, i5], axis=1)`: the two channel tables joined positionally,
      row k with row k; tables whose rows disagree on the (reference, test) names
      at some position cannot be joined. */
  function JoinChannels(i7Cells: seq<Cell>, i5Cells: seq<Cell>): (r: Result<seq<WideRow>>)
    ensures r.Ok? <==> |i7Cells| == |i5Cells| && forall k :: 0 <= k < |i7Cells| ==> SameKey(i7Cells[k], i5Cells[k])
    ensures r.Err? ==> r.error == AssemblyError
    ensures r.Ok? ==> |r.value| == |i7Cells| && forall k :: 0 <= k < |i7Cells| ==>
      r.value[k] == WideRow(i7Cells[k].refName, i7Cells[k].testName, i7Cells[k].distance, i5Cells[k].distance)
    decreases |i7Cells|
  {
    if i7Cells == [] && i5Cells == [] then Ok([])
    else if i7Cells == [] || i5Cells == [] || !SameKey(i7Cells[0], i5Cells[0]) then Err(AssemblyError)
    else
      match JoinChannels(i7Cells[1..], i5Cells[1..])
      case Err(e) => Err(e)
      case Ok(rest) =>
        Ok([WideRow(i7Cells[0].refName, i7Cells[0].testName, i7Cells[0].distance, i5Cells[0].distance)] + rest)
  }

  function WideRowOf(r: Entry, t: Entry): WideRow
    requires Comparable(r, t, I7) && Comparable(r, t, I5)
  {
    WideRow(r.name, t.name, Distance(r.i7, t.i7), Distance(r.i5, t.i5))
  }

  function WideRows(refSet: seq<Entry>, testSet: seq<Entry>): (rows: seq<seq<WideRow>>)
    requires AllComparable(refSet, testSet)
    ensures Uniform(rows, |testSet|)
  {
    seq(|refSet|, i requires 0 <= i < |refSet| =>
      seq(|testSet|, j requires 0 <= j < |testSet| => WideRowOf(refSet[i], testSet[j])))
  }

  /** The wide table: every (reference, test) pair, reference-major, with one
      distance per channel. */
  function WideSpec(refSet: seq<Entry>, testSet: seq<Entry>): (rows: seq<WideRow>)
    requires AllComparable(refSet, testSet)
    ensures |rows| == |refSet| * |testSet|
  {
    FlattenLength(WideRows(refSet, testSet), |testSet|);
    Flatten(WideRows(refSet, testSet))
  }

  /** Wide row i * |testSet| + j pairs reference entry i with test entry j. */
  lemma WideSpecAt(refSet: seq<Entry>, testSet: seq<Entry>, i: nat, j: nat)
    requires AllComparable(refSet, testSet)
    requires i < |refSet| && j < |testSet|
    ensures i * |testSet| + j < |refSet| * |testSet|
    ensures WideSpec(refSet, testSet)[i * |testSet| + j] == WideRowOf(refSet[i], testSet[j])
  {
    FlattenLength(WideRows(refSet, testSet), |testSet|);
    FlattenAt(WideRows(refSet, testSet), |testSet|, i, j);
  }

  /** Every wide row pairs some reference entry with some test entry. */
  lemma WideSpecIndex(refSet: seq<Entry>, testSet: seq<Entry>, k: nat) returns (i: nat, j: nat)
    requires AllComparable(refSet, testSet)
    requires k < |refSet| * |testSet|
    ensures i < |refSet| && j < |testSet| && k == i * |testSet| + j
    ensures WideSpec(refSet, testSet)[k] == WideRowOf(refSet[i], testSet[j])
  {
    FlattenLength(WideRows(refSet, testSet), |testSet|);
    i, j := FlattenIndex(WideRows(refSet, testSet), |testSet|, k);
  }

  /** Each (reference, test) pair has exactly one wide row, at i * |testSet| + j,
      and that row carries both channels' distances for the two entries. */
  lemma WideRowExactlyOnce(refSet: seq<Entry>, testSet: seq<Entry>, i: nat, j: nat)
    requires UniqueNames(refSet) && UniqueNames(testSet)
    requires AllComparable(refSet, testSet)
    requires i < |refSet| && j < |testSet|
    ensures var rows, k := WideSpec(refSet, testSet), i * |testSet| + j;
      k < |rows| &&
      rows[k] == WideRow(refSet[i].name, testSet[j].name, Distance(refSet[i].i7, testSet[j].i7), Distance(refSet[i].i5, testSet[j].i5)) &&
      forall k' :: 0 <= k' < |rows| && rows[k'].refName == refSet[i].name && rows[k'].testName == testSet[j].name ==> k' == k
  {
    var rows := WideSpec(refSet, testSet);
    WideSpecAt(refSet, testSet, i, j);
    forall k' | 0 <= k' < |rows| && rows[k'].refName == refSet[i].name && rows[k'].testName == testSet[j].name
      ensures k' == i * |testSet| + j
    {
      var i', j' := WideSpecIndex(refSet, testSet, k');
      SameNameSameEntry(refSet, i', i);
      SameNameSameEntry(testSet, j', j);
    }
  }

  /** Joining the two channel tables never fails, and yields the wide table. */
  lemma JoinCrossIsWide(refSet: seq<Entry>, testSet: seq<Entry>)
    requires AllComparable(refSet, testSet)
    ensures JoinChannels(CrossSpec(refSet, testSet, I7), CrossSpec(refSet, testSet, I5)) == Ok(WideSpec(refSet, testSet))
  {
    var a, b := CrossSpec(refSet, testSet, I7), CrossSpec(refSet, testSet, I5);
    var w := WideSpec(refSet, testSet);
    forall k | 0 <= k < |a|
      ensures SameKey(a[k], b[k])
      ensures w[k] == WideRow(a[k].refName, a[k].testName, a[k].distance, b[k].distance)
    {
      var i, j := CrossSpecIndex(refSet, testSet, I7, k);
      CrossSpecAt(refSet, testSet, I5, i, j);
      WideSpecAt(refSet, testSet, i, j);
    }
    var r := JoinChannels(a, b);
    assert r.value == w;
  }

  /** `set_index('name')` on both tables finds the `name` column. */
  predicate NamesPresent(refColumns: seq<string>, testColumns: seq<string>)
  {
    "name" in refColumns && "name" in testColumns
  }

  /** calculate_hamming_distance_index_sets: both tables are keyed by `name`;
      then, for `i7` and then `i5`, the distance of every reference entry to
      every test entry is stacked, and the two channels are joined into the wide
      table. The first failure aborts the whole call: a missing `name` column,
      an empty test table (`pd.concat` raises), or a channel's missing column or
      length mismatch, `i7` before `i5`. */
  method CalculateHammingDistanceIndexSets(refColumns: seq<string>, testColumns: seq<string>, refSet: seq<Entry>, testSet: seq<Entry>)
    returns (r: Result<seq<WideRow>>)
    requires UniqueNames(refSet) && UniqueNames(testSet)
    ensures !NamesPresent(refColumns, testColumns) ==> r == Err(MissingColumn)
    ensures NamesPresent(refColumns, testColumns) && |testSet| == 0 ==> r == Err(NoObjectsToConcatenate)
    ensures NamesPresent(refColumns, testColumns) && |testSet| > 0 ==>
      var i7Failure := ChannelFailure(refColumns, testColumns, refSet, testSet, I7);
      var i5Failure := ChannelFailure(refColumns, testColumns, refSet, testSet, I5);
      (i7Failure.Some? ==> r == Err(i7Failure.value)) &&
      (i7Failure.None? && i5Failure.Some? ==> r == Err(i5Failure.value)) &&
      (i7Failure.None? && i5Failure.None? ==> r.Ok?)
    ensures r.Ok? ==> AllComparable(refSet, testSet) && r.value == WideSpec(refSet, testSet)
  {
    if "name" !in refColumns || "name" !in testColumns {
      return Err(MissingColumn);
    }
    assert Channels[0] == I7 && Channels[1] == I5;
    var stacks: seq<seq<Cell>> := [];
    for c := 0 to |Channels|
      invariant c > 0 ==> |testSet| > 0
      invariant |stacks| == c
      invariant forall c' :: 0 <= c' < c ==> ChannelFailure(refColumns, testColumns, refSet, testSet, Channels[c']).None?
      invariant forall c' :: 0 <= c' < c ==> ChannelComparable(refSet, testSet, Channels[c'])
      invariant forall c' :: 0 <= c' < c ==> stacks[c'] == CrossSpec(refSet, testSet, Channels[c'])
    {
      var grid := ChannelGrid(refColumns, testColumns, refSet, testSet, Channels[c]);
      if grid.Err? {
        return Err(grid.error);
      }
      var stacked := ConcatAndStack(grid.value, |refSet|);
      if stacked.Err? {
        return Err(stacked.error);
      }
      StackedGridIsCross(refSet, testSet, Channels[c]);
      stacks := stacks + [stacked.value];
    }
    JoinCrossIsWide(refSet, testSet);
    r := JoinChannels(stacks[0], stacks[1]);
  }

  /** One reference entry against two test entries: the wide table is
      (A, X, 0, 1), (A, Y, 1, 0), in test order. */
  lemma OneReferenceTwoTests()
    ensures var refSet := [Entry("A", "ACGT", "TTTT")];
      var testSet := [Entry("X", "ACGT", "TTTA"), Entry("Y", "ACGA", "TTTT")];
      AllComparable(refSet, testSet) &&
      WideSpec(refSet, testSet) == [WideRow("A", "X", 0, 1), WideRow("A", "Y", 1, 0)]
  {
    var refSet := [Entry("A", "ACGT", "TTTT")];
    var testSet := [Entry("X", "ACGT", "TTTA"), Entry("Y", "ACGA", "TTTT")];
    var w := WideSpec(refSet, testSet);
    DistanceZeroIffEqual("ACGT", "ACGT");
    DistanceZeroIffEqual("TTTT", "TTTT");
    assert Distance("TTTT", "TTTA") == 1 by {
      assert "TTTT"[..3] == "TTT" == "TTTA"[..3];
      DistanceZeroIffEqual("TTT", "TTT");
    }
    assert Distance("ACGT", "ACGA") == 1 by {
      assert "ACGT"[..3] == "ACG" == "ACGA"[..3];
      DistanceZeroIffEqual("ACG", "ACG");
    }
    WideSpecAt(refSet, testSet, 0, 0);
    WideSpecAt(refSet, testSet, 0, 1);
  }
}
