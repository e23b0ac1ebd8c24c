/** The long form used for plotting: `set_index([...]).stack().reset_index()`
    turns each wide row into one row per distance column. */
module Reshape {
  import opened Results
  import opened IndexSets

  /** One stacked row: `ref-index-name`, `test-index-name`, `index` (the wide
      column label) and `hamming_distance`. */
  datatype StackedRow = StackedRow(refName: string, testName: string, index: string, hammingDistance: nat)

  /** The stacked row of wide row `w` for channel `ch`. */
  function StackedCell(w: WideRow, ch: Channel): StackedRow
  {
    StackedRow(w.refName, w.testName, DistanceColumn(ch), ChannelDistance(w, ch))
  }

  /** The stacked rows of one wide row, in wide column order. */
  function StackRow(w: WideRow): seq<StackedRow>
  {
    [StackedCell(w, I7), StackedCell(w, I5)]
  }

  /** The wide table in long form, wide row by wide row. */
  function StackWide(rows: seq<WideRow>): (s: seq<StackedRow>)
    ensures |s| == |Channels| * |rows|
  {
    if rows == [] then [] else StackRow(rows[0]) + StackWide(rows[1..])
  }

  /** Positional regrouping: each run of consecutive `i7`, `i5` rows with the same
      (ref, test) names becomes one wide row; anything else is not the long form
      of a wide table. */
  function Unstack(s: seq<StackedRow>): (r: Option<seq<WideRow>>)
    ensures r.Some? ==> |s| == |Channels| * |r.value|
    decreases |s|
  {
    if s == [] then Some([])
    else if |s| < 2 then None
    else
      var a, b := s[0], s[1];
      if a.index == DistanceColumn(I7) && b.index == DistanceColumn(I5) &&
         a.refName == b.refName && a.testName == b.testName
      then
        match Unstack(s[2..])
        case None => None
        case Some(rest) => Some([WideRow(a.refName, a.testName, a.hammingDistance, b.hammingDistance)] + rest)
      else None
  }

  /** The reshape loses nothing: regrouping the long form gives back the wide table. */
  lemma {:induction false} UnstackStackWide(rows: seq<WideRow>)
    ensures Unstack(StackWide(rows)) == Some(rows)
  {
    if rows != [] {
      var s := StackWide(rows);
      assert s[2..] == StackWide(rows[1..]);
      UnstackStackWide(rows[1..]);
      assert rows == [rows[0]] + rows[1..];
    }
  }

  /** And it adds nothing: every well-formed long table is the long form of what it regroups to. */
  lemma {:induction false} StackWideUnstack(s: seq<StackedRow>)
    requires Unstack(s).Some?
    ensures StackWide(Unstack(s).value) == s
  {
    if s != [] {
      var rows := Unstack(s).value;
      StackWideUnstack(s[2..]);
      assert rows[1..] == Unstack(s[2..]).value;
      assert StackRow(rows[0]) == s[..2];
      assert s == s[..2] + s[2..];
    }
  }

  /** Row |Channels| * k + c of the long form is wide row k's value for channel c,
      labelled with that channel's wide column name. */
  lemma {:induction false} StackWideAt(rows: seq<WideRow>, k: nat, c: nat)
    requires k < |rows| && c < |Channels|
    ensures |Channels| * k + c < |StackWide(rows)|
    ensures StackWide(rows)[|Channels| * k + c] ==
      StackedRow(rows[k].refName, rows[k].testName, DistanceColumn(Channels[c]), ChannelDistance(rows[k], Channels[c]))
  {
    if k > 0 {
      StackWideAt(rows[1..], k - 1, c);
    }
  }
}
