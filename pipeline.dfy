/** The body of `main`, without argument parsing, CSV input and output, and plotting. */
module Pipeline {
  import opened Results
  import opened Schema
  import opened IndexSets
  import opened Reshape

  /** What the script hands to `to_csv` and to the plot. */
  datatype Report = Report(wide: seq<WideRow>, stacked: seq<StackedRow>)

  /** Checks the column sets, computes the wide distance table, and reshapes it
      into long form; any failure aborts before a table is produced. */
  method Run(refColumns: seq<string>, refIndices: seq<Entry>, testColumns: seq<string>, testIndices: seq<Entry>)
    returns (r: Result<Report>)
    requires UniqueNames(refIndices) && UniqueNames(testIndices)
    ensures CheckSchema(refColumns, testColumns).Err? ==> r == Err(SchemaError)
    ensures CheckSchema(refColumns, testColumns).Ok? && "name" !in refColumns ==> r == Err(MissingColumn)
    ensures CheckSchema(refColumns, testColumns).Ok? && "name" in refColumns && |testIndices| == 0 ==>
      r == Err(NoObjectsToConcatenate)
    ensures CheckSchema(refColumns, testColumns).Ok? ==>
      (r.Ok? <==> "name" in refColumns && |testIndices| > 0 &&
                  ChannelFailure(refColumns, testColumns, refIndices, testIndices, I7).None? &&
                  ChannelFailure(refColumns, testColumns, refIndices, testIndices, I5).None?)
    ensures CheckSchema(refColumns, testColumns).Ok? && "name" in refColumns && |testIndices| > 0 ==>
      var i7Failure := ChannelFailure(refColumns, testColumns, refIndices, testIndices, I7);
      var i5Failure := ChannelFailure(refColumns, testColumns, refIndices, testIndices, I5);
      (i7Failure.Some? ==> r == Err(i7Failure.value)) &&
      (i7Failure.None? && i5Failure.Some? ==> r == Err(i5Failure.value))
    ensures r.Ok? ==> AllComparable(refIndices, testIndices) && r.value.wide == WideSpec(refIndices, testIndices)
    ensures r.Ok? ==> r.value.stacked == StackWide(r.value.wide)
    ensures r.Ok? ==> |r.value.stacked| == |refIndices| * |testIndices| * |Channels|
    ensures r.Ok? ==> Unstack(r.value.stacked) == Some(r.value.wide)
  {
    var schema := CheckSchema(refColumns, testColumns);
    if schema.Err? {
      return Err(schema.error);
    }
    var wide := CalculateHammingDistanceIndexSets(refColumns, testColumns, refIndices, testIndices);
    if wide.Err? {
      return Err(wide.error);
    }
    var stacked := StackWide(wide.value);
    UnstackStackWide(wide.value);
    return Ok(Report(wide.value, stacked));
  }

  /** The schemas the literal guard lets through are not harmless: with a
      reference entry, the `i7` lookups succeed and the `i5` lookup of a test
      row raises. */
  lemma MismatchedSchemaFailsAtI5Lookup(refIndices: seq<Entry>, testIndices: seq<Entry>)
    requires |refIndices| > 0
    ensures var refColumns, testColumns := ["name", "i7", "i5"], ["name", "i7", "barcode2"];
      NamesPresent(refColumns, testColumns) &&
      ChannelReadable(refColumns, testColumns, refIndices, I7) &&
      ChannelFailure(refColumns, testColumns, refIndices, testIndices, I5) == Some(MissingColumn)
  {
    var testColumns := ["name", "i7", "barcode2"];
    assert "i7" == testColumns[1];
    assert "i5" != testColumns[0] && "i5" != testColumns[1] && "i5" != testColumns[2];
  }
}
