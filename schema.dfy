/** The column check made before any distance is computed. */
module Schema {
  import opened Results

  /** The intended guard: the reference and test tables must carry the same
      set of column labels, in whatever order. */
  function CheckSchema(refColumns: seq<string>, testColumns: seq<string>): (r: Result<()>)
    ensures r.Ok? <==> forall c :: c in refColumns <==> c in testColumns
    ensures r.Err? ==> r.error == SchemaError
  {
    var refSet, testSet := set c | c in refColumns, set c | c in testColumns;
    if refSet == testSet then
      assert forall c :: c in refColumns <==> c in refSet;
      Ok(())
    else
      Err(SchemaError)
  }

  /** The only value the literal guard ever compares: `list.sort()` returns `None`. */
  datatype PyValue = PyNone

  /** `list.sort()` sorts its receiver in place and evaluates to `None`. */
  function ListSortResult(columns: seq<string>): PyValue
  {
    PyNone
  }

  /** The guard as written: `not a.sort() == b.sort()`. */
  predicate LiteralGuardRejects(refColumns: seq<string>, testColumns: seq<string>)
  {
    !(ListSortResult(refColumns) == ListSortResult(testColumns))
  }

  /** The literal guard never fires, whatever the two column lists are. */
  lemma LiteralGuardNeverRejects(refColumns: seq<string>, testColumns: seq<string>)
    ensures !LiteralGuardRejects(refColumns, testColumns)
  {
  }

  /** A mismatching pair of schemas that the literal guard lets through and
      the intended check rejects. */
  lemma LiteralGuardMissesMismatch()
    ensures !LiteralGuardRejects(["name", "i7", "i5"], ["name", "i7", "barcode2"])
    ensures CheckSchema(["name", "i7", "i5"], ["name", "i7", "barcode2"]) == Err(SchemaError)
  {
    var t := ["name", "i7", "barcode2"];
    assert "i5" != t[0] && "i5" != t[1] && "i5" != t[2];
    assert "i5" !in t;
  }
}
