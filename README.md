# Hamming distances between sequencing index sets

A Dafny model of `calculate_hamming_distance.py` from the `ngs-indices/indices-distances`
tool. The script compares a table of reference index barcodes with a table of test
barcodes. Each table row is a sample `name` with two index reads, `i7` and `i5`. The script:

1. checks that both tables carry the same columns;
2. for channel `i7`, then `i5`, computes the Hamming distance from every reference
   entry to every test entry;
3. joins the two channels into one wide table with columns `ref-index-name`,
   `test-index-name`, `i7_hamming_distance` and `i5_hamming_distance`;
4. stacks that table into long form for plotting. Each long row is
   (`ref-index-name`, `test-index-name`, `index`, `hamming_distance`), where `index` is
   the wide column label, for example `i7_hamming_distance`.

Modules, leaves first:

- `Results` (`results.dfy`): the error kinds, `Result` and `Option`.
- `Hamming` (`hamming.dfy`): the metric. `Distance` is the reference definition.
  `CalcHammingDist` is the counting loop of `calc_hamming_dist`, proved equal to it.
- `Schema` (`schema.dfy`): the intended column-set check and the literal guard
  (see "## Findings").
- `IndexSets` (`index_sets.dfy`): the builder `calculate_hamming_distance_index_sets`.
  Each loop of the source is a method: the `apply` over reference entries and the loop
  over test entries, both with invariants, and the loop over channels. The pandas
  reshapes (`concat`/`stack` per channel, the `concat` of the two channels) are pure
  functions. Each method is proved against a specification function: `ColumnSpec`,
  `GridSpec`, `CrossSpec` or `WideSpec`.
- `Reshape` (`reshape.dfy`): the wide-to-long reshape, its inverse `Unstack`, and the
  round trip in both directions.
- `Pipeline` (`pipeline.dfy`): the body of `main` between reading the CSV files and
  plotting.

Modelling decisions:

- Tables are `seq<Entry>`, with `Entry(name, i7, i5)`, in file order. Each table's
  column labels are passed beside it, as `seq<string>`. The schema check compares
  them. The builder's column lookups (`set_index('name')`, `ref_set[_index]`,
  `row[_index]`) read them, and a missing label fails with `MissingColumn`, pandas'
  `KeyError`.
- Names are assumed unique (`UniqueNames`), which is what `set_index('name')` relies on.
- Distances are unbounded `nat`s. The loop counter cannot overflow in Python either.
- Pandas label alignment is replaced by a positional join, row k with row k, that
  fails with `AssemblyError` when the two rows carry different (reference name,
  test name) keys. `JoinCrossIsWide` proves this never happens for tables the
  builder produces.
- The builder's inputs are immutable values. The `.copy()` calls at lines 57-58
  therefore have nothing left to protect, and "the inputs are not modified" holds by
  construction.

Behaviour of the code worth spelling out:

- Distances are computed test entry by test entry, each against every reference entry
  (lines 70-73). `stack()` then reads the reference-by-test frame row by row, so the
  output rows are reference-major: every test entry for the first reference entry,
  then for the second, and so on. `WideSpec` and `CrossSpec` use this order.
- With an empty test table, the list handed to `pd.concat` at line 78 is empty, and
  pandas raises "No objects to concatenate". This is modelled as
  `Err(NoObjectsToConcatenate)`. An empty reference table gives an empty result.
- The comment at line 30 says the column names are checked. The guard as written
  never fires. The model keeps the literal guard and records this as a finding.
  `Pipeline.Run` uses the intended check.
- Errors come in the order the script raises them: the `name` lookups (lines 60-61),
  then the empty `pd.concat`, then channel `i7`, then `i5`. Within a channel, the
  reference column is looked up once per test row (line 71). The test row's column
  is looked up only when the lambda runs, that is when the reference table is
  non-empty (line 73).

## Model

| member | source | states |
|---|---|---|
| `Hamming.Distance` | ngs-indices/indices-distances/calculate_hamming_distance.py:47-54 | the number of differing positions of two equal-length strings is at most their length |
| `Hamming.DistanceCountsMismatches` | ngs-indices/indices-distances/calculate_hamming_distance.py:47-54 | the distance equals the number of indices i with a[i] != b[i] |
| `Hamming.DistanceSymmetric` | ngs-indices/indices-distances/calculate_hamming_distance.py:50-52 | distance(a, b) == distance(b, a) |
| `Hamming.DistanceZeroIffEqual` | ngs-indices/indices-distances/calculate_hamming_distance.py:50-52 | the distance is 0 exactly when the strings are equal; in particular distance(a, a) == 0 |
| `Hamming.CalcHammingDist` | ngs-indices/indices-distances/calculate_hamming_distance.py:43-54 | fails with a length mismatch exactly when the lengths differ (never truncates to the shorter string); otherwise the counter equals the mismatch count |
| `Schema.CheckSchema` | ngs-indices/indices-distances/calculate_hamming_distance.py:31-36 | accepts exactly when every column label of one table is a column label of the other, in either direction; otherwise raises the schema error |
| `Schema.LiteralGuardNeverRejects` | ngs-indices/indices-distances/calculate_hamming_distance.py:31-32 | the guard as written compares two `None` values and never raises |
| `Schema.LiteralGuardMissesMismatch` | ngs-indices/indices-distances/calculate_hamming_distance.py:31-36 | columns {name, i7, i5} against {name, i7, barcode2} pass the literal guard but fail the intended check |
| `IndexSets.DistancesToReference` | ngs-indices/indices-distances/calculate_hamming_distance.py:70-75 | the series for one test entry succeeds exactly when the reference table is empty or the test row has the channel's column, and every reference read has that entry's length; it then holds, in reference order, one cell per reference entry with its name, the test entry's name and their distance; a missing column raises `MissingColumn`, otherwise a failure is a length mismatch |
| `IndexSets.ChannelGrid` | ngs-indices/indices-distances/calculate_hamming_distance.py:66-75 | one channel's columns are built exactly when the test table is empty, or the channel's columns can be read and no (reference, test) pair mismatches in length; they are then one series per test entry, in test order; otherwise the error is `ChannelFailure`'s (a missing column before a length mismatch) and no columns are returned |
| `IndexSets.ConcatAndStack` | ngs-indices/indices-distances/calculate_hamming_distance.py:78-83 | `pd.concat(axis=1)` fails exactly on an empty list of columns; otherwise the stacked table has reference-count × test-count cells |
| `IndexSets.StackReadsRowByRow` | ngs-indices/indices-distances/calculate_hamming_distance.py:78-83 | stacked row i × T + j is entry i of series j: the concatenated frame has one row per reference entry and one column per series, read row by row |
| `IndexSets.StackedGridIsCross` | ngs-indices/indices-distances/calculate_hamming_distance.py:78-83 | stacking a channel's columns gives that channel's (reference, test) distance table |
| `IndexSets.CrossSpec` | ngs-indices/indices-distances/calculate_hamming_distance.py:66-83 | each channel's table has exactly R × T cells |
| `IndexSets.CrossSpecAt` | ngs-indices/indices-distances/calculate_hamming_distance.py:66-83 | cell i × T + j of a channel's table pairs reference entry i with test entry j and holds their distance on that channel |
| `IndexSets.CrossSpecIndex` | ngs-indices/indices-distances/calculate_hamming_distance.py:66-83 | every cell of a channel's table is at some position i × T + j and pairs reference entry i with test entry j |
| `IndexSets.CellExactlyOnce` | ngs-indices/indices-distances/calculate_hamming_distance.py:66-83 | every (reference name, test name) pair has one cell in a channel's table, at position i × T + j, and no other cell carries that pair of names |
| `IndexSets.CellKeyedByName` | ngs-indices/indices-distances/calculate_hamming_distance.py:60-74 | a cell naming reference entry i and test entry j holds the distance of exactly those entries' reads: cells are keyed by names, not positions |
| `IndexSets.JoinChannels` | ngs-indices/indices-distances/calculate_hamming_distance.py:87-88 | the two channel tables join positionally, row k with row k, exactly when they have the same length and agree on the names at every position; each joined row takes its names from the key, its i7 distance from the first table and its i5 distance from the second; otherwise the join fails with an assembly error |
| `IndexSets.JoinCrossIsWide` | ngs-indices/indices-distances/calculate_hamming_distance.py:85-88 | joining the i7 and i5 tables of the same inputs never fails and gives the wide table |
| `IndexSets.WideSpec` | ngs-indices/indices-distances/calculate_hamming_distance.py:79-88 | the wide table has exactly R × T rows |
| `IndexSets.WideSpecAt` | ngs-indices/indices-distances/calculate_hamming_distance.py:79-88 | wide row i × T + j pairs reference entry i with test entry j and carries both channels' distances |
| `IndexSets.WideSpecIndex` | ngs-indices/indices-distances/calculate_hamming_distance.py:79-88 | every wide row is at some position i × T + j and pairs reference entry i with test entry j |
| `IndexSets.WideRowExactlyOnce` | ngs-indices/indices-distances/calculate_hamming_distance.py:79-88 | every (reference, test) pair has one wide row, at i × T + j, holding its i7 and i5 distances; no other row carries that pair of names |
| `IndexSets.CalculateHammingDistanceIndexSets` | ngs-indices/indices-distances/calculate_hamming_distance.py:39-90 | a table without a `name` column raises `MissingColumn`; then an empty test table raises from `pd.concat`; then the first failing channel, `i7` before `i5`, raises its `ChannelFailure`; otherwise the call succeeds and returns the wide table; a failure returns no partial table |
| `IndexSets.OneReferenceTwoTests` | ngs-indices/indices-distances/calculate_hamming_distance.py:39-90 | reference A = (ACGT, TTTT) against X = (ACGT, TTTA) and Y = (ACGA, TTTT) gives rows (A, X, 0, 1) and (A, Y, 1, 0) |
| `Reshape.StackWide` | ngs-indices/indices-distances/calculate_hamming_distance.py:100-105 | the long form has one row per wide row and distance column: C × rows |
| `Reshape.Unstack` | ngs-indices/indices-distances/calculate_hamming_distance.py:100-105 | a long table that regroups positionally, C consecutive rows per wide row, has C rows per wide row it regroups to |
| `Reshape.UnstackStackWide` | ngs-indices/indices-distances/calculate_hamming_distance.py:100-105 | regrouping the long form positionally, C consecutive rows at a time, gives back exactly the wide table |
| `Reshape.StackWideUnstack` | ngs-indices/indices-distances/calculate_hamming_distance.py:100-105 | a long table that regroups is the long form of what it regroups to, so the reshape is a bijection |
| `Reshape.StackWideAt` | ngs-indices/indices-distances/calculate_hamming_distance.py:100-105 | long row C × k + c is wide row k's names, the label `<channel>_hamming_distance` of channel c, and that channel's distance |
| `Pipeline.Run` | ngs-indices/indices-distances/calculate_hamming_distance.py:31-105 | a schema mismatch fails before any distance is computed; otherwise a missing `name` column raises `MissingColumn`, an empty test table raises from `pd.concat`, and then the first failing channel, `i7` before `i5`, raises its `ChannelFailure` unchanged; it succeeds exactly when none of these applies; on success it returns the wide table and its long form, which has R × T × C rows and regroups to the wide table |
| `Pipeline.MismatchedSchemaFailsAtI5Lookup` | ngs-indices/indices-distances/calculate_hamming_distance.py:70-73 | with a non-empty reference table, the schemas {name, i7, i5} and {name, i7, barcode2}, which the literal guard lets through, pass the `name` and `i7` lookups and fail with `MissingColumn` on the `i5` lookup of a test row |

## Findings

| source | as written | input that shows it | evidently intended | confidence | as-written member | corrected member |
|---|---|---|---|---|---|---|
| ngs-indices/indices-distances/calculate_hamming_distance.py:31-36 | `list.sort()` sorts in place and returns `None`, so the guard compares `None == None` and never raises | reference columns [name, i7, i5], test columns [name, i7, barcode2] | raise `ValueError` when the two column sets differ | high (not executed) | `Schema.LiteralGuardMissesMismatch` | `Schema.CheckSchema` |

## Left out

- Argument parsing and file paths (lines 10-26): command-line plumbing.
- `pd.read_csv` (lines 19-22) and `to_csv` (line 96) are file I/O. Tables enter the model already parsed, and the report is returned rather than written.
- The seaborn histogram, its 3.5 reference line and `savefig` (lines 107-131): presentation and floating-point plotting.
- The unused `numpy` import (line 3).
- Tables with duplicate names: `set_index('name')` assumes unique names, so `UniqueNames` is a precondition. Pandas' behaviour on duplicate index labels is not modelled.
- Pipeline.Run: a table's column labels and its `Entry` records are independent inputs, so the model does not tie the record fields to the labels. A missing `name`, `i7` or `i5` label is modelled as `MissingColumn` where pandas raises `KeyError`. Column labels the build never reads are not checked beyond the schema check.
- Pandas label alignment in `concat(axis=1)` (lines 78 and 87): when keys disagree, pandas pads with NaN. The model's join refuses such tables with an assembly error. The builder never produces them (`IndexSets.JoinCrossIsWide`).
- `stack()` dropping NaN cells and `reset_index` naming (`level_2`, `0`): no NaN arises. The long-form field names are fixed in `Reshape.StackedRow`.
- Non-string cells (a missing CSV value read as NaN, whose `len` raises `TypeError`): all cells are strings.
- `Schema.CheckSchema`: compares column sets. Sorted-list equality would also compare repeated labels. `read_csv` makes column labels unique, so the two agree on every table the script can read.
