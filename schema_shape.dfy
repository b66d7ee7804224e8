/** How `schema.py` turns fetched rows and a cursor description into what it returns. */
module SchemaShape {

  import opened Wrappers
  import opened Driver

  /** `[row[0] for row in rows]`: an `IndexError` when some row has no columns. */
  function FirstColumn(rows: seq<Row>): (r: Result<seq<Value>, Error>)
    ensures r.Success? <==> forall i :: 0 <= i < |rows| ==> rows[i] != []
    ensures r.Failure? ==> r.error == IndexError
    ensures r.Success? ==> |r.value| == |rows| && forall i :: 0 <= i < |rows| ==> r.value[i] == rows[i][0]
  {
    if rows == [] then Success([])
    else if rows[0] == [] then Failure(IndexError)
    else
      match FirstColumn(rows[1..])
      case Failure(e) => Failure(e)
      case Success(rest) => Success([rows[0][0]] + rest)
  }

  /** `[desc[0] for desc in description]`. */
  function DescriptionNames(ds: seq<ColumnDescription>): (names: seq<string>)
    ensures |names| == |ds|
    ensures forall i :: 0 <= i < |ds| ==> names[i] == ds[i].name
  {
    if ds == [] then [] else [ds[0].name] + DescriptionNames(ds[1..])
  }

  /** The column names of a result: one per description entry, in order; `[]` with no description. */
  function ColumnNames(d: Option<seq<ColumnDescription>>): (names: seq<string>)
    ensures d.None? ==> names == []
    ensures d.Some? ==> |names| == |d.value| && forall i :: 0 <= i < |d.value| ==> names[i] == d.value[i].name
  {
    match d
    case None => []
    case Some(ds) => DescriptionNames(ds)
  }

  /** What `get_table_sample` returns. */
  datatype Sample = Sample(columns: seq<string>, rows: seq<Row>)

  /** What `get_record` returns: `(columns, first_row, total_count)`. */
  datatype Record = Record(columns: seq<string>, firstRow: Option<Row>, totalCount: nat)

  /** The record summary of the matching rows: how many matched, and the first of them if any did. */
  function Summarize(rows: seq<Row>, d: Option<seq<ColumnDescription>>): (r: Record)
    ensures r.columns == ColumnNames(d)
    ensures r.totalCount == |rows|
    ensures r.firstRow.None? <==> r.totalCount == 0
    ensures r.firstRow.Some? ==> r.firstRow.value == rows[0]
  {
    Record(ColumnNames(d), if rows == [] then None else Some(rows[0]), |rows|)
  }

  /** Catalog rows `("HR",), ("SALES",)` flatten to the two names, in the driver's order. */
  lemma DatabasesExample()
    ensures FirstColumn([[Str("HR")], [Str("SALES")]]) == Success([Str("HR"), Str("SALES")])
  {
    var r := FirstColumn([[Str("HR")], [Str("SALES")]]);
    assert r.Success? && |r.value| == 2;
    assert r.value == [r.value[0], r.value[1]];
  }

  /** Zero, one and three matching rows give counts 0, 1 and 3; only zero leaves `first_row` empty. */
  lemma MatchCountExample(d: Option<seq<ColumnDescription>>, a: Row, b: Row, c: Row)
    ensures Summarize([], d) == Record(ColumnNames(d), None, 0)
    ensures Summarize([a], d) == Record(ColumnNames(d), Some(a), 1)
    ensures Summarize([a, b, c], d) == Record(ColumnNames(d), Some(a), 3)
  {
  }
}
