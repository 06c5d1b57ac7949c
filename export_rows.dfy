/** What `AutoSheet.ExportPipeData` writes: one row per readable pipe, in network
    order, projected onto the five exported columns, and the bulk column writes. */
module ExportRows {
  import opened Failures
  import opened Workbook
  import opened Civil
  import opened PipeDataSheets

  /** Written in place of a missing start or end structure. */
  const NullMarker: string := "null"

  /** The first worksheet row of data; row 1 holds the headers. */
  const FirstDataRow: int := 2

  /** A row record of the export. */
  datatype Row = Row(handle: int, from: string, to: string, length: real, innerDiameter: real)

  /** The name written for a structure reference: the literal "null" when the id is
      null or names an object that is not a structure (`as Structure` gives null). */
  function StructureName(entities: map<ObjectId, Entity>, id: Option<ObjectId>): string
  {
    if id.Some? && StructureAt(entities, id.value).Some? then StructureAt(entities, id.value).value.name
    else NullMarker
  }

  function RowOf(entities: map<ObjectId, Entity>, p: Pipe): Row
  {
    Row(p.handle, StructureName(entities, p.startStructure), StructureName(entities, p.endStructure),
        p.length2D, p.innerDiameter)
  }

  /** A structure id that is set but names no object. The export tests only
      `IsNull` before `GetObject`, which raises the host's exception for such an id. */
  predicate Dangling(entities: map<ObjectId, Entity>, sid: Option<ObjectId>)
  {
    sid.Some? && sid.value !in entities
  }

  /** Whether reading entry k in the export loop raises: its id names no object, or it
      is a pipe with a dangling end. */
  predicate ReadFaultAt(entities: map<ObjectId, Entity>, ids: seq<ObjectId>, k: nat)
    requires k < |ids|
  {
    ids[k] !in entities ||
    (PipeAt(entities, ids[k]).Some? &&
     (Dangling(entities, PipeAt(entities, ids[k]).value.startStructure) ||
      Dangling(entities, PipeAt(entities, ids[k]).value.endStructure)))
  }

  /** Whether the export loop over `ids` raises before it finishes. */
  predicate ReadFaults(entities: map<ObjectId, Entity>, ids: seq<ObjectId>)
  {
    exists k :: 0 <= k < |ids| && ReadFaultAt(entities, ids, k)
  }

  /** The rows for `ids`: an object that is not a pipe adds none. */
  function Rows(entities: map<ObjectId, Entity>, ids: seq<ObjectId>): seq<Row>
  {
    if ids == [] then []
    else
      var front := Rows(entities, ids[..|ids| - 1]);
      match PipeAt(entities, ids[|ids| - 1])
      case None => front
      case Some(p) => front + [RowOf(entities, p)]
  }

  /** The number of readable pipes among `ids`. */
  function ReadableCount(entities: map<ObjectId, Entity>, ids: seq<ObjectId>): nat
  {
    if ids == [] then 0
    else ReadableCount(entities, ids[..|ids| - 1]) + (if PipeAt(entities, ids[|ids| - 1]).Some? then 1 else 0)
  }

  /** There is one row per readable pipe, so never more rows than ids. */
  lemma {:induction false} RowsCount(entities: map<ObjectId, Entity>, ids: seq<ObjectId>)
    ensures |Rows(entities, ids)| == ReadableCount(entities, ids) <= |ids|
  {
    if ids != [] {
      RowsCount(entities, ids[..|ids| - 1]);
    }
  }

  /** Extending the ids keeps the rows found so far in place. */
  lemma {:induction false} RowsPrefix(entities: map<ObjectId, Entity>, ids: seq<ObjectId>, i: nat)
    requires i <= |ids|
    ensures |Rows(entities, ids[..i])| <= |Rows(entities, ids)|
    ensures Rows(entities, ids)[..|Rows(entities, ids[..i])|] == Rows(entities, ids[..i])
    decreases |ids| - i
  {
    if i == |ids| {
      assert ids[..i] == ids;
    } else {
      RowsPrefix(entities, ids, i + 1);
      assert ids[..i + 1][..i] == ids[..i];
    }
  }

  /** One more id adds the row of its pipe, if it is one that can be read. */
  lemma RowsStep(entities: map<ObjectId, Entity>, ids: seq<ObjectId>, i: nat)
    requires i < |ids|
    ensures Rows(entities, ids[..i + 1]) ==
      Rows(entities, ids[..i]) + (if PipeAt(entities, ids[i]).Some? then [RowOf(entities, PipeAt(entities, ids[i]).value)] else [])
  {
    assert ids[..i + 1][..i] == ids[..i];
  }

  /** The pipe at position i, when readable, fills row number `|Rows(ids[..i])|` (the
      count of readable pipes before it), and an unreadable one fills no row. */
  lemma RowNumberOf(entities: map<ObjectId, Entity>, ids: seq<ObjectId>, i: nat)
    requires i < |ids|
    ensures PipeAt(entities, ids[i]).Some? ==>
      |Rows(entities, ids[..i])| < |Rows(entities, ids)| &&
      Rows(entities, ids)[|Rows(entities, ids[..i])|] == RowOf(entities, PipeAt(entities, ids[i]).value)
    ensures PipeAt(entities, ids[i]).None? ==>
      Rows(entities, ids[..i + 1]) == Rows(entities, ids[..i])
  {
    assert ids[..i + 1][..i] == ids[..i];
    RowsPrefix(entities, ids, i + 1);
  }

  /** The exported columns, in the order they are written. */
  datatype Field = HandleField | FromField | ToField | LengthField | InnerDiameterField

  const ExportedFields: seq<Field> := [HandleField, FromField, ToField, LengthField, InnerDiameterField]

  function CellOf(r: Row, f: Field): Cell
  {
    match f
    case HandleField => IntCell(r.handle)
    case FromField => TextCell(r.from)
    case ToField => TextCell(r.to)
    case LengthField => RealCell(r.length)
    case InnerDiameterField => RealCell(r.innerDiameter)
  }

  /** A column array of n entries: the rows' values first, null after them. */
  function ColumnCells(rows: seq<Row>, f: Field, n: nat): (cells: seq<Cell>)
    requires |rows| <= n
    ensures |cells| == n
    ensures forall k :: 0 <= k < |rows| ==> cells[k] == CellOf(rows[k], f)
    ensures forall k :: |rows| <= k < n ==> cells[k] == EmptyCell
  {
    seq(n, k requires 0 <= k < n => if k < |rows| then CellOf(rows[k], f) else EmptyCell)
  }

  /** Filling entry `|rows|` with the next row's value extends the column array. */
  lemma ColumnCellsAppend(rows: seq<Row>, r: Row, f: Field, n: nat)
    requires |rows| < n
    ensures ColumnCells(rows + [r], f, n) == ColumnCells(rows, f, n)[|rows| := CellOf(r, f)]
  {
  }

  /** The five bulk writes: for each (range, values) in order, a null range is a
      NullReference, a sheet whose Excel process no longer answers a COMException, and
      otherwise the values go to rows 2..n+1 of the range's column through
      `PipeDataSheet.WriteColumn`. The first failure ends the export. */
  function WriteAll(pipeDataSet: bool, live: bool, columns: seq<(Option<Range>, seq<Cell>)>, n: int): (r: (seq<ColumnWrite>, Outcome))
    ensures |r.0| <= |columns|
    ensures r.1 == Completed <==> |r.0| == |columns|
    ensures r.1 in {Completed, Raised(NullReference), Raised(Com)}
    ensures forall j :: 0 <= j < |r.0| ==> r.0[j].values == columns[j].1
  {
    if columns == [] then ([], Completed)
    else
      var range := columns[0].0;
      if range.None? || !pipeDataSet then ([], Raised(NullReference))
      else if !live then ([], Raised(Com))
      else
        var address := GetRangeFromColumn(range.value.column, FirstDataRow, n + 1);
        if !ExcelAccepts(address) then ([], Raised(Com))
        else
          var rest := WriteAll(pipeDataSet, live, columns[1..], n);
          ([ColumnWrite(address, columns[0].1)] + rest.0, rest.1)
  }

  /** The plan for one export: the five exported columns with their ranges. */
  function ExportColumns(ranges: seq<Option<Range>>, rows: seq<Row>, n: nat): seq<(Option<Range>, seq<Cell>)>
    requires |ranges| == 9 && |rows| <= n
  {
    [(ranges[8], ColumnCells(rows, HandleField, n)),
     (ranges[1], ColumnCells(rows, FromField, n)),
     (ranges[2], ColumnCells(rows, ToField, n)),
     (ranges[6], ColumnCells(rows, LengthField, n)),
     (ranges[7], ColumnCells(rows, InnerDiameterField, n))]
  }

  /** The address a column's values are written to: rows 2..n+1 of its column. */
  function ColumnAddress(r: Range, n: int): string
  {
    GetRangeFromColumn(r.column, FirstDataRow, n + 1)
  }

  /** When every range is set and every address is accepted, every column is written,
      in order, and the export completes. */
  lemma {:induction false} WriteAllWritesEvery(columns: seq<(Option<Range>, seq<Cell>)>, n: int)
    requires 1 <= n + 1 <= MaxRow
    requires forall j :: 0 <= j < |columns| ==> columns[j].0.Some? && Addressable(columns[j].0.value.column)
    ensures WriteAll(true, true, columns, n).1 == Completed
    ensures |WriteAll(true, true, columns, n).0| == |columns|
    ensures forall j :: 0 <= j < |columns| ==>
      WriteAll(true, true, columns, n).0[j] == ColumnWrite(ColumnAddress(columns[j].0.value, n), columns[j].1)
  {
    if columns != [] {
      ColumnAddressAcceptedIff(columns[0].0.value.column, FirstDataRow, n + 1);
      WriteAllWritesEvery(columns[1..], n);
      var rest := WriteAll(true, true, columns[1..], n).0;
      forall j | 1 <= j < |columns|
        ensures WriteAll(true, true, columns, n).0[j] == ColumnWrite(ColumnAddress(columns[j].0.value, n), columns[j].1)
      {
        assert columns[1..][j - 1] == columns[j];
      }
    }
  }

  /** Without the handle range (looked up last, so set only when every range is) the
      export writes nothing and fails with a NullReference. */
  lemma ExportWithoutHandleWritesNothing(ranges: seq<Option<Range>>, live: bool, rows: seq<Row>, n: nat)
    requires |ranges| == 9 && |rows| <= n && ranges[8].None?
    ensures WriteAll(ranges[0].Some?, live, ExportColumns(ranges, rows, n), n) == ([], Raised(NullReference))
  {
  }

  /** A sheet whose Excel process has ended takes no write: the first column's write
      raises a COMException. */
  lemma ExportToStaleSheetWritesNothing(ranges: seq<Option<Range>>, rows: seq<Row>, n: nat)
    requires |ranges| == 9 && |rows| <= n && ranges[0].Some? && ranges[8].Some?
    ensures WriteAll(true, false, ExportColumns(ranges, rows, n), n) == ([], Raised(Com))
  {
  }

  /** The export can write all five columns: every range is set, the five columns give
      letters Excel reads and the last row exists. */
  predicate Writable(ranges: seq<Option<Range>>, n: int)
    requires |ranges| == 9
  {
    && (forall i :: 0 <= i < 9 ==> ranges[i].Some?)
    && n + 1 <= MaxRow
    && Addressable(ranges[8].value.column) && Addressable(ranges[1].value.column)
    && Addressable(ranges[2].value.column) && Addressable(ranges[6].value.column)
    && Addressable(ranges[7].value.column)
  }

  /** Then exactly the Handle, From, To, Length and InnerDiameter columns are written,
      in that order, each to rows 2..n+1 of its own column, and the export completes. */
  lemma ExportWritesFiveColumns(ranges: seq<Option<Range>>, rows: seq<Row>, n: nat)
    requires |ranges| == 9 && |rows| <= n && Writable(ranges, n)
    ensures WriteAll(true, true, ExportColumns(ranges, rows, n), n) ==
        ([ColumnWrite(ColumnAddress(ranges[8].value, n), ColumnCells(rows, HandleField, n)),
          ColumnWrite(ColumnAddress(ranges[1].value, n), ColumnCells(rows, FromField, n)),
          ColumnWrite(ColumnAddress(ranges[2].value, n), ColumnCells(rows, ToField, n)),
          ColumnWrite(ColumnAddress(ranges[6].value, n), ColumnCells(rows, LengthField, n)),
          ColumnWrite(ColumnAddress(ranges[7].value, n), ColumnCells(rows, InnerDiameterField, n))],
         Completed)
  {
    var columns := ExportColumns(ranges, rows, n);
    WriteAllWritesEvery(columns, n);
    var written := WriteAll(true, true, columns, n).0;
    assert written[0] == ColumnWrite(ColumnAddress(ranges[8].value, n), ColumnCells(rows, HandleField, n));
    assert written[1] == ColumnWrite(ColumnAddress(ranges[1].value, n), ColumnCells(rows, FromField, n));
    assert written[2] == ColumnWrite(ColumnAddress(ranges[2].value, n), ColumnCells(rows, ToField, n));
    assert written[3] == ColumnWrite(ColumnAddress(ranges[6].value, n), ColumnCells(rows, LengthField, n));
    assert written[4] == ColumnWrite(ColumnAddress(ranges[7].value, n), ColumnCells(rows, InnerDiameterField, n));
    assert |written| == 5;
    assert written == [written[0], written[1], written[2], written[3], written[4]];
  }

  /** What the export of `ids` writes and how it ends, given the sheet's ranges in
      resolution order, whether `PipeDataRange` is set and whether Excel still answers.
      A read that raises in the loop ends the export before any column is written. */
  function ExportPlan(pipeDataSet: bool, live: bool, ranges: seq<Option<Range>>, entities: map<ObjectId, Entity>, ids: seq<ObjectId>): (r: (seq<ColumnWrite>, Outcome))
    requires |ranges| == 9
    ensures r.1 == Raised(Acad) <==> ReadFaults(entities, ids)
    ensures ReadFaults(entities, ids) ==> r.0 == []
  {
    if ReadFaults(entities, ids) then ([], Raised(Acad))
    else
      RowsCount(entities, ids);
      WriteAll(pipeDataSet, live, ExportColumns(ranges, Rows(entities, ids), |ids|), |ids|)
  }
}
