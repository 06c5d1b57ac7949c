/** The parts of an Excel instance the plugin talks to over COM, as values. */
module Workbook {
  import opened Failures

  /** Excel's last column (XFD) and last row. */
  const MaxColumn := 16384
  const MaxRow := 1048576

  /** A value `Range.Column` can take. */
  type Column = c: int | 1 <= c <= MaxColumn witness 1

  /** A named range, seen only through the first column it covers. */
  datatype Range = Range(column: Column)

  /** An entry of `Workbook.Names`; `refersTo` is None when reading
      `RefersToRange` raises a COMException (a name that is not a range). */
  datatype WorkbookName = WorkbookName(name: string, refersTo: Option<Range>)

  /** A workbook file as Excel opens it: its worksheet names and its defined names, in order. */
  datatype Book = Book(sheets: set<string>, names: seq<WorkbookName>)

  /** The Excel side of the world: whether a new Excel process can be started,
      which paths open as workbooks, and whether a freshly started instance keeps
      answering calls after the workbook has been loaded. */
  datatype Excel = Excel(starts: bool, books: map<string, Book>, staysResponsive: bool)

  /** What a cell of an exported column array holds (`null` is EmptyCell). */
  datatype Cell = EmptyCell | IntCell(i: int) | TextCell(s: string) | RealCell(r: real)

  /** One bulk write: `PipeDataRange.Range[address].Value2 = values`. */
  datatype ColumnWrite = ColumnWrite(address: string, values: seq<Cell>)

  /** What `WorksheetFunction.VLookup` yields: the matched cell (None when it is empty),
      or a COMException, which is how Excel reports a key it cannot find. */
  datatype LookupResult = Hit(cell: Option<real>) | LookupFails

  /** The workbook's data as VLookup sees it: handle and 1-based column index to result. */
  type VLookup = (int, int) -> LookupResult
}
