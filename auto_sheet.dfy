/** ACadLib/AutoSheet.cs: the static state of the plugin (the open design sheet and
    the main window) and the commands that open a design sheet, export a pipe network
    to it and import the inverts back into the drawing. */
module AutoSheets {
  import opened Failures
  import opened Workbook
  import opened Civil
  import opened DesignSheets
  import opened PipeDataSheets
  import opened ExportRows
  import opened Reconcile

  /** How `OpenDesignSheet` ends once the constructor has run: the filename, file and
      COM failures are caught and shown in a message box; the ArgumentException of a
      repeated workbook name is not caught. */
  function OpenOutcome(fault: Option<Exception>): Outcome
  {
    match fault
    case None => Completed
    case Some(DuplicateKey) => Raised(DuplicateKey)
    case Some(e) => Reported(e)
  }

  /** Opening completes exactly when the path is given, exists and ends in ".xlsm",
      Excel starts and opens it, it has the "PipeData" sheet and no two of its names
      that resolve coincide. */
  lemma OpenCompletesIff(filePath: Option<string>, files: set<string>, excel: Excel)
    ensures OpenOutcome(ConstructionFault(filePath, PipeDataSheetName, files, excel)) == Completed <==>
      (&& filePath.Some? && filePath.value in files && EndsWith(filePath.value, MacroExtension)
       && excel.starts && filePath.value in excel.books
       && PipeDataSheetName in excel.books[filePath.value].sheets
       && ResolvableNamesDistinct(excel.books[filePath.value].names))
  {
    if filePath.Some? && filePath.value in excel.books {
      NamesTableExact(excel.books[filePath.value].names);
    }
  }

  /** The only exception `OpenDesignSheet` lets escape from the constructor is the one of
      a repeated resolvable name; a missing or wrongly named file never raises. */
  lemma OpenRaisesOnlyOnRepeatedNames(filePath: Option<string>, files: set<string>, excel: Excel)
    ensures OpenOutcome(ConstructionFault(filePath, PipeDataSheetName, files, excel)).Raised? <==>
      (&& filePath.Some? && filePath.value in files && EndsWith(filePath.value, MacroExtension)
       && excel.starts && filePath.value in excel.books
       && PipeDataSheetName in excel.books[filePath.value].sheets
       && !ResolvableNamesDistinct(excel.books[filePath.value].names))
    ensures OpenOutcome(ConstructionFault(filePath, PipeDataSheetName, files, excel)).Raised? ==>
      OpenOutcome(ConstructionFault(filePath, PipeDataSheetName, files, excel)) == Raised(DuplicateKey)
  {
    if filePath.Some? && filePath.value in excel.books {
      NamesTableExact(excel.books[filePath.value].names);
    }
  }

  /** `ArePipesEqual`: same handle and the same end points. */
  function ArePipesEqual(pipe1: Pipe, pipe2: Pipe): bool
  {
    pipe1.handle == pipe2.handle && pipe1.start == pipe2.start && pipe1.end == pipe2.end
  }

  /** A pipe compares equal to itself after the import exactly when both of its ends
      already sat at the elevations its looked-up inverts give. */
  lemma ImportedEqualIff(p: Pipe, startCol: Option<Range>, endCol: Option<Range>, lookup: VLookup)
    requires ReadInvert(lookup, p.handle, startCol).Value? && ReadInvert(lookup, p.handle, endCol).Value?
    ensures ArePipesEqual(p, Imported(p, startCol, endCol, lookup)) <==>
      (&& p.start.z == EndElevation(ReadInvert(lookup, p.handle, startCol).value, p)
       && p.end.z == EndElevation(ReadInvert(lookup, p.handle, endCol).value, p))
  {
    var q := Imported(p, startCol, endCol, lookup);
    if p.start.z == q.start.z && p.end.z == q.end.z {
      assert p.start == q.start && p.end == q.end;
    }
  }

  /** `GetObject` means the same in both commands: an entry whose read stops the export
      (an id that names no object, or a pipe end that names no object) makes the export
      raise the host's exception before any write, and makes the import fail too. */
  lemma ReadFaultFailsBoth(pipeDataSet: bool, live: bool, ranges: seq<Option<Range>>, entities: map<ObjectId, Entity>,
                           ids: seq<ObjectId>, k: nat, startCol: Option<Range>, endCol: Option<Range>, lookup: VLookup)
    requires |ranges| == 9 && k < |ids| && ReadFaultAt(entities, ids, k)
    ensures ExportPlan(pipeDataSet, live, ranges, entities, ids) == ([], Raised(Acad))
    ensures ImportAll(entities, ids, startCol, endCol, lookup).Failed?
  {
    assert ReadFaults(entities, ids);
    ImportFailsIff(entities, ids, startCol, endCol, lookup);
    assert FailsOn(entities, ids[k], startCol, endCol, lookup);
  }

  /** The static class: `DataSheet` and `_autoSheetMainWindow`. */
  class AutoSheet {
    var dataSheet: Option<PipeDataSheet>
    /** `_autoSheetMainWindow != null`. */
    var windowOpen: bool
    /** How many windows `CreateWindow` has made. */
    var windowsCreated: nat

    constructor ()
      ensures dataSheet.None? && !windowOpen && windowsCreated == 0
    {
      dataSheet := None;
      windowOpen := false;
      windowsCreated := 0;
    }

    /** The objects behind the held sheet. */
    ghost function Held(): set<object>
      reads this
    {
      if dataSheet.Some? then {dataSheet.value, dataSheet.value.design} else {}
    }

    /** A held sheet came out of its constructor without an exception with an
        Excel process, and has not been released. */
    ghost predicate Valid()
      reads this, Held()
    {
      dataSheet.Some? ==>
        && dataSheet.value.Valid()
        && dataSheet.value.design.fault.None?
        && dataSheet.value.design.hasApp
        && !dataSheet.value.design.appReleased
    }

    predicate HasReadySheet()
      reads this, Held()
    {
      dataSheet.Some? && dataSheet.value.IsReady()
    }

    /** `OpenDesignSheet(filePath)`. */
    method OpenDesignSheet(filePath: Option<string>, files: set<string>, excel: Excel) returns (outcome: Outcome)
      requires Valid()
      modifies this`dataSheet, Held()
      ensures Valid()
      // A ready sheet is kept: nothing changes.
      ensures old(HasReadySheet()) ==>
        outcome == Raised(DataSheetAlreadyExists) && dataSheet == old(dataSheet) && unchanged(old(Held()))
      // A stale sheet is disposed before the new one is built: its process is killed
      // when it still answers (only the workbook was closed), and otherwise cannot be.
      ensures old(dataSheet).Some? && !old(HasReadySheet()) ==>
        && old(dataSheet).value.design.finalizerSuppressed
        && old(dataSheet).value.design.releaseLog
           == old(dataSheet.value.design.releaseLog) + old(dataSheet.value.design.HandleSteps())
              + (if old(dataSheet.value.design.responding) then [ProcessKilled, AppReleased] else [])
      // Then the outcome is the constructor's, and the slot holds the new sheet only when it is ready.
      ensures !old(HasReadySheet()) ==>
        outcome == OpenOutcome(ConstructionFault(filePath, PipeDataSheetName, files, excel))
      ensures !old(HasReadySheet()) ==>
        (dataSheet.Some? <==> ConstructionFault(filePath, PipeDataSheetName, files, excel).None? && excel.staysResponsive)
      ensures !old(HasReadySheet()) && dataSheet.Some? ==>
        && fresh(dataSheet.value) && fresh(dataSheet.value.design)
        && dataSheet.value.design.OpenedFrom(filePath, PipeDataSheetName, files, excel)
        && dataSheet.value.writes == []
        && dataSheet.value.IsReady()
    {
      if dataSheet.Some? && dataSheet.value.IsReady() {
        return Raised(DataSheetAlreadyExists);
      }
      if dataSheet.Some? && !dataSheet.value.IsReady() {
        var _ := dataSheet.value.design.Dispose();
        dataSheet := None;
      }
      var sheet := new PipeDataSheet(filePath, PipeDataSheetName, files, excel);
      if sheet.design.fault.Some? {
        // The constructor threw, so `DataSheet` was not assigned; the handler's
        // `DataSheet?.Dispose()` finds it null.
        assert dataSheet.None?;
        return OpenOutcome(sheet.design.fault);
      }
      dataSheet := Some(sheet);
      if !sheet.IsReady() {
        dataSheet := None;
      }
      outcome := Completed;
    }

    /** The held `PipeDataSheet`, the only object the export changes. */
    ghost function HeldSheet(): set<object>
      reads this
    {
      if dataSheet.Some? then {dataSheet.value} else {}
    }

    /** `ExportPipeData(pipeNetwork)`: the pipes are only read; the five column arrays
        are filled one readable pipe at a time and then written in one go each. */
    method ExportPipeData(network: Option<Network>, db: Database) returns (outcome: Outcome)
      requires Valid()
      modifies HeldSheet()
      ensures Valid() && dataSheet == old(dataSheet)
      ensures dataSheet.None? ==> outcome == Completed
      ensures dataSheet.Some? && network.None? ==>
        outcome == Raised(NullReference) && dataSheet.value.writes == old(dataSheet.value.writes)
      ensures dataSheet.Some? && network.Some? ==>
        var sheet := dataSheet.value;
        var plan := ExportPlan(sheet.pipeDataRange.Some?, sheet.IsReady(), sheet.Ranges(), db.entities, network.value.pipeIds);
        sheet.writes == old(sheet.writes) + plan.0 && outcome == plan.1
    {
      if dataSheet.None? {
        return Completed;
      }
      var sheet := dataSheet.value;
      if network.None? {
        return Raised(NullReference);
      }
      var ids := network.value.pipeIds;
      var n := |ids|;
      var entities := db.entities;
      var handleArray, fromArray, toArray, lengthArray, diameterArray, failure := FillColumns(entities, ids);
      if failure.Some? {
        // The exception leaves the `using` block; no column has been written.
        return Raised(failure.value);
      }
      // The five (range, array) pairs in the order they are written.
      var columns := [(sheet.handleRange, handleArray[..]), (sheet.fromRange, fromArray[..]),
                      (sheet.toRange, toArray[..]), (sheet.lengthRange, lengthArray[..]),
                      (sheet.innerDiameterRange, diameterArray[..])];
      assert columns == ExportColumns(sheet.Ranges(), Rows(entities, ids), n);
      outcome := WriteColumns(sheet, columns, n);
    }

    /** The five statements that write the columns, in order; the first exception ends them. */
    static method WriteColumns(sheet: PipeDataSheet, columns: seq<(Option<Range>, seq<Cell>)>, n: int) returns (outcome: Outcome)
      requires |columns| == 5
      modifies sheet`writes
      ensures sheet.writes == old(sheet.writes) + WriteAll(sheet.pipeDataRange.Some?, sheet.IsReady(), columns, n).0
      ensures outcome == WriteAll(sheet.pipeDataRange.Some?, sheet.IsReady(), columns, n).1
    {
      ghost var pipeDataSet := sheet.pipeDataRange.Some?;
      ghost var live := sheet.IsReady();
      ghost var plan := WriteAll(pipeDataSet, live, columns, n);
      outcome := WriteFirst(sheet, columns, n);
      if outcome != Completed {
        return;
      }
      assert sheet.writes + WriteAll(pipeDataSet, live, columns[1..], n).0 == old(sheet.writes) + plan.0;
      outcome := WriteFirst(sheet, columns[1..], n);
      if outcome != Completed {
        return;
      }
      assert columns[1..][1..] == columns[2..];
      assert sheet.writes + WriteAll(pipeDataSet, live, columns[2..], n).0 == old(sheet.writes) + plan.0;
      outcome := WriteFirst(sheet, columns[2..], n);
      if outcome != Completed {
        return;
      }
      assert columns[2..][1..] == columns[3..];
      assert sheet.writes + WriteAll(pipeDataSet, live, columns[3..], n).0 == old(sheet.writes) + plan.0;
      outcome := WriteFirst(sheet, columns[3..], n);
      if outcome != Completed {
        return;
      }
      assert columns[3..][1..] == columns[4..];
      assert sheet.writes + WriteAll(pipeDataSet, live, columns[4..], n).0 == old(sheet.writes) + plan.0;
      outcome := WriteFirst(sheet, columns[4..], n);
      if outcome != Completed {
        return;
      }
      assert columns[4..][1..] == [];
      assert sheet.writes + [] == sheet.writes;
    }

    /** The loop of `ExportPipeData`: one row per readable pipe, the index advancing
        only past a pipe that was read, the remaining entries left null. A `GetObject`
        on an id that names no object raises the host's exception and ends the loop. */
    static method FillColumns(entities: map<ObjectId, Entity>, ids: seq<ObjectId>)
      returns (handleArray: array<Cell>, fromArray: array<Cell>, toArray: array<Cell>,
               lengthArray: array<Cell>, diameterArray: array<Cell>, failure: Option<Exception>)
      ensures |Rows(entities, ids)| <= |ids|
      ensures fresh(handleArray) && fresh(fromArray) && fresh(toArray) && fresh(lengthArray) && fresh(diameterArray)
      ensures failure.Some? <==> ReadFaults(entities, ids)
      ensures failure.Some? ==> failure == Some(Acad)
      ensures failure.None? ==> handleArray[..] == ColumnCells(Rows(entities, ids), HandleField, |ids|)
      ensures failure.None? ==> fromArray[..] == ColumnCells(Rows(entities, ids), FromField, |ids|)
      ensures failure.None? ==> toArray[..] == ColumnCells(Rows(entities, ids), ToField, |ids|)
      ensures failure.None? ==> lengthArray[..] == ColumnCells(Rows(entities, ids), LengthField, |ids|)
      ensures failure.None? ==> diameterArray[..] == ColumnCells(Rows(entities, ids), InnerDiameterField, |ids|)
    {
      RowsCount(entities, ids);
      var n := |ids|;
      handleArray := new Cell[n](_ => EmptyCell);
      fromArray := new Cell[n](_ => EmptyCell);
      toArray := new Cell[n](_ => EmptyCell);
      lengthArray := new Cell[n](_ => EmptyCell);
      diameterArray := new Cell[n](_ => EmptyCell);
      var rowNumber := 0;
      ghost var rows: seq<Row> := [];
      var i := 0;
      while i < n
        invariant 0 <= i <= n
        invariant rows == Rows(entities, ids[..i])
        invariant rowNumber == |rows| <= i
        invariant handleArray[..] == ColumnCells(rows, HandleField, n)
        invariant fromArray[..] == ColumnCells(rows, FromField, n)
        invariant toArray[..] == ColumnCells(rows, ToField, n)
        invariant lengthArray[..] == ColumnCells(rows, LengthField, n)
        invariant diameterArray[..] == ColumnCells(rows, InnerDiameterField, n)
        invariant forall k :: 0 <= k < i ==> !ReadFaultAt(entities, ids, k)
      {
        RowsStep(entities, ids, i);
        if ids[i] !in entities {
          assert ReadFaultAt(entities, ids, i);
          return handleArray, fromArray, toArray, lengthArray, diameterArray, Some(Acad);
        }
        var pipe := PipeAt(entities, ids[i]);
        if pipe.Some? {
          var p := pipe.value;
          if Dangling(entities, p.startStructure) || Dangling(entities, p.endStructure) {
            // `handleArray[rowNumber]` is assigned before the structures are opened; the
            // arrays go with the exception either way.
            assert ReadFaultAt(entities, ids, i);
            return handleArray, fromArray, toArray, lengthArray, diameterArray, Some(Acad);
          }
          ghost var row := RowOf(entities, p);
          ColumnCellsAppend(rows, row, HandleField, n);
          ColumnCellsAppend(rows, row, FromField, n);
          ColumnCellsAppend(rows, row, ToField, n);
          ColumnCellsAppend(rows, row, LengthField, n);
          ColumnCellsAppend(rows, row, InnerDiameterField, n);
          PutRow(handleArray, fromArray, toArray, lengthArray, diameterArray, rowNumber, entities, p);
          rowNumber := rowNumber + 1;
          rows := rows + [row];
        }
        i := i + 1;
      }
      assert ids[..n] == ids;
      failure := None;
    }

    /** The body of the export loop for a pipe that was read: its row's values go to
        entry `rowNumber` of each array. */
    static method PutRow(handleArray: array<Cell>, fromArray: array<Cell>, toArray: array<Cell>,
                         lengthArray: array<Cell>, diameterArray: array<Cell>,
                         rowNumber: nat, entities: map<ObjectId, Entity>, p: Pipe)
      requires rowNumber < handleArray.Length && rowNumber < fromArray.Length && rowNumber < toArray.Length
      requires rowNumber < lengthArray.Length && rowNumber < diameterArray.Length
      requires handleArray != fromArray && handleArray != toArray && handleArray != lengthArray && handleArray != diameterArray
      requires fromArray != toArray && fromArray != lengthArray && fromArray != diameterArray
      requires toArray != lengthArray && toArray != diameterArray && lengthArray != diameterArray
      modifies handleArray, fromArray, toArray, lengthArray, diameterArray
      ensures handleArray[..] == old(handleArray[..])[rowNumber := CellOf(RowOf(entities, p), HandleField)]
      ensures fromArray[..] == old(fromArray[..])[rowNumber := CellOf(RowOf(entities, p), FromField)]
      ensures toArray[..] == old(toArray[..])[rowNumber := CellOf(RowOf(entities, p), ToField)]
      ensures lengthArray[..] == old(lengthArray[..])[rowNumber := CellOf(RowOf(entities, p), LengthField)]
      ensures diameterArray[..] == old(diameterArray[..])[rowNumber := CellOf(RowOf(entities, p), InnerDiameterField)]
    {
      handleArray[rowNumber] := IntCell(p.handle);
      fromArray[rowNumber] := TextCell(StructureName(entities, p.startStructure));
      toArray[rowNumber] := TextCell(StructureName(entities, p.endStructure));
      lengthArray[rowNumber] := RealCell(p.length2D);
      diameterArray[rowNumber] := RealCell(p.innerDiameter);
    }

    /** One of the five statements that write a column:
        `DataSheet.GetRangeFromColumn(range.Column, 2, n + 1).Value2 = values` for the
        first of the remaining (range, values) pairs; a null range is a NullReference
        before the address is built. Stated as one step of `WriteAll`. */
    static method WriteFirst(sheet: PipeDataSheet, remaining: seq<(Option<Range>, seq<Cell>)>, n: int) returns (outcome: Outcome)
      requires remaining != []
      modifies sheet`writes
      ensures outcome == Completed ==>
        && sheet.writes + WriteAll(sheet.pipeDataRange.Some?, sheet.IsReady(), remaining[1..], n).0
           == old(sheet.writes) + WriteAll(sheet.pipeDataRange.Some?, sheet.IsReady(), remaining, n).0
        && WriteAll(sheet.pipeDataRange.Some?, sheet.IsReady(), remaining[1..], n).1 == WriteAll(sheet.pipeDataRange.Some?, sheet.IsReady(), remaining, n).1
      ensures outcome != Completed ==>
        && sheet.writes == old(sheet.writes) + WriteAll(sheet.pipeDataRange.Some?, sheet.IsReady(), remaining, n).0
        && outcome == WriteAll(sheet.pipeDataRange.Some?, sheet.IsReady(), remaining, n).1
    {
      var range := remaining[0].0;
      if range.None? {
        return Raised(NullReference);
      }
      var address := GetRangeFromColumn(range.value.column, FirstDataRow, n + 1);
      ghost var rest := WriteAll(sheet.pipeDataRange.Some?, sheet.IsReady(), remaining[1..], n);
      ghost var write := ColumnWrite(address, remaining[0].1);
      assert sheet.pipeDataRange.Some? && sheet.IsReady() && ExcelAccepts(address) ==>
        WriteAll(sheet.pipeDataRange.Some?, sheet.IsReady(), remaining, n) == ([write] + rest.0, rest.1);
      outcome := sheet.WriteColumn(address, remaining[0].1);
      if outcome == Completed {
        assert sheet.writes + rest.0 == old(sheet.writes) + ([write] + rest.0);
      }
    }

    /** `ImportPipeData(network)`. The inverts come from `VLookup` over `PipeDataRange`,
        in the columns of `StartInvRange` and `EndInvRange`. */
    method ImportPipeData(network: Option<Network>, db: Database, lookup: VLookup) returns (outcome: Outcome)
      requires Valid()
      modifies db
      ensures Valid()
      // The guard comes before any transaction.
      ensures !HasReadySheet() || network.None? ==>
        outcome == Raised(ArgumentNull) && unchanged(db)
      // Otherwise all or nothing: a commit with every pipe imported, or the drawing as it was.
      ensures HasReadySheet() && network.Some? ==>
        match ImportAll(old(db.entities), network.value.pipeIds, dataSheet.value.startInvRange,
                        dataSheet.value.endInvRange, lookup)
        case Staged(m) => outcome == Completed && db.entities == m && db.commits == old(db.commits) + 1
        case Failed(e) =>
          && outcome == (if e == Com then Reported(Com) else Raised(e))
          && db.entities == old(db.entities) && db.commits == old(db.commits)
    {
      if dataSheet.None? || !dataSheet.value.IsReady() || network.None? {
        return Raised(ArgumentNull);
      }
      var startCol := dataSheet.value.startInvRange;
      var endCol := dataSheet.value.endInvRange;
      var ids := network.value.pipeIds;
      var ts := new Transaction(db);
      var failure := ImportLoop(ts, ids, startCol, endCol, lookup);
      if failure.Some? {
        outcome := Unwind(ts, failure.value);
        return;
      }
      ts.Commit();
      outcome := Completed;
    }

    /** The `foreach` over the pipe ids inside the transaction, stopping at the first
        exception, which it hands on with the transaction still active. */
    static method ImportLoop(ts: Transaction, ids: seq<ObjectId>, startCol: Option<Range>, endCol: Option<Range>, lookup: VLookup)
      returns (failure: Option<Exception>)
      requires ts.state == Active && ts.db.entities == ts.snapshot
      modifies ts.db`entities
      ensures ts.state == Active
      ensures failure.None? ==> ImportAll(ts.snapshot, ids, startCol, endCol, lookup) == Staged(ts.db.entities)
      ensures failure.Some? ==> ImportAll(ts.snapshot, ids, startCol, endCol, lookup) == Failed(failure.value)
    {
      var i := 0;
      while i < |ids|
        invariant 0 <= i <= |ids|
        invariant ts.state == Active
        invariant ImportAll(ts.snapshot, ids[..i], startCol, endCol, lookup) == Staged(ts.db.entities)
      {
        assert ids[..i + 1][..i] == ids[..i];
        failure := ImportStep(ts, ids[i], startCol, endCol, lookup);
        if failure.Some? {
          FailureIsFinal(ts.snapshot, ids, i + 1, startCol, endCol, lookup);
          return;
        }
        i := i + 1;
      }
      assert ids[..|ids|] == ids;
      failure := None;
    }

    /** One turn of the `foreach`: open the pipe for write (an id naming no object
        raises the host's exception; anything but a pipe is skipped),
        read both inverts, then move and reconnect it. An exception leaves the
        transaction active for the caller to end. */
    static method ImportStep(ts: Transaction, id: ObjectId, startCol: Option<Range>, endCol: Option<Range>, lookup: VLookup)
      returns (failure: Option<Exception>)
      requires ts.state == Active
      modifies ts.db`entities
      ensures ts.state == Active
      ensures failure.None? <==> ImportOne(old(ts.db.entities), id, startCol, endCol, lookup).Staged?
      ensures failure.None? ==> ts.db.entities == ImportOne(old(ts.db.entities), id, startCol, endCol, lookup).entities
      ensures failure.Some? ==> failure.value == ImportOne(old(ts.db.entities), id, startCol, endCol, lookup).error
    {
      if id !in ts.db.entities {
        return Some(Acad);
      }
      var found := PipeAt(ts.db.entities, id);
      if found.None? {
        return None;
      }
      var pipe := found.value;
      var startInv := ReadInvert(lookup, pipe.handle, startCol);
      if startInv.ReadFails? {
        return Some(startInv.error);
      }
      var endInv := ReadInvert(lookup, pipe.handle, endCol);
      if endInv.ReadFails? {
        return Some(endInv.error);
      }
      var moved := WithInverts(pipe, startInv.value, endInv.value);
      failure := Reconnect(ts, id, moved);
    }

    /** The rest of the `try` block once both inverts are read: move the pipe, disconnect
        and reconnect each end (which attaches the same structure again) and set that
        structure's sump, then make the pipe hold its crown. Reconnecting an end that is
        not attached raises the host's exception, which the COMException handler does
        not catch; the changes made so far are left in the transaction. */
    static method Reconnect(ts: Transaction, id: ObjectId, moved: Pipe) returns (refused: Option<Exception>)
      requires ts.state == Active && id in ts.db.entities
      modifies ts.db`entities
      ensures refused.Some? <==>
        !Attached(old(ts.db.entities), moved.startStructure) || !Attached(old(ts.db.entities), moved.endStructure)
      ensures refused.Some? ==> refused == Some(Acad)
      ensures !Attached(old(ts.db.entities), moved.startStructure) ==>
        ts.db.entities == old(ts.db.entities)[id := PipeEntity(moved)]
      ensures Attached(old(ts.db.entities), moved.startStructure) && !Attached(old(ts.db.entities), moved.endStructure) ==>
        ts.db.entities == WithSump(old(ts.db.entities)[id := PipeEntity(moved)], moved.startStructure.value)
      ensures refused.None? ==>
        ts.db.entities == WithSump(WithSump(old(ts.db.entities)[id := PipeEntity(moved)],
          moved.startStructure.value), moved.endStructure.value)[id := PipeEntity(moved.(holdOnResize := Crown))]
    {
      ts.Write(id, PipeEntity(moved));
      var startId := moved.startStructure;
      if startId.None? || startId.value !in ts.db.entities {
        return Some(Acad);
      }
      if StructureAt(ts.db.entities, startId.value).Some? {
        ts.Write(startId.value, StructureEntity(SumpByDepth(StructureAt(ts.db.entities, startId.value).value)));
      }
      var endId := moved.endStructure;
      if endId.None? || endId.value !in ts.db.entities {
        return Some(Acad);
      }
      if StructureAt(ts.db.entities, endId.value).Some? {
        ts.Write(endId.value, StructureEntity(SumpByDepth(StructureAt(ts.db.entities, endId.value).value)));
      }
      ts.Write(id, PipeEntity(moved.(holdOnResize := Crown)));
      refused := None;
    }

    /** Leaving the loop on an exception: a COMException is caught, reported and the
        transaction aborted; anything else escapes and the `using` block disposes the
        transaction, which aborts it. */
    static method Unwind(ts: Transaction, error: Exception) returns (outcome: Outcome)
      requires ts.state == Active
      modifies ts, ts.db`entities
      ensures ts.db.entities == ts.snapshot && ts.state == Aborted
      ensures outcome == (if error == Com then Reported(Com) else Raised(error))
    {
      if error == Com {
        ts.Abort();
        return Reported(Com);
      }
      ts.Dispose();
      outcome := Raised(error);
    }

    /** The Excel process behind the held sheet ends outside the plugin; the sheet
        stays held, but is no longer ready. */
    method SheetProcessExits()
      requires Valid() && dataSheet.Some?
      modifies dataSheet.value.design`responding
      ensures Valid() && dataSheet == old(dataSheet) && !HasReadySheet()
    {
      dataSheet.value.design.ProcessExits();
    }

    /** The user closes the held sheet's workbook and leaves Excel running with no
        workbook open; the sheet
        stays held, but is no longer ready. */
    method SheetWorkbookCloses()
      requires Valid() && dataSheet.Some?
      modifies dataSheet.value.design`activeWorkbook
      ensures Valid() && dataSheet == old(dataSheet) && !HasReadySheet()
      ensures dataSheet.value.design.responding == old(dataSheet.value.design.responding)
    {
      dataSheet.value.design.WorkbookCloses();
    }

    /** `StartApplication` and `CreateWindow`: a window is made only when none is open. */
    method CreateWindow()
      modifies this`windowOpen, this`windowsCreated
      ensures windowOpen
      ensures old(windowOpen) ==> windowsCreated == old(windowsCreated)
      ensures !old(windowOpen) ==> windowsCreated == old(windowsCreated) + 1
    {
      if !windowOpen {
        windowOpen := true;
        windowsCreated := windowsCreated + 1;
      }
    }

    /** `AutoSheetMainWindowOnClosed`: forget the window and dispose of and forget
        the sheet. Because a held sheet has not been released, the disposal does not throw. */
    method MainWindowClosed()
      requires Valid() && windowOpen
      modifies this`windowOpen, this`dataSheet, Held()
      ensures Valid() && !windowOpen && dataSheet.None?
      ensures windowsCreated == old(windowsCreated)
      ensures old(dataSheet).Some? ==>
        var design := old(dataSheet).value.design;
        && design.finalizerSuppressed && !design.IsReady()
        && design.releaseLog == old(design.releaseLog) + old(design.HandleSteps())
           + (if old(design.responding) then [ProcessKilled, AppReleased] else [])
    {
      windowOpen := false;
      if dataSheet.None? {
        return;
      }
      var _ := dataSheet.value.design.Dispose();
      dataSheet := None;
    }
  }
}
