# AutoSheet in Dafny

AutoSheet is an AutoCAD Civil 3D plugin. It keeps one Excel "design sheet" open over COM, exports a pipe network to it, and imports the inverts computed in the workbook back into the drawing. This project models the plugin's sequential core and proves properties of the model. The host drawing and the workbook are replaced by values.

The model has three parts.

**The design sheet** (`DesignSheets`, `PipeDataSheets`).
- The constructor checks the filename before Excel is started. The filename must be non-null, the file must exist, and the extension must be exactly `.xlsm`.
- It then builds the dictionary of workbook names whose ranges resolve.
- The `PipeDataSheet` constructor looks up nine names in a fixed order. The first missing name leaves that range and every later one null.
- `GetRangeFromColumn` makes a single-column A1 address from one character. Columns 1 to 26 give 'A' to 'Z'. Columns 33 to 58 give 'a' to 'z', which Excel reads as columns A to Z, so such a range is written 32 columns to its left.
- `IsReady` probes `XlApp.Worksheets`, the worksheets of Excel's active workbook. That needs a live process with a workbook open in it.
- The release frees the worksheet, the workbook and the process. `Dispose` suppresses the finalizer.
- A constructor that throws still yields an object here. It records in `fault` the exception raised, and in `hasApp`/`hasWorkbook`/`hasPipeDataSheet` what was acquired before the throw.

**The plugin's static state** (`AutoSheets.AutoSheet`).
- There is one `DataSheet` slot and one main window.
- `OpenDesignSheet` throws `DataSheetAlreadyExists` over a ready sheet. It disposes a stale one, and keeps a new sheet only when that sheet is ready.
- The window-closed handler disposes and forgets the sheet. `CreateWindow` makes a window only when none is open.

**Export and import** (`ExportRows`, `Reconcile`, and the class's methods).
- The export fills five column arrays, one entry per readable pipe. It writes them to rows 2..Count+1 of the Handle, From, To, Length and InnerDiameter columns, in that order.
- The import runs one transaction over all pipes. Each pipe's start and end elevations become invert + outer diameter / 2 − wall thickness, with X and Y kept. Each structure it reaches gets a sump by depth of 0.3, and the pipe holds its crown.
- A COM failure aborts the transaction, so no change survives. Only a complete pass commits.

The environment is modelled as values:
- the drawing is `Civil.Database`, a map from object id to pipe, structure or other object;
- a host transaction is `Civil.Transaction`, which takes a snapshot, writes, and aborts or commits;
- the workbook Excel would open is `Workbook.Excel`;
- `File.Exists` is membership in a set of paths;
- `VLookup` is a function from (handle, column) to a cell or a failure;
- the column writes are a log on the `PipeDataSheet`.

`DesignSheet.ProcessExits` and `DesignSheet.WorkbookCloses` are not plugin code. They stand for the two things outside the plugin that turn a held sheet stale: the Excel process ends, or the user closes the design workbook and leaves Excel running with no workbook open. Only in the first case has the process stopped answering, so only then does a later release skip the kill.

## Model

| member | source | states |
|---|---|---|
| `DesignSheets.ExtensionIsSuffix` | ACadLib/Utilities/DesignSheet.cs:50 | The extension `Path.GetExtension` returns is empty or a suffix of the path. |
| `DesignSheets.ExtensionIsMacroIff` | ACadLib/Utilities/DesignSheet.cs:50-53 | The extension test passes exactly when the path ends in ".xlsm", compared case-sensitively. |
| `DesignSheets.NamesTableExact` | ACadLib/Utilities/DesignSheet.cs:69-80 | Specifies `NamesTable`: the names loop fails exactly when two names that resolve to a range coincide. Otherwise its keys are exactly the resolvable names, each mapped to its own range; unresolvable names are skipped. |
| `DesignSheets.NoneStaysNone` | ACadLib/Utilities/DesignSheet.cs:70-74 | Once `Add` has thrown on a prefix of the names, the whole loop has failed. |
| `DesignSheets.LoadNames` | ACadLib/Utilities/DesignSheet.cs:69-80 | The loop succeeds exactly when the reference table exists, and then returns it. Its only failure is the duplicate-key exception. |
| `DesignSheets.ConstructionFault` | ACadLib/Utilities/DesignSheet.cs:43-81 | It is FilenameNull exactly for a null filename. It is FileNotFound exactly for a filename that is missing or not ".xlsm". With no exception, the filename was admitted, Excel started and the workbook opened. |
| `DesignSheets.DesignSheet.constructor` | ACadLib/Utilities/DesignSheet.cs:43-81 | The new sheet's exception is `ConstructionFault`. An Excel application exists only when the filename was admitted, so a rejected filename never starts Excel. The workbook is held only when it opened, and the worksheet only when it exists. With no exception, the names dictionary is the loop's table. Nothing is released. |
| `DesignSheets.DesignSheet.ReleaseUnmanagedResources` | ACadLib/Utilities/DesignSheet.cs:141-163 | It releases the worksheet and then the workbook, each only if held. It stops before the process when there is no application. Otherwise it kills the process and releases the application. A process that does not answer gives a reported COM error with nothing more released. An application already released raises InvalidComObject. |
| `DesignSheets.DesignSheet.Dispose` | ACadLib/Utilities/DesignSheet.cs:117-121 | It releases exactly as `ReleaseUnmanagedResources` does, in each of its four cases (no application, application already released, process not answering, process answering). Then it suppresses the finalizer, unless the release raised. A first release of an application never raises, and after it the sheet is not ready. |
| `DesignSheets.DesignSheet.RunFinalizer` | ACadLib/Utilities/DesignSheet.cs:86-89 | After `Dispose` suppressed it, or once it has run, it does nothing. Otherwise it runs once and releases exactly as `ReleaseUnmanagedResources` does, in each of its four cases. |
| `DesignSheets.DesignSheet.IsReady` | ACadLib/Utilities/DesignSheet.cs:96-111 | The sheet is ready exactly when its application exists and has not been released, its process answers and it has an active workbook. Not ready means exactly that reading `Worksheets` raised NullReference, InvalidComObject or a COMException, all of which are caught. |
| `PipeDataSheets.ColumnLetterIsLetterIff` | ACadLib/Utilities/PipeDataSheet.cs:96 | `(char)(n - 1 + 'A')` is a capital letter exactly for columns 1 to 26, and then it is letter n of the alphabet (1 is 'A', 26 is 'Z'). It is a small letter exactly for columns 33 to 58. |
| `PipeDataSheets.DigitsRoundTrip` | ACadLib/Utilities/PipeDataSheet.cs:97 | Every natural number prints as a non-empty digit string that reads back as the number. |
| `PipeDataSheets.DecimalRoundTrip` | ACadLib/Utilities/PipeDataSheet.cs:97 | A row bound interpolated into the address reads back as the same integer and contains no ':'. |
| `PipeDataSheets.GetRangeFromColumnReadsBack` | ACadLib/Utilities/PipeDataSheet.cs:88-98 | Specifies `GetRangeFromColumn`: the address has the form "{L}{upper}:{L}{lower}". It names one column, with the same letter on both sides, and exactly the two row bounds given, both inclusive. |
| `PipeDataSheets.ColumnAddressAcceptedIff` | ACadLib/Utilities/PipeDataSheet.cs:94-98 | Excel, reading column letters of either case, accepts the address exactly when the column is 1 to 26 or 33 to 58 and both rows are 1 to 1048576. |
| `PipeDataSheets.ColumnAddressTarget` | ACadLib/Utilities/PipeDataSheet.cs:94-98 | An accepted address names one column on both sides of the ':'. That column is n for n up to 26 and n − 32 for columns 33 to 58, so it is the range's own column exactly when n is at most 26. |
| `PipeDataSheets.ResolveInOrderIsPrefix` | ACadLib/Utilities/PipeDataSheet.cs:109-124 | Range i is set exactly when names 0..i are all in the dictionary, and then it is name i's range. The first missing name leaves it and every later range null; earlier ranges stay set. |
| `PipeDataSheets.ChainedIsResolveInOrder` | ACadLib/Utilities/PipeDataSheet.cs:111-119 | Consider lookups where each happens only when the one before succeeded. They leave exactly the ranges of ordered resolution. |
| `PipeDataSheets.NoneAfterMiss` | ACadLib/Utilities/PipeDataSheet.cs:111-121 | When the first name is missing, every range stays null. |
| `PipeDataSheets.StepsAreChained` | ACadLib/Utilities/PipeDataSheet.cs:111-119 | The nine assignments, written out one by one, leave a chained run over the fixed name order. |
| `PipeDataSheets.ResolvedInOrder` | ACadLib/Utilities/PipeDataSheet.cs:111-119 | The nine assignments leave exactly ordered resolution over PipeData, From, To, StartInv, EndInv, Slope, Length, InnerDiameter, Handle. |
| `PipeDataSheets.PipeDataSheet.ResolveRanges` | ACadLib/Utilities/PipeDataSheet.cs:109-124 | Each range is set only when the previous lookup succeeded and its name is present, in the fixed order. The missing name's exception is swallowed. The run completes exactly when the handle range is set. |
| `PipeDataSheets.PipeDataSheet.constructor` | ACadLib/Utilities/PipeDataSheet.cs:107-125 | The base constructor's exception is the only one, so a missing name never makes construction fail. The ranges are those of ordered resolution, or all null when the base threw. `FromToRange` is always null, and nothing has been written. |
| `PipeDataSheets.PipeDataSheet.IsReady` | ACadLib/Utilities/DesignSheet.cs:96-111 | `PipeDataSheet` inherits `IsReady` from `DesignSheet`: it is ready exactly when the design sheet's application exists, is not released, answers and has an active workbook. |
| `PipeDataSheets.PipeDataSheet.WriteColumn` | ACadLib/Utilities/PipeDataSheet.cs:94-98 | Writing through `PipeDataRange.Range[address]` raises NullReference when `PipeDataRange` is null. It raises a COMException when the sheet is not ready (its process no longer answers or it has no active workbook) or Excel refuses the address. Otherwise exactly one write is appended to the log. |
| `PipeDataSheets.HandleRangeImpliesAll` | ACadLib/Utilities/PipeDataSheet.cs:111-119 | "PipeData_Handle" is looked up last, so when the handle range is set every range is set. |
| `ExportRows.RowsCount` | ACadLib/AutoSheet.cs:146-173 | Specifies `Rows`: there is one row per readable pipe, never more rows than pipe ids. |
| `ExportRows.RowsPrefix` | ACadLib/AutoSheet.cs:146-173 | Processing more pipes never moves or changes rows already filled. |
| `ExportRows.RowsStep` | ACadLib/AutoSheet.cs:148-172 | Each pipe adds its row when it can be read, and nothing otherwise. |
| `ExportRows.RowNumberOf` | ACadLib/AutoSheet.cs:146-173 | Specifies `Rows` and `RowOf`: a readable pipe at position i fills the row numbered by the readable pipes before it, with its own handle, names, length and diameter. An unreadable one fills none, so `rowNumber` does not advance. |
| `ExportRows.ColumnCells` | ACadLib/AutoSheet.cs:140-144 | A column array has one entry per pipe id. The rows' values come first and the trailing entries stay null. |
| `ExportRows.ColumnCellsAppend` | ACadLib/AutoSheet.cs:153-172 | Filling entry `rowNumber` with the next row's value gives the array of the longer row list. |
| `ExportRows.WriteAll` | ACadLib/AutoSheet.cs:175-193 | The columns are written in order, as a prefix of them: never more writes than columns, and write j carries column j's values. The export completes exactly when every column was written. A failure is raised, never reported, since the export catches nothing. |
| `ExportRows.WriteAllWritesEvery` | ACadLib/AutoSheet.cs:175-193 | When every range is set and every column gives a letter Excel reads, every column is written, in order, to rows 2..Count+1 of the address built from its own column. The export completes. |
| `ExportRows.ExportWithoutHandleWritesNothing` | ACadLib/AutoSheet.cs:175-177 | Without the handle range (looked up last), the export writes nothing and raises NullReference. |
| `ExportRows.ExportToStaleSheetWritesNothing` | ACadLib/AutoSheet.cs:175-177 | A sheet that is not ready (its process ended, or it has no active workbook) takes no write: the first column's write raises a COMException. |
| `ExportRows.ExportWritesFiveColumns` | ACadLib/AutoSheet.cs:134-193 | When the sheet is writable, exactly the Handle, From, To, Length and InnerDiameter columns are written, in that order, and nothing else. |
| `ExportRows.ExportPlan` | ACadLib/AutoSheet.cs:134-193 | The export raises the host's exception exactly when its loop reaches an id that names no object, or a pipe whose start or end structure id is set but names no object. It then writes nothing. The column writes never raise that exception. |
| `Reconcile.ImportAllShape` | ACadLib/AutoSheet.cs:212-280 | A successful import keeps the same ids and the same kind of object under each. Names, handles, X/Y, sizes and connections are kept. Other objects are untouched. |
| `Reconcile.ImportFailsIff` | ACadLib/AutoSheet.cs:212-279 | The import fails exactly when one of the following holds. Some pipe id names no object, so `GetObject` raises. Some readable pipe has an invert that cannot be read: a null column, or a handle missing from the table. Or some readable pipe has an end whose structure id is null or names no object, which makes `ConnectToStructure` raise. The exception is then a COMException, a NullReference or the host's exception. There is no skip on a lookup miss or a free end. |
| `Reconcile.ImportOne` | ACadLib/AutoSheet.cs:214-264 | An id that names no object raises the host's exception. One turn skips an object that is not a pipe and leaves the drawing as it was. A turn that succeeds keeps the same object ids. A turn that fails raises a COMException, a NullReference or the host's exception. |
| `Reconcile.ImportAll` | ACadLib/AutoSheet.cs:212-280 | The loop over all pipe ids keeps the same object ids when it succeeds, and otherwise raises one of the three exceptions a turn can raise. |
| `Reconcile.ImportOneFailsIff` | ACadLib/AutoSheet.cs:214-264 | One turn raises exactly when the pipe it processes has an unreadable invert or an unattached end. |
| `Reconcile.FreeEndNeverImports` | ACadLib/AutoSheet.cs:238-256 | A network with a readable pipe whose start or end structure is null can never be imported: the import as a whole fails. |
| `Reconcile.FailureIsFinal` | ACadLib/AutoSheet.cs:267-279 | Once a pipe fails, the import as a whole fails with that exception. |
| `Reconcile.ImportedPipes` | ACadLib/AutoSheet.cs:216-236 | After a successful import, every readable pipe has Z = invert + OuterDiameter/2 − WallThickness at each end. It keeps its X and Y and holds its crown; unreadable ids are skipped. |
| `Reconcile.ImportedStructures` | ACadLib/AutoSheet.cs:238-262 | After a successful import, every structure at either end of a readable pipe has its sump controlled by depth at depth 0.3, and keeps its name. |
| `Reconcile.ImportTouchesNothingElse` | ACadLib/AutoSheet.cs:212-280 | A successful import adds and removes no object. It leaves every object equal to what it was, except the pipes processed and the structures at their ends. |
| `AutoSheets.OpenCompletesIff` | ACadLib/AutoSheet.cs:97-118 | Opening completes exactly when the path is given, exists, ends in ".xlsm", Excel opens it, it has the "PipeData" sheet and its resolvable names are distinct. |
| `AutoSheets.OpenRaisesOnlyOnRepeatedNames` | ACadLib/AutoSheet.cs:97-118 | The filename, file and COM failures are caught and shown. The only exception that escapes the constructor is the duplicate-name one. |
| `AutoSheets.ImportedEqualIff` | ACadLib/AutoSheet.cs:323-329 | Specifies `ArePipesEqual`: `ArePipesEqual(p, imported p)` holds exactly when both ends of p already sat at the elevations its inverts give. |
| `AutoSheets.ReadFaultFailsBoth` | ACadLib/AutoSheet.cs:145-163 | `GetObject` has one meaning in both commands. An entry whose read stops the export (an id, or a pipe end, that names no object) makes the export raise the host's exception with no write, and makes the import fail. |
| `AutoSheets.AutoSheet.constructor` | ACadLib/AutoSheet.cs:31-67 | Initially there is no design sheet and no window. |
| `AutoSheets.AutoSheet.OpenDesignSheet` | ACadLib/AutoSheet.cs:87-119 | A ready sheet raises DataSheetAlreadyExists and changes nothing. A stale sheet is disposed before the new one is built: its handles are released, its process is killed when it still answers, its finalizer is suppressed, and it is dropped. The outcome is then the constructor's. The slot holds the new sheet only when no exception occurred and it is ready; after a failure it is null. |
| `AutoSheets.AutoSheet.ExportPipeData` | ACadLib/AutoSheet.cs:126-195 | With no sheet, it does nothing. A null network raises NullReference. Readiness is not checked first, so a stale sheet fails at its first write. Otherwise the sheet's write log grows by exactly the export plan of the network's pipes, on a sheet that is or is not ready, and the method ends with the plan's outcome. A read that raises in the loop leaves the log unchanged. The drawing is not modified. |
| `AutoSheets.AutoSheet.FillColumns` | ACadLib/AutoSheet.cs:134-173 | The loop raises the host's exception exactly when the export plan says a read fails: an id that names no object, or a pipe end that names no object. Otherwise the five arrays are each the column array of the rows of the readable pipes, in network order. "null" stands for a null structure id or an object that is not a structure. |
| `AutoSheets.AutoSheet.PutRow` | ACadLib/AutoSheet.cs:153-169 | One readable pipe's handle, from, to, length and inner diameter go to entry `rowNumber` of the five arrays. |
| `AutoSheets.AutoSheet.WriteColumns` | ACadLib/AutoSheet.cs:175-193 | The five statements produce exactly the writes and outcome of `WriteAll`; the first exception ends them. |
| `AutoSheets.AutoSheet.WriteFirst` | ACadLib/AutoSheet.cs:175-177 | One statement is one step of `WriteAll`. A null range raises before the address is built. |
| `AutoSheets.AutoSheet.ImportPipeData` | ACadLib/AutoSheet.cs:201-287 | A null or unready sheet, or a null network, raises ArgumentNullException with the drawing untouched. Otherwise the drawing becomes the import of every pipe, committed once. On a failure it is exactly as before, with no commit: a COMException is reported, anything else is raised. That includes the host's exception for a free pipe end, which ends the loop. |
| `AutoSheets.AutoSheet.ImportLoop` | ACadLib/AutoSheet.cs:212-280 | The `foreach` inside the transaction leaves the drawing that `ImportAll` gives for every pipe id, or hands on the exception `ImportAll` fails with, exactly when it fails. The transaction stays active for the caller to commit or abort. |
| `AutoSheets.AutoSheet.ImportStep` | ACadLib/AutoSheet.cs:212-264 | One turn of the loop leaves the transaction active and does exactly what `ImportOne` says: it fails exactly when `ImportOne` fails, with the same exception, and otherwise leaves the drawing `ImportOne` gives. |
| `AutoSheets.AutoSheet.Reconnect` | ACadLib/AutoSheet.cs:235-264 | The pipe moves first. Then each end in turn is reattached and its structure, when it is one, gets its sump; the pipe then holds its crown. An end whose structure id is null or names no object raises the host's exception exactly then, leaving the changes made before it (the moved pipe, and the start's sump when the end fails). |
| `AutoSheets.AutoSheet.Unwind` | ACadLib/AutoSheet.cs:267-279 | Leaving the loop on an exception aborts the transaction and restores the snapshot. A COMException is reported, anything else propagates. |
| `AutoSheets.AutoSheet.CreateWindow` | ACadLib/AutoSheet.cs:312-321 | A window is created only when none is open, so at most one exists. |
| `AutoSheets.AutoSheet.MainWindowClosed` | ACadLib/AutoSheet.cs:299-307 | Closing the window forgets it, and disposes and forgets the sheet. The disposal releases the handles, kills the process if it still answers, and suppresses the finalizer. |
| `Civil.Transaction.constructor` | ACadLib/AutoSheet.cs:207 | A new transaction is active and remembers the drawing as it was. |
| `Civil.Transaction.Abort` | ACadLib/AutoSheet.cs:277 | Aborting puts back the remembered drawing. |
| `Civil.Transaction.Commit` | ACadLib/AutoSheet.cs:284 | Committing keeps the changes and counts one commit. |
| `Civil.Transaction.Dispose` | ACadLib/AutoSheet.cs:207-285 | Leaving the `using` block aborts a transaction still active and leaves a finished one alone. |

## Left out

- COM and Excel internals are abstract inputs: `Workbooks.Open`, `Worksheets[...]`, `RefersToRange`, `FinalReleaseComObject`, `GetWindowThreadProcessId`, `Process.Kill` and the semantics of `WorksheetFunction.VLookup`. Each either succeeds or raises a COMException, as the `Excel` value and the lookup function say. A release is a step in a log.
- How Excel reads an address is reduced to one test: a single-letter A1 reference, the letter of either case, with rows 1 to 1048576. The write records the address as given. Two details are not modelled: how Excel normalises a reversed pair ("A2:A1", which the export of an empty network writes), and the offset of `Range[...]` relative to `PipeDataRange`.
- A `VLookup` result that is neither empty nor a number (a runtime binder error) is not modelled. An empty result is 0, and a failed lookup is a COMException. A null `PipeDataRange` is not an input of the lookup: the constructor resolves names in order, so it is null only when `StartInvRange` is also null, and that NullReference comes first.
- Host CAD calls are left out: `GetPipeNetworks`, `LockDocument`, `Editor.Regen`, and the geometric effect of `Disconnect`/`ConnectToStructure`. Reconnection re-attaches the same structure id. A COMException these calls might raise is not modelled. A structure id that is null or names no object makes `ConnectToStructure` raise the host's exception. An id that names an object that is not a structure is reattached, and `as Structure` gives null, so its sump is skipped.
- Other workbooks in the design sheet's Excel instance are not modelled. `Worksheets` belongs to Excel's active workbook, so with another workbook open the source reads the sheet as ready even after the design workbook is closed. The model knows only the design workbook, so closing it always leaves no active workbook and makes the sheet not ready.
- The read-only transaction of the export is not modelled. The export reads the drawing directly and its method cannot modify it.
- `Point3d` equality in `ArePipesEqual` is its tolerance-based comparison in the host. Here it is exact equality of real coordinates.
- Floating point is left out. Elevations and lengths are `real`, and the formula is exact.
- The sheet objects an `OpenDesignSheet` abandons are not modelled. That covers a sheet whose constructor threw after Excel started, and a fresh sheet that was not ready; both are left to the garbage collector.
- Message boxes, WPF windows, the view models and the logger are left out. StartApplication's log line and the "Window Already Exists" log line are among them.
- `GetRangeFromColumn`'s 16-bit `char` cast is not modelled for columns beyond 16384. Excel's columns stop there, so the cast never wraps.
- Behaviours the code does not have are not modelled: an idempotent open returning the existing sheet, skipping a handle the lookup misses, degrading gracefully per missing field, and a second release that does nothing.
