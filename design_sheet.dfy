/** ACadLib/Utilities/DesignSheet.cs: opening a workbook in a fresh Excel process,
    the dictionary of its named ranges, the readiness probe and the release of the
    COM handles. */
module DesignSheets {
  import opened Failures
  import opened Workbook

  /** The only extension a design sheet may have (compared case-sensitively). */
  const MacroExtension: string := ".xlsm"

  /** True when `s` ends with `suffix`. */
  predicate EndsWith(s: string, suffix: string)
  {
    |suffix| <= |s| && s[|s| - |suffix|..] == suffix
  }

  predicate IsSeparator(ch: char)
  {
    ch == '\\' || ch == '/' || ch == ':'
  }

  /** `Path.GetExtension` of the .NET Framework: the text from the last '.' that
      follows the last directory or volume separator, or "" when there is none or the
      '.' is the final character. (Its check for invalid path characters is never
      reached here, because the path is only examined after `File.Exists` held.) */
  function Extension(path: string): string
  {
    ExtensionBefore(path, |path|)
  }

  /** The scan of `Extension` over the characters before index `i`, from the right. */
  function ExtensionBefore(path: string, i: nat): string
    requires i <= |path|
  {
    if i == 0 then ""
    else if path[i - 1] == '.' then (if i != |path| then path[i - 1..] else "")
    else if IsSeparator(path[i - 1]) then ""
    else ExtensionBefore(path, i - 1)
  }

  /** Whatever the scan returns is empty or a suffix of the path. */
  lemma {:induction false} ExtensionIsSuffix(path: string, i: nat)
    requires i <= |path|
    ensures ExtensionBefore(path, i) == "" || EndsWith(path, ExtensionBefore(path, i))
  {
    if i > 0 && path[i - 1] != '.' && !IsSeparator(path[i - 1]) {
      ExtensionIsSuffix(path, i - 1);
    }
  }

  /** The extension test accepts exactly the paths ending in ".xlsm": "a.XLSM",
      "a.xls" and "a.xlsm.bak" are refused. */
  lemma ExtensionIsMacroIff(path: string)
    ensures Extension(path) == MacroExtension <==> EndsWith(path, MacroExtension)
  {
    var n := |path|;
    if EndsWith(path, MacroExtension) {
      assert path[n - 5..] == ".xlsm";
      assert path[n - 1] == 'm' && path[n - 2] == 's' && path[n - 3] == 'l' && path[n - 4] == 'x';
      assert path[n - 5] == '.';
      assert ExtensionBefore(path, n) == ExtensionBefore(path, n - 1);
      assert ExtensionBefore(path, n - 1) == ExtensionBefore(path, n - 2);
      assert ExtensionBefore(path, n - 2) == ExtensionBefore(path, n - 3);
      assert ExtensionBefore(path, n - 3) == ExtensionBefore(path, n - 4);
      assert ExtensionBefore(path, n - 4) == path[n - 5..];
    }
    if Extension(path) == MacroExtension {
      ExtensionIsSuffix(path, n);
    }
  }

  /** Whether the constructor's two checks let `filename` through:
      `filename != null`, then `File.Exists(filename)` and extension ".xlsm". */
  predicate Admitted(filename: Option<string>, files: set<string>)
  {
    filename.Some? && filename.value in files && Extension(filename.value) == MacroExtension
  }

  /** The dictionary the constructor's loop builds from the workbook's names, or None
      when `Dictionary.Add` meets a name twice. A name whose `RefersToRange` fails is
      skipped before `Add` is reached. */
  function NamesTable(names: seq<WorkbookName>): Option<map<string, Range>>
  {
    if names == [] then Some(map[])
    else
      var last := names[|names| - 1];
      match NamesTable(names[..|names| - 1])
      case None => None
      case Some(table) =>
        if last.refersTo.None? then Some(table)
        else if last.name in table then None
        else Some(table[last.name := last.refersTo.value])
  }

  /** No two names that resolve to a range are the same. */
  ghost predicate ResolvableNamesDistinct(names: seq<WorkbookName>)
  {
    forall i, j :: 0 <= i < j < |names| && names[i].refersTo.Some? && names[j].refersTo.Some?
      ==> names[i].name != names[j].name
  }

  /** The loop fails exactly when two resolvable names coincide; otherwise the table
      holds exactly the names that resolve, each with its range. */
  lemma {:induction false} NamesTableExact(names: seq<WorkbookName>)
    ensures NamesTable(names).Some? <==> ResolvableNamesDistinct(names)
    ensures NamesTable(names).Some? ==>
      forall k :: k in NamesTable(names).value <==>
        exists i :: 0 <= i < |names| && names[i].name == k && names[i].refersTo.Some?
    ensures NamesTable(names).Some? ==>
      forall i :: 0 <= i < |names| && names[i].refersTo.Some? ==>
        names[i].name in NamesTable(names).value &&
        NamesTable(names).value[names[i].name] == names[i].refersTo.value
  {
    if names != [] {
      var front := names[..|names| - 1];
      var last := names[|names| - 1];
      NamesTableExact(front);
      assert forall i :: 0 <= i < |front| ==> front[i] == names[i];
      if NamesTable(front).Some? && last.refersTo.Some? && last.name in NamesTable(front).value {
        var i :| 0 <= i < |front| && front[i].name == last.name && front[i].refersTo.Some?;
        assert names[i].name == names[|names| - 1].name;
      }
    }
  }

  /** The constructor's `foreach` over `Workbook.Names`: each name whose range
      resolves is added; one that raises a COMException is skipped; a repeated name
      makes `Add` throw, which ends the loop and the constructor. */
  method LoadNames(names: seq<WorkbookName>) returns (table: map<string, Range>, fault: Option<Exception>)
    ensures fault.None? <==> NamesTable(names).Some?
    ensures fault.None? ==> table == NamesTable(names).value
    ensures fault.Some? ==> fault == Some(DuplicateKey)
  {
    table := map[];
    var i := 0;
    while i < |names|
      invariant 0 <= i <= |names|
      invariant NamesTable(names[..i]) == Some(table)
    {
      assert names[..i + 1][..i] == names[..i];
      var name := names[i];
      if name.refersTo.Some? {
        if name.name in table {
          NoneStaysNone(names, i + 1);
          return table, Some(DuplicateKey);
        }
        table := table[name.name := name.refersTo.value];
      }
      i := i + 1;
    }
    assert names[..i] == names;
    fault := None;
  }

  /** Once the loop has failed on a prefix, it fails on the whole sequence. */
  lemma {:induction false} NoneStaysNone(names: seq<WorkbookName>, k: nat)
    requires k <= |names| && NamesTable(names[..k]).None?
    ensures NamesTable(names).None?
    decreases |names| - k
  {
    if k < |names| {
      assert names[..k + 1][..k] == names[..k];
      NoneStaysNone(names, k + 1);
    } else {
      assert names[..k] == names;
    }
  }

  /** The exception the constructor (with the derived class's sheet name) raises, if any. */
  function ConstructionFault(filename: Option<string>, sheetName: string, files: set<string>, excel: Excel): (fault: Option<Exception>)
    ensures fault == Some(FilenameNull) <==> filename.None?
    ensures fault == Some(FileNotFound) <==>
      filename.Some? && !(filename.value in files && EndsWith(filename.value, MacroExtension))
    ensures fault.None? ==> Admitted(filename, files) && excel.starts && filename.value in excel.books
  {
    ExtensionIsMacroIff(if filename.Some? then filename.value else "");
    if filename.None? then Some(FilenameNull)
    else if !Admitted(filename, files) then Some(FileNotFound)
    else if !excel.starts || filename.value !in excel.books then Some(Com)
    else if sheetName !in excel.books[filename.value].sheets then Some(Com)
    else if NamesTable(excel.books[filename.value].names).None? then Some(DuplicateKey)
    else None
  }

  /** The steps of a release, in the order the plugin performs them. */
  datatype ReleaseStep = SheetReleased | WorkbookReleased | ProcessKilled | AppReleased

  /** A workbook opened in its own Excel process. The constants record what the
      constructor acquired before it returned or threw; the variables are the state of
      the COM handles and of the garbage collector's view of the object. */
  class DesignSheet {
    /** `XlApp != null`: an Excel process was started. */
    const hasApp: bool
    /** `_xlWorkbook != null`. */
    const hasWorkbook: bool
    /** `_pipeDataSheet != null`. */
    const hasPipeDataSheet: bool
    /** `XlWorkbookNames`. */
    const workbookNames: map<string, Range>
    /** The exception the constructor threw, if any. */
    const fault: Option<Exception>

    /** Whether the Excel process still answers calls. */
    var responding: bool
    /** Whether Excel has an active workbook. The design workbook is the only workbook
        the model knows, so this holds from its opening until the user closes it,
        leaving Excel running without a workbook. */
    var activeWorkbook: bool
    /** Whether `FinalReleaseComObject(XlApp)` has run. */
    var appReleased: bool
    /** Every release action performed so far. */
    var releaseLog: seq<ReleaseStep>
    /** `GC.SuppressFinalize(this)` has run. */
    var finalizerSuppressed: bool
    /** The finalizer has run. */
    var finalized: bool

    /** The state right after the constructor ran on these inputs. */
    ghost predicate OpenedFrom(filename: Option<string>, sheetName: string, files: set<string>, excel: Excel)
      reads this
    {
      && fault == ConstructionFault(filename, sheetName, files, excel)
      && hasApp == (Admitted(filename, files) && excel.starts)
      && hasWorkbook == (hasApp && filename.value in excel.books)
      && hasPipeDataSheet == (hasWorkbook && sheetName in excel.books[filename.value].sheets)
      && (fault.None? ==> workbookNames == NamesTable(excel.books[filename.value].names).value)
      && responding == (hasApp && excel.staysResponsive)
      && activeWorkbook == hasWorkbook
      && !appReleased && releaseLog == [] && !finalizerSuppressed && !finalized
    }

    /** The checks on the filename come before Excel is started, so a rejected
        filename never creates an Excel process. */
    constructor (filename: Option<string>, sheetName: string, files: set<string>, excel: Excel)
      ensures OpenedFrom(filename, sheetName, files, excel)
    {
      var app, book, sheet := false, false, false;
      var table: map<string, Range> := map[];
      var thrown: Option<Exception> := None;
      if filename.None? {
        thrown := Some(FilenameNull);
      } else if !(filename.value in files) || Extension(filename.value) != MacroExtension {
        thrown := Some(FileNotFound);
      } else if !excel.starts {
        thrown := Some(Com);
      } else {
        app := true;
        var path := filename.value;
        if path !in excel.books {
          thrown := Some(Com);
        } else {
          book := true;
          if sheetName !in excel.books[path].sheets {
            thrown := Some(Com);
          } else {
            sheet := true;
            var loaded, failed := LoadNames(excel.books[path].names);
            if failed.Some? {
              thrown := failed;
            } else {
              table := loaded;
            }
          }
        }
      }
      hasApp, hasWorkbook, hasPipeDataSheet := app, book, sheet;
      workbookNames, fault := table, thrown;
      responding := app && excel.staysResponsive;
      activeWorkbook := book;
      appReleased, releaseLog := false, [];
      finalizerSuppressed, finalized := false, false;
    }

    /** What reading `XlApp.Worksheets` does: a NullReference without an application,
        an InvalidComObject once the application was released, a COMException when
        the process no longer answers or has no active workbook (the property is that
        of the active workbook). */
    function WorksheetsProbe(): Outcome
      reads this
    {
      if !hasApp then Raised(NullReference)
      else if appReleased then Raised(InvalidComObject)
      else if !responding || !activeWorkbook then Raised(Com)
      else Completed
    }

    /** `IsReady`: every exception of the probe is caught and read as "not ready". The
        sheet is ready exactly when its application exists and has not been released,
        its process answers and it has an active workbook. */
    predicate IsReady(): (ready: bool)
      reads this
      ensures ready <==> hasApp && !appReleased && responding && activeWorkbook
      ensures !ready <==> WorksheetsProbe() in {Raised(NullReference), Raised(InvalidComObject), Raised(Com)}
    {
      !WorksheetsProbe().Raised?
    }

    /** Not plugin code: the Excel process ends from outside (the user closes Excel, or
        it crashes). From then on the readiness probe fails. */
    method ProcessExits()
      modifies this`responding
      ensures !responding && !IsReady()
    {
      responding := false;
    }

    /** Not plugin code: the user closes the design workbook and leaves Excel running with
        no workbook open. From then on the readiness probe fails, but the process still
        answers. */
    method WorkbookCloses()
      modifies this`activeWorkbook
      ensures !activeWorkbook && !IsReady()
    {
      activeWorkbook := false;
    }

    /** The two handle releases that come before the process is touched. */
    function HandleSteps(): seq<ReleaseStep>
      reads this
    {
      (if hasPipeDataSheet then [SheetReleased] else []) + (if hasWorkbook then [WorkbookReleased] else [])
    }

    /** `ReleaseUnmanagedResources`: release the worksheet, then the workbook, each only
        when it is held; stop there without an application; otherwise look the process
        up through `XlApp.Hwnd`, kill it and release the application. A dead process makes
        that lookup raise a COMException, which is reported; an already released
        application raises InvalidComObject, which is not caught. */
    method ReleaseUnmanagedResources() returns (outcome: Outcome)
      modifies this`responding, this`appReleased, this`releaseLog
      ensures !hasApp ==>
        (outcome == Completed && releaseLog == old(releaseLog) + HandleSteps()
         && appReleased == old(appReleased) && responding == old(responding))
      ensures hasApp && old(appReleased) ==>
        (outcome == Raised(InvalidComObject)
         && releaseLog == old(releaseLog) + HandleSteps() && appReleased && responding == old(responding))
      ensures hasApp && !old(appReleased) && !old(responding) ==>
        (outcome == Reported(Com)
         && releaseLog == old(releaseLog) + HandleSteps() && !appReleased && !responding)
      ensures hasApp && !old(appReleased) && old(responding) ==>
        (outcome == Completed
         && releaseLog == old(releaseLog) + HandleSteps() + [ProcessKilled, AppReleased]
         && appReleased && !responding)
    {
      if hasPipeDataSheet {
        releaseLog := releaseLog + [SheetReleased];
      }
      if hasWorkbook {
        releaseLog := releaseLog + [WorkbookReleased];
      }
      if !hasApp {
        return Completed;
      }
      if appReleased {
        return Raised(InvalidComObject);
      }
      if !responding {
        return Reported(Com);
      }
      releaseLog := releaseLog + [ProcessKilled, AppReleased];
      appReleased, responding := true, false;
      outcome := Completed;
    }

    /** `Dispose`: release, then take the object off the finalizer queue. When the
        release throws (a second `Dispose`), the suppression is never reached. */
    method Dispose() returns (outcome: Outcome)
      modifies this`responding, this`appReleased, this`releaseLog, this`finalizerSuppressed
      ensures !hasApp ==>
        (outcome == Completed && releaseLog == old(releaseLog) + HandleSteps()
         && appReleased == old(appReleased) && responding == old(responding))
      ensures hasApp && old(appReleased) ==>
        (outcome == Raised(InvalidComObject)
         && releaseLog == old(releaseLog) + HandleSteps() && appReleased && responding == old(responding))
      ensures hasApp && !old(appReleased) && !old(responding) ==>
        (outcome == Reported(Com)
         && releaseLog == old(releaseLog) + HandleSteps() && !appReleased && !responding)
      ensures hasApp && !old(appReleased) && old(responding) ==>
        (outcome == Completed
         && releaseLog == old(releaseLog) + HandleSteps() + [ProcessKilled, AppReleased]
         && appReleased && !responding)
      ensures finalizerSuppressed == (old(finalizerSuppressed) || !outcome.Raised?)
      ensures hasApp && !old(appReleased) ==> !IsReady()
    {
      outcome := ReleaseUnmanagedResources();
      if !outcome.Raised? {
        finalizerSuppressed := true;
      }
    }

    /** What the garbage collector does with the object: run the finalizer (which
        releases) once, unless `Dispose` suppressed it. */
    method RunFinalizer() returns (outcome: Outcome)
      modifies this`responding, this`appReleased, this`releaseLog, this`finalized
      ensures old(finalizerSuppressed) || old(finalized) ==>
        (outcome == Completed && releaseLog == old(releaseLog) && appReleased == old(appReleased)
         && responding == old(responding) && finalized == old(finalized))
      ensures !old(finalizerSuppressed) && !old(finalized) ==> finalized
      ensures !old(finalizerSuppressed) && !old(finalized) && !hasApp ==>
        (outcome == Completed && releaseLog == old(releaseLog) + HandleSteps()
         && appReleased == old(appReleased) && responding == old(responding))
      ensures !old(finalizerSuppressed) && !old(finalized) && hasApp && old(appReleased) ==>
        (outcome == Raised(InvalidComObject)
         && releaseLog == old(releaseLog) + HandleSteps() && appReleased && responding == old(responding))
      ensures !old(finalizerSuppressed) && !old(finalized) && hasApp && !old(appReleased) && !old(responding) ==>
        (outcome == Reported(Com)
         && releaseLog == old(releaseLog) + HandleSteps() && !appReleased && !responding)
      ensures !old(finalizerSuppressed) && !old(finalized) && hasApp && !old(appReleased) && old(responding) ==>
        (outcome == Completed
         && releaseLog == old(releaseLog) + HandleSteps() + [ProcessKilled, AppReleased]
         && appReleased && !responding)
    {
      if finalizerSuppressed || finalized {
        return Completed;
      }
      finalized := true;
      outcome := ReleaseUnmanagedResources();
    }
  }
}
