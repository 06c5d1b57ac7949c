/** Options, the exceptions the plugin throws or catches, and how one of its calls ends. */
module Failures {

  datatype Option<+T> = None | Some(value: T)

  /** One variant per exception class the core raises, catches or lets escape. */
  datatype Exception =
    | FilenameNull            // ACadLib.Exceptions.FilenameNullException
    | FileNotFound            // System.IO.FileNotFoundException
    | Com                     // COMException: a call into Excel failed
    | InvalidComObject        // a call through a COM wrapper that was already released
    | DataSheetAlreadyExists  // ACadLib.Exceptions.DataSheetAlreadyExists
    | ArgumentNull            // System.ArgumentNullException
    | NullReference           // a member access on a null reference
    | DuplicateKey            // ArgumentException from Dictionary.Add on a repeated key
    | Acad                    // Autodesk.AutoCAD.Runtime.Exception: the host refused an operation

  /** How a call ends: normally, after catching and reporting an exception
      (a message box in the plugin), or with an exception escaping to the caller. */
  datatype Outcome = Completed | Reported(caught: Exception) | Raised(thrown: Exception)
}
