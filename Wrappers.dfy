/** Option and Result, and the failures the analyzer's Python code raises. */
module Wrappers {

  datatype Option<+T> = None | Some(value: T) {
    function GetOr(default: T): T {
      match this
      case Some(v) => v
      case None => default
    }
  }

  /** The exceptions of the analysis code that the model keeps. */
  datatype Error =
    | MissingColumn(column: string)   // pandas KeyError on a month column the table lacks
    | NoMonthToken                    // IndexError from `month.split()[0]` on a blank month
    | WrongResultShape                // KeyError/TypeError when a result record lacks a field

  datatype Result<+T> = Ok(value: T) | Err(error: Error)
}
