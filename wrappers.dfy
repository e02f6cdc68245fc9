/** Optional values, results and the exceptions the modelled C# code throws. */
module Wrappers {

  /** A nullable value: `None` stands for C#'s `null`. */
  datatype Option<+T> = None | Some(value: T)

  /** C#'s null-coalescing `o ?? fallback`. */
  function Or<T>(o: Option<T>, fallback: T): T
  {
    match o
    case Some(v) => v
    case None => fallback
  }

  /** The exceptions that escape the modelled members. */
  datatype Exception =
    | ArgumentNull(paramName: string)   // ArgumentNullException
    | FileNotFound(path: string)        // FileNotFoundException
    | DuplicateKey                      // ArgumentException from Dictionary.Add
    | NoMatchingElement                 // InvalidOperationException from First/Last(predicate)
    | IndexOutOfRange                   // ArgumentOutOfRangeException from a list indexer
    | ProcessError                      // Win32Exception / InvalidOperationException from a process run
    | UriFormat(uri: string)            // UriFormatException from new Uri(path, UriKind.Absolute)

  /** A value or the exception that was thrown instead. */
  datatype Result<+T> = Ok(value: T) | Err(error: Exception)

  /** Normal completion of a void method, or the exception it threw. */
  datatype Outcome = Pass | Fail(error: Exception)
}
