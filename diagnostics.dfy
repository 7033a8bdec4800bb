/** Outcomes of the generator: every ICHECK / LOG(FATAL) of the code generator
    aborts the whole pass, so each operation either succeeds with a value or
    stops with one of the four fatal error kinds. */
module Diagnostics {

  /** Kinds of fatal error the generator can stop with. */
  datatype Error =
    | UnsupportedType      // a data type with no C spelling
    | MalformedCall        // a builtin call whose arguments break its contract
    | StructuralViolation  // a module function that is not a PrimFunc
    | ConfigConflict       // system-lib requested for a runtime other than "c"

  datatype Result<+T> = Success(value: T) | Failure(error: Error)

  datatype Option<+T> = None | Some(value: T) {
    /** `value_or` of the optional attribute lookups. */
    function GetOr(default: T): T {
      match this
      case Some(v) => v
      case None => default
    }
  }
}
