/** The application's exception hierarchy: `AppError` and its four
    subclasses, each of which fixes the code and the message and takes only
    an optional debugging detail. */
module Errors {
  import opened Wrappers

  /** An `AppError` instance: internal code, friendly message, debug detail. */
  datatype AppError = AppError(code: string, message: string, detail: Option<string>)

  /** The four subclasses of `AppError`. */
  datatype ErrorClass = NotFound | Validation | Database | Unauthorized

  /** The internal code each subclass passes to `AppError`. */
  function Code(k: ErrorClass): string {
    match k
    case NotFound => "not_found"
    case Validation => "validation_error"
    case Database => "database_error"
    case Unauthorized => "unauthorized"
  }

  /** The message each subclass passes to `AppError`. */
  function Message(k: ErrorClass): string {
    match k
    case NotFound => "El recurso solicitado no existe."
    case Validation => "Datos inválidos."
    case Database => "Error en la base de datos."
    case Unauthorized => "No autorizado."
  }

  /** Recovers the subclass from a code; None for codes no subclass uses. */
  function ClassOf(code: string): (k: Option<ErrorClass>)
    ensures k.Some? ==> Code(k.value) == code
  {
    if code == "not_found" then Some(NotFound)
    else if code == "validation_error" then Some(Validation)
    else if code == "database_error" then Some(Database)
    else if code == "unauthorized" then Some(Unauthorized)
    else None
  }

  /** Constructing a subclass instance, `NotFoundError(detail)` and so on;
      the detail defaults to None and is stored unchanged. */
  function Raise(k: ErrorClass, detail: Option<string> := None): (e: AppError)
    ensures ClassOf(e.code) == Some(k)
    ensures e.detail == detail
  {
    AppError(Code(k), Message(k), detail)
  }

  /** Distinct subclasses carry distinct codes, so the code identifies the
      subclass that raised the error. */
  lemma CodeIdentifiesClass(k: ErrorClass)
    ensures ClassOf(Code(k)) == Some(k)
  {
  }

  /** The fixed code of each subclass. */
  lemma SubclassCodes(detail: Option<string>)
    ensures Raise(NotFound, detail).code == "not_found"
    ensures Raise(Validation, detail).code == "validation_error"
    ensures Raise(Database, detail).code == "database_error"
    ensures Raise(Unauthorized, detail).code == "unauthorized"
    ensures Raise(NotFound).detail == None
  {
  }
}
