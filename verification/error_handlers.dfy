/** The exception handler registered for every `AppError`: it turns the
    error into a JSON response through the catalog. */
module ErrorHandlers {
  import opened Wrappers
  import opened Errors
  import opened ErrorCatalog

  /** A JSON response: HTTP status plus the body's three keys. */
  datatype Response = Response(status: nat, code: string, message: string, detail: Option<string>)

  const UnknownCode := "unknown_error"
  const UnknownMessage := "Error inesperado."

  /** `app_error_handler(request, exc)`. */
  function AppErrorHandler(exc: AppError): (r: Response)
    ensures Lookup(exc.code).None? ==> r == Response(500, UnknownCode, UnknownMessage, exc.detail)
    ensures Lookup(exc.code).Some? ==>
              r == Response(Catalog[exc.code].httpCode, exc.code, Catalog[exc.code].message, exc.detail)
  {
    match Lookup(exc.code)
    case None => Response(500, UnknownCode, UnknownMessage, exc.detail)
    case Some(info) => Response(info.httpCode, exc.code, info.message, exc.detail)
  }

  /** The HTTP status each subclass is meant to produce, stated per class
      independently of the catalog. */
  function StatusOf(k: ErrorClass): nat {
    match k
    case NotFound => 404
    case Validation => 422
    case Database => 500
    case Unauthorized => 401
  }

  /** Every error raised through a subclass avoids the fallback: the response
      echoes its code, carries the class's status and passes the detail on. */
  lemma SubclassesAreCatalogued(k: ErrorClass, detail: Option<string>)
    ensures var r := AppErrorHandler(Raise(k, detail));
            r.status == StatusOf(k) && r.code == Code(k) && r.code != UnknownCode
            && r.detail == detail
  {
  }

  /** The response reports `unknown_error` exactly for uncatalogued codes. */
  lemma FallbackIffUncatalogued(exc: AppError)
    ensures AppErrorHandler(exc).code == UnknownCode <==> exc.code !in Catalog
  {
  }

  /** The response never depends on the exception's own message: for a
      catalogued code the catalog's message is used instead. */
  lemma MessageIgnored(exc: AppError, other: string)
    ensures AppErrorHandler(exc) == AppErrorHandler(exc.(message := other))
  {
  }

  /** A `ValidationError` reaches the client with the catalog's wording,
      not the subclass's own "Datos inválidos.". */
  lemma ValidationWordingDiffers(detail: Option<string>)
    ensures AppErrorHandler(Raise(Validation, detail)).message != Raise(Validation, detail).message
  {
  }

  /** Only four statuses can ever be produced. */
  lemma StatusRange(exc: AppError)
    ensures AppErrorHandler(exc).status in {401, 404, 422, 500}
  {
  }
}
