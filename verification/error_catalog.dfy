/** The fixed table from internal error code to HTTP status and public
    message. */
module ErrorCatalog {
  import opened Wrappers
  import opened Errors

  datatype Entry = Entry(httpCode: nat, message: string)

  const Catalog: map<string, Entry> := map[
    "not_found" := Entry(404, "El recurso solicitado no existe."),
    "validation_error" := Entry(422, "Los datos proporcionados no son válidos."),
    "database_error" := Entry(500, "Se produjo un error en la base de datos."),
    "unauthorized" := Entry(401, "No autorizado.")
  ]

  /** `ERROR_CATALOG.get(code, None)`. */
  function Lookup(code: string): (r: Option<Entry>)
    ensures r.Some? <==> code in Catalog
    ensures r.Some? ==> r.value == Catalog[code]
    ensures r.Some? <==> ClassOf(code).Some?
  {
    if code in Catalog then Some(Catalog[code]) else None
  }

  /** The catalog has exactly four codes, with these statuses. */
  lemma CatalogContents()
    ensures Catalog.Keys == {"not_found", "validation_error", "database_error", "unauthorized"}
    ensures Catalog["not_found"].httpCode == 404
    ensures Catalog["validation_error"].httpCode == 422
    ensures Catalog["database_error"].httpCode == 500
    ensures Catalog["unauthorized"].httpCode == 401
  {
  }
}
