# Quality review (calidad) — Dafny model

This project models the quality-review module of a workshop management
application. After repair, a vehicle's appointment enters a *quality* phase. A
reviewer starts the review, then approves or rejects it. Every step leaves an
automatic comment on the vehicle's chip. The model covers:

- **Backend service.** Listing the vehicles in the quality phase, looking up a
  record, listing and adding comments (the next line number per chip, and
  rejection of blank text), and the two transitions `iniciar_calidad`
  (Pending to Started) and `finalizar_calidad` (Started to Finished).
- **Error hierarchy.** `AppError` and its four subclasses, the error catalog,
  and the exception handler that turns an error into an HTTP response.
- **Schema.** The mapping between SQL rows (column-to-value dictionaries) and
  the typed record, in both directions, plus the comment row mapping and the
  tracker link.
- **List page.** The four case-insensitive substring filters and the status
  select's reset rule.
- **Card.** Which buttons, times and outcome line a record's card shows.

The database is two sequences in storage order: the appointment-control
records and the comments. Each service operation is a pure function. It
returns the tables it leaves behind, together with its value or the
`AppError` it raises. `GETDATE()` is one reading `now` of an abstract clock
per operation.

Modules: `Wrappers`, `Seqs`, `Text` (helpers); `Errors`, `ErrorCatalog`,
`ErrorHandlers`; `CalidadModel`, `CalidadSchema`, `CalidadService`;
`HomeFilter`, `CalidadCard`; `Integration` (facts spanning backend and
client); `Findings` (the transitions as written).

## Model

| member | source | states |
|---|---|---|
| Text.StripEmptyIffBlank | backend/app/modules/calidad/calidad_service.py:122-123 | `len(text.strip()) == 0` holds exactly when every character is Python whitespace |
| Text.IncludesIffOccurs | frontend/calidad-hyp/src/modules/calidad/pages/Home.tsx:112-115 | the left-to-right `includes` scan answers yes exactly when the needle occurs at some position |
| Errors.ClassOf | backend/app/errors/errors.py:15-36 | a code recovered to a subclass is that subclass's code |
| Errors.Raise | backend/app/errors/errors.py:6-36 | an instance of a subclass carries that subclass's code and the given detail |
| Errors.CodeIdentifiesClass | backend/app/errors/errors.py:15-36 | the four subclasses use four distinct codes, so a code identifies its subclass |
| Errors.SubclassCodes | backend/app/errors/errors.py:15-36 | the codes are not_found, validation_error, database_error and unauthorized; detail defaults to None |
| ErrorCatalog.Lookup | backend/app/errors/error_catalog.py:3-20 | a lookup finds an entry exactly for the codes of the four error classes, and that entry is the catalog's |
| ErrorCatalog.CatalogContents | backend/app/errors/error_catalog.py:3-20 | the catalog holds exactly four codes, with statuses 404, 422, 500 and 401 |
| ErrorHandlers.AppErrorHandler | backend/app/errors/error_handlers.py:9-30 | an uncatalogued code gets 500 "unknown_error" with the generic message; a catalogued one gets the catalog's status and message; the detail is passed through in both cases |
| ErrorHandlers.SubclassesAreCatalogued | backend/app/errors/error_handlers.py:23-30 | every subclass's error is answered from the catalog with the status its class is meant to have |
| ErrorHandlers.FallbackIffUncatalogued | backend/app/errors/error_handlers.py:12-21 | the response code is unknown_error exactly when the error's code is not catalogued |
| ErrorHandlers.MessageIgnored | backend/app/errors/error_handlers.py:9-30 | the response never depends on the exception's own message |
| ErrorHandlers.ValidationWordingDiffers | backend/app/errors/error_handlers.py:23-30 | a validation error reaches the client with the catalog's wording, not the exception's |
| ErrorHandlers.StatusRange | backend/app/errors/error_handlers.py:9-30 | only statuses 401, 404, 422 and 500 are ever produced |
| CalidadSchema.AsInt | backend/app/modules/calidad/calidad_schema.py:21-45 | reading a cell of the right type gives None exactly for NULL, and otherwise its value |
| CalidadSchema.FromInt | backend/app/modules/calidad/calidad_schema.py:59-84 | writing an optional field gives a cell that reads back as the same field |
| CalidadSchema.TrackerFor | backend/app/modules/calidad/calidad_schema.py:46-50 | a tracker link exists exactly when the order number is present and non-empty, and it is built from that order number |
| CalidadSchema.DbToModel | backend/app/modules/calidad/calidad_schema.py:9-51 | a row yields a record exactly when the cells under the keys it reads have the field types |
| CalidadSchema.WrittenUnderReadKey | backend/app/modules/calidad/calidad_schema.py:22-83 | the dictionary `model_to_db` writes holds every field under the very key `db_to_model` reads it from |
| CalidadSchema.OnlyReadKeysMatter | backend/app/modules/calidad/calidad_schema.py:21-50 | two rows agreeing on the 24 keys read (a missing key reading as NULL) give the same record |
| CalidadSchema.TrackerIffOrderNumber | backend/app/modules/calidad/calidad_schema.py:46-50 | the record read from a row has no tracker link exactly when noOrden is NULL, missing or "" |
| CalidadSchema.NoTrackerKey | backend/app/modules/calidad/calidad_schema.py:59-84 | the dictionary written for a record has no `tracker_url` key |
| CalidadSchema.CellReadBack | backend/app/modules/calidad/calidad_schema.py:21-45 | each field of the record read from a row holds that row's cell under the key read for it |
| CalidadSchema.RowRoundTrip | backend/app/modules/calidad/calidad_schema.py:9-84 | writing a read record back restores the row's cell under every key `db_to_model` reads |
| CalidadSchema.ModelRoundTrip | backend/app/modules/calidad/calidad_schema.py:9-84 | reading a written record back gives the record, with its tracker link recomputed from the order number |
| CalidadSchema.ReadCells | backend/app/modules/calidad/calidad_schema.py:21-50 | any row holding a record's cells under the keys read gives back that record, whatever its other keys |
| CalidadSchema.ComentarioDbToModel | backend/app/modules/calidad/calidad_schema.py:89-98 | a comment row yields a comment exactly when its six keys hold values of the field types |
| CalidadSchema.ComentarioRow | backend/app/modules/calidad/calidad_service.py:143-159 | the INSERT stores a value, never NULL, in each of its six columns |
| CalidadSchema.ComentarioRoundTrip | backend/app/modules/calidad/calidad_service.py:143-176 | selecting back an inserted comment row gives the comment that was inserted: the INSERT's column names are the keys the comment schema reads |
| CalidadSchema.ComentarioFieldsFromKeys | backend/app/modules/calidad/calidad_schema.py:89-98 | each comment field comes from its own key (idChip, fecha, Status, cveUsuario, idLinea, Comentario) |
| CalidadService.VehiculosEnFaseCalidad | backend/app/modules/calidad/calidad_service.py:25-36 | the result holds exactly the records in the quality phase, each as often as stored, in table order |
| CalidadService.VehiculoPorId | backend/app/modules/calidad/calidad_service.py:41-55 | NotFound exactly when the vehicle has no quality-phase record; otherwise exactly its quality-phase records, each as often as stored, in table order |
| CalidadService.CalidadPorId | backend/app/modules/calidad/calidad_service.py:60-74 | NotFound exactly when no record has the id; otherwise the first record with that id |
| CalidadService.VehiculoInfo | backend/app/modules/calidad/calidad_service.py:79-95 | NotFound exactly when the vehicle has no record in the previous or quality phase; otherwise the first such record |
| CalidadService.SortComments | backend/app/modules/calidad/calidad_service.py:105 | the result is ordered by (fecha, idLinea) and is a permutation of the input |
| CalidadService.Comentarios | backend/app/modules/calidad/calidad_service.py:100-112 | exactly the chip's comments, each as often as stored, ordered by (fecha, idLinea) |
| CalidadService.MaxLinea | backend/app/modules/calidad/calidad_service.py:128-136 | None exactly when the chip has no comment; otherwise the largest line number among the chip's comments |
| CalidadService.NextLinea | backend/app/modules/calidad/calidad_service.py:128-136 | the next line number is above every line of the chip: 1 for a chip without comments, else the maximum plus one |
| CalidadService.InsertComentario | backend/app/modules/calidad/calidad_service.py:143-176 | the comment table gains exactly one comment, stamped with `now` and numbered by the next line; the records table is unchanged |
| CalidadService.AgregarComentario | backend/app/modules/calidad/calidad_service.py:117-176 | a ValidationError exactly for blank text, with nothing written; otherwise exactly one comment appended under the next line number |
| CalidadService.UpdateWhereId | backend/app/modules/calidad/calidad_service.py:190-199 | every record with the id is stamped and every other record is unchanged |
| CalidadService.CalidadPorIdAfterUpdate | backend/app/modules/calidad/calidad_service.py:213 | after the update, looking the id up returns the stamped version of the record found before |
| CalidadService.AutoCommentsNotBlank | backend/app/modules/calidad/calidad_service.py:204-210 | the automatic comment texts are never blank, so adding them cannot fail |
| CalidadService.StampAndComment | backend/app/modules/calidad/calidad_service.py:189-213 | the update, automatic comment and lookup yield the stamped record, the stamped table and one more comment |
| CalidadService.IniciarCalidad | backend/app/modules/calidad/calidad_service.py:181-213 | succeeds exactly for a found record that is not started (and has a chip); an unknown id is NotFound; any failure writes nothing; success sets the start time and INICIADA, touches only that id's records, and appends one automatic comment |
| CalidadService.FinalizarCalidad | backend/app/modules/calidad/calidad_service.py:218-254 | succeeds exactly for a found record that is started, not finished (and has a chip); the rest as for starting, with the end time and TERMINADO |
| CalidadService.AppendFreshLine | backend/app/modules/calidad/calidad_service.py:128-161 | appending a comment numbered above its chip's lines keeps (idChip, idLinea) unique |
| CalidadService.AgregarKeepsValid | backend/app/modules/calidad/calidad_service.py:117-176 | adding a comment keeps unique ids, unique lines per chip and consistent records |
| CalidadService.IniciarKeepsValid | backend/app/modules/calidad/calidad_service.py:181-213 | starting keeps every table invariant |
| CalidadService.FinalizarKeepsValid | backend/app/modules/calidad/calidad_service.py:218-254 | finishing keeps every table invariant, including that no record is finished without having been started |
| CalidadService.Lifecycle | backend/app/modules/calidad/calidad_service.py:186-240 | on valid tables, starting moves a review from Pending to InProgress, and finishing moves it from InProgress to Finished |
| CalidadService.OutcomeNeverWritten | backend/app/modules/calidad/calidad_service.py:190-240 | neither transition changes any record's review outcome (status_os) |
| CalidadService.AgregarLeavesOtherChips | backend/app/modules/calidad/calidad_service.py:117-176 | adding a comment leaves every other chip's comment list unchanged |
| Seqs.FindFirstIsFilterHead | backend/app/modules/calidad/calidad_service.py:74 | `rows[0]` of a filtered select is the head of the filtered sequence |
| HomeFilter.Filtrados | frontend/calidad-hyp/src/modules/calidad/pages/Home.tsx:102-118 | the shown list holds exactly the passing records, each as often as in the list, in list order |
| HomeFilter.SelectStatusForgetsOutcome | frontend/calidad-hyp/src/modules/calidad/pages/Home.tsx:132-137 | after choosing any status but "Terminado", the shown list no longer depends on the outcome filter set before |
| HomeFilter.SelectStatusShowsAnyOutcome | frontend/calidad-hyp/src/modules/calidad/pages/Home.tsx:132-137 | after choosing any status but "Terminado", the list holds exactly the records passing the chosen status, plates and order filters, whatever their outcome |
| HomeFilter.SelectTerminadoKeepsOutcome | frontend/calidad-hyp/src/modules/calidad/pages/Home.tsx:132-137 | choosing "Terminado" keeps the outcome filter: the list is the one filtered by "Terminado" and the previous outcome text |
| HomeFilter.FieldPassesIff | frontend/calidad-hyp/src/modules/calidad/pages/Home.tsx:103-116 | a field passes exactly when the filter is empty or the lower-cased filter occurs in the lower-cased field |
| HomeFilter.PassesIff | frontend/calidad-hyp/src/modules/calidad/pages/Home.tsx:105-117 | a record passes exactly when every non-empty filter occurs, case-insensitively, in its field |
| HomeFilter.MissingFieldPassesOnlyEmpty | frontend/calidad-hyp/src/modules/calidad/pages/Home.tsx:103 | a null field passes its test only when that filter is empty |
| HomeFilter.EmptyFiltersKeepAll | frontend/calidad-hyp/src/modules/calidad/pages/Home.tsx:111-117 | with every filter empty the whole list is shown |
| HomeFilter.InitialShowsPending | frontend/calidad-hyp/src/modules/calidad/pages/Home.tsx:25-28 | on mount the list shows exactly the records whose status contains "pendiente", ignoring case |
| CalidadCard.FormatTime | frontend/calidad-hyp/src/modules/calidad/components/CalidadCard.tsx:27-30 | "N/A" exactly when the date is missing |
| CalidadCard.Render | frontend/calidad-hyp/src/modules/calidad/components/CalidadCard.tsx:49-121 | Start exactly when not started; Approve and Reject exactly when started and not finished; the end time exactly when finished; the outcome exactly when finished with a truthy status_os, green exactly for "Aprobado"; Comments always |
| CalidadCard.ActionsExclusive | frontend/calidad-hyp/src/modules/calidad/components/CalidadCard.tsx:84-112 | Start and Approve are never offered together, and a finished record offers no action |
| Integration.BackendStatusesMatchOptions | frontend/calidad-hyp/src/modules/calidad/pages/Home.tsx:111-142 | a record with status INICIADA is listed under the "Iniciada" option only, and one with TERMINADO under "Terminado" only |
| Integration.TransitionsMoveBetweenStatusTabs | backend/app/modules/calidad/calidad_service.py:190-240 | a just-started review is listed under "Iniciada" and not under "Pendiente"; a just-finished one is listed under "Terminado" and not under "Iniciada" |
| Integration.InitialListHidesReviewed | frontend/calidad-hyp/src/modules/calidad/pages/Home.tsx:25-28 | the initial "Pendiente" filter hides every started or finished review |
| Integration.ButtonsMatchBackendGuards | frontend/calidad-hyp/src/modules/calidad/components/CalidadCard.tsx:84-112 | for a stored record with a chip, the card offers Start exactly when a start would succeed, and Approve exactly when a finish would succeed |
| Integration.ButtonsFollowPhase | frontend/calidad-hyp/src/modules/calidad/components/CalidadCard.tsx:84-112 | Pending shows only Start; InProgress shows Approve and Reject; Finished shows no action |
| Integration.FinishShowsOutcomeOnlyIfAlreadySet | backend/app/modules/calidad/calidad_router.py:86-88 | after approving or rejecting, the outcome line appears exactly when status_os was already truthy, because the finish never writes it |
| Integration.ClientSeesSuccess | frontend/calidad-hyp/src/modules/calidad/calidad.api.ts:84-102 | every successful start returns status "INICIADA" and every successful finish returns "TERMINADO", which is what the client compares against |
| Integration.StartErrorsOverHttp | backend/app/modules/calidad/calidad_service.py:183-187 | starting an unknown id answers 404; starting a started review answers 422 with the catalog's validation wording and the detail |
| Integration.ServiceErrorsOverHttp | backend/app/errors/error_handlers.py:23-30 | every error of a start or finish reaches the client as 404 or 422, and every error of adding a comment as 422 |
| Findings.IniciarAsWritten | backend/app/modules/calidad/calidad_service.py:181-213 | `iniciar_calidad` as written; it agrees with the corrected transition whenever the record is found and has a chip |
| Findings.FinalizarAsWritten | backend/app/modules/calidad/calidad_service.py:218-254 | `finalizar_calidad` as written; it agrees with the corrected transition whenever the record is found and has a chip |
| Findings.IniciarAsWrittenPartialCommit | backend/app/modules/calidad/calidad_service.py:189-210 | as written, starting a chip-less pending review fails, yet the review is left started without a comment, and every retry is refused |
| Findings.FinalizarAsWrittenPartialCommit | backend/app/modules/calidad/calidad_service.py:230-251 | as written, finishing a chip-less started review fails, yet the review is left finished without a comment, and every retry is refused |
| Findings.PartialCommitExample | backend/app/modules/calidad/calidad_service.py:189-210 | a concrete table where the as-written start fails but changes the table |
| Findings.CorrectedRejectsMissingChip | backend/app/modules/calidad/calidad_service.py:204-205 | the corrected transitions reject a chip-less record with a ValidationError and write nothing |

## Left out

- Database failures: every `except Exception` that raises `DatabaseError` is left out, because the tables here cannot fail. `DatabaseError` itself and its catalog entry are modelled.
- Concurrency: two simultaneous `agregar_comentario` calls can read the same `MAX(idLinea)`. The model runs one call at a time.
- `GETDATE()`: modelled as one abstract clock reading `now` per operation, shared by the update and the automatic comment.
- Tables without `ORDER BY` are read in storage order. `rows[0]` is therefore the first stored match.
- The router, the client store, the API wrappers and the React wiring are not modelled. Their one effect the model relies on is covered by `Integration.FinishShowsOutcomeOnlyIfAlreadySet` and `CalidadService.OutcomeNeverWritten`: the finish endpoint ignores the requested outcome.
- CalidadSchema.TrackerFor: describes the intended link, keeping only the order number it is built from. As written, `calculate_tracker_url` formats `settings.TRACKER_URL` (calidad_schema.py:19), but `Settings` (config.py:4-22) declares no such setting. Reading any row with a non-empty `noOrden` therefore raises AttributeError, which the handler does not catalogue (a 500). The model does not reproduce that failure.
- Pydantic coercion: a row whose cell has the wrong type is rejected (`DbToModel` gives None) rather than coerced.
- CalidadSchema.ModelToDb: describes the intended, widened record, not the code as written. `CalidadModel` (calidad_model.py:6-28) declares no color, tecnico, asesor or tracker_url. Pydantic drops those arguments of `db_to_model`, so `model_to_db` as written fails at `model.color` (calidad_schema.py:65). The record here has all 24 schema fields plus the tracker link. `CalidadResponse` (calidad_schema_api.py:6-30) has color, tecnico and asesor, but no tracker_url. `DbToModel`, `RowRoundTrip` and `ModelRoundTrip` are stated over this widened record too.
- CalidadSchema.ModelToDb: the model proves that every key `db_to_model` reads is written and that `tracker_url` is not. It does not state that no further key is written; the dictionary literal, transcribed key by key, is the only statement of that.
- Column-name case: the UPDATE statements spell two columns `Status` and `fecha_Hora_ini_Oper`, while `db_to_model` reads them as `status` and `fecha_hora_ini_oper`. The model assumes the table declares the columns as the schema spells them. The UPDATE's spelling works because SQL Server identifiers are case-insensitive. So the transitions write the same fields the schema reads. A table declared with the UPDATE's spelling would make Python's case-sensitive `row.get` read None; that case is not modelled.
- Text.Lower: lower-cases ASCII letters only. JavaScript's `toLowerCase` also folds non-ASCII letters; the model has no Unicode case table.
- CalidadCard.FormatTime: states only when "N/A" is shown. The "HH:mm A" rendering of a date is left out, because it depends on the time zone and dayjs.
- CalidadCard.Render: covers the times, outcome and buttons. The other card text (colour, vehicle, plates, advisor, technician, status) is left out.
- Modal, comments panel, alerts and navigation components are left out: they show data and hold no rule of the review.

## Findings

| source | as written | input that shows it | evidently intended | confidence | as-written member | corrected member |
|---|---|---|---|---|---|---|
| backend/app/modules/calidad/calidad_service.py:189-210 | `iniciar_calidad` commits the UPDATE, then builds `CrearComentario(id_chip=calidad.id_chip)`. `id_chip` is a required int, so for a record without a chip this raises a validation error that is not an `AppError` (a 500). The review stays started without its comment, and every retry is refused as already started | a pending record with id 1 and idChip NULL (`Findings.Witness`), started by "admin" | reject a chip-less record before writing anything | medium, not executed | Findings.IniciarAsWritten, Findings.IniciarAsWrittenPartialCommit, Findings.PartialCommitExample | CalidadService.IniciarCalidad, Findings.CorrectedRejectsMissingChip |
| backend/app/modules/calidad/calidad_service.py:230-251 | `finalizar_calidad` commits the UPDATE, then fails in the same way when building the comment for a chip-less record. The review stays finished without its comment, and every retry is refused as already finished | a started, unfinished record with idChip NULL | reject a chip-less record before writing anything | medium, not executed | Findings.FinalizarAsWritten, Findings.FinalizarAsWrittenPartialCommit | CalidadService.FinalizarCalidad, Findings.CorrectedRejectsMissingChip |
