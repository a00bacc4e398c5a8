/** Facts that span the backend service, the error handler and the client:
    what a user sees after each call. */
module Integration {
  import opened Wrappers
  import opened Text
  import opened Errors
  import opened ErrorCatalog
  import opened ErrorHandlers
  import opened CalidadModel
  import opened CalidadService
  import opened HomeFilter
  import opened CalidadCard

  /** Only the status filter set. */
  function StatusOnly(value: string): Filters {
    Filters(value, "", "", "")
  }

  /** With only the status filter set, a record passes exactly when its
      status passes that one filter. */
  lemma StatusOnlyPasses(c: Calidad, value: string)
    ensures Passes(c, StatusOnly(value)) <==> FieldPasses(c.status, value)
  {
    assert FieldPasses(c.statusOs, "") && FieldPasses(c.noPlacas, "") && FieldPasses(c.noOrden, "");
  }

  // Each lowercase rendering below is its own lemma: evaluating several
  // literal strings in one proof is far more expensive than one at a time.
  lemma StoredIniciadaLowered() ensures Normal(Some(Iniciada)) == "iniciada" {}
  lemma StoredTerminadoLowered() ensures Normal(Some(Terminado)) == "terminado" {}
  lemma IniciadaOptionLowered() ensures Lower("Iniciada") == "iniciada" {}
  lemma TerminadoOptionLowered() ensures Lower("Terminado") == "terminado" {}
  lemma PendienteOptionLowered() ensures Lower("Pendiente") == "pendiente" {}

  lemma IniciadaUnderIniciada()
    ensures FieldPasses(Some(Iniciada), "Iniciada")
  {
    StoredIniciadaLowered();
    IniciadaOptionLowered();
    SameLengthIncludesIffEqual("iniciada", "iniciada");
  }

  lemma IniciadaNotUnderTerminado()
    ensures !FieldPasses(Some(Iniciada), "Terminado")
  {
    StoredIniciadaLowered();
    TerminadoOptionLowered();
    LongerNotIncluded("iniciada", "terminado");
  }

  lemma IniciadaNotUnderPendiente()
    ensures !FieldPasses(Some(Iniciada), "Pendiente")
  {
    StoredIniciadaLowered();
    PendienteOptionLowered();
    LongerNotIncluded("iniciada", "pendiente");
  }

  lemma TerminadoUnderTerminado()
    ensures FieldPasses(Some(Terminado), "Terminado")
  {
    StoredTerminadoLowered();
    TerminadoOptionLowered();
    SameLengthIncludesIffEqual("terminado", "terminado");
  }

  lemma TerminadoNotUnderIniciada()
    ensures !FieldPasses(Some(Terminado), "Iniciada")
  {
    StoredTerminadoLowered();
    IniciadaOptionLowered();
    NotIncludedByFirstChar("terminado", "iniciada");
  }

  lemma TerminadoNotUnderPendiente()
    ensures !FieldPasses(Some(Terminado), "Pendiente")
  {
    StoredTerminadoLowered();
    PendienteOptionLowered();
    SameLengthIncludesIffEqual("terminado", "pendiente");
    assert "terminado"[0] != "pendiente"[0];
  }

  /** The statuses the backend writes are found by the matching options of
      the status select, and by no other option. */
  lemma BackendStatusesMatchOptions(c: Calidad)
    ensures c.status == Some(Iniciada) ==>
              Passes(c, StatusOnly("Iniciada")) && !Passes(c, StatusOnly("Terminado"))
              && !Passes(c, StatusOnly("Pendiente"))
    ensures c.status == Some(Terminado) ==>
              Passes(c, StatusOnly("Terminado")) && !Passes(c, StatusOnly("Iniciada"))
              && !Passes(c, StatusOnly("Pendiente"))
  {
    StatusOnlyPasses(c, "Iniciada");
    StatusOnlyPasses(c, "Terminado");
    StatusOnlyPasses(c, "Pendiente");
    if c.status == Some(Iniciada) {
      IniciadaUnderIniciada();
      IniciadaNotUnderTerminado();
      IniciadaNotUnderPendiente();
    } else if c.status == Some(Terminado) {
      TerminadoUnderTerminado();
      TerminadoNotUnderIniciada();
      TerminadoNotUnderPendiente();
    }
  }

  /** A review just started is listed under "Iniciada" (other filters
      empty) and no longer under "Pendiente"; one just finished is listed
      under "Terminado". */
  lemma TransitionsMoveBetweenStatusTabs(db: Db, id: int, usuario: string, now: nat)
    ensures var r := IniciarCalidad(db, id, usuario, now);
            r.result.Success? ==>
              Passes(r.result.value, StatusOnly("Iniciada")) && !Passes(r.result.value, StatusOnly("Pendiente"))
    ensures var r := FinalizarCalidad(db, id, usuario, now);
            r.result.Success? ==>
              Passes(r.result.value, StatusOnly("Terminado")) && !Passes(r.result.value, StatusOnly("Iniciada"))
  {
    var a := IniciarCalidad(db, id, usuario, now);
    if a.result.Success? {
      BackendStatusesMatchOptions(a.result.value);
    }
    var b := FinalizarCalidad(db, id, usuario, now);
    if b.result.Success? {
      BackendStatusesMatchOptions(b.result.value);
    }
  }

  /** The card offers Start exactly when the backend would accept a start
      of that record, and Approve/Reject exactly when it would accept a
      finish (for a record that is found by its id and has a chip). */
  lemma ButtonsMatchBackendGuards(db: Db, c: Calidad, usuario: string, now: nat)
    requires CalidadPorId(db, c.id) == Success(c) && c.idChip.Some?
    ensures Render(c).showStart <==> IniciarCalidad(db, c.id, usuario, now).result.Success?
    ensures Render(c).showApprove <==> FinalizarCalidad(db, c.id, usuario, now).result.Success?
  {
  }

  /** The buttons follow the review phase. */
  lemma ButtonsFollowPhase(c: Calidad)
    ensures PhaseOf(c) == Pending ==> Render(c).showStart && !Render(c).showApprove
    ensures PhaseOf(c) == InProgress ==> !Render(c).showStart && Render(c).showApprove && Render(c).showReject
    ensures PhaseOf(c) == Finished ==> !Render(c).showStart && !Render(c).showApprove && !Render(c).showReject
  {
  }

  /** Approving or rejecting a review never changes whether its outcome
      line appears: the outcome is not written by the finish. */
  lemma FinishShowsOutcomeOnlyIfAlreadySet(db: Db, id: int, usuario: string, now: nat)
    requires FinalizarCalidad(db, id, usuario, now).result.Success?
    ensures var after := FinalizarCalidad(db, id, usuario, now).result.value;
            Render(after).result.Some? <==> Truthy(CalidadPorId(db, id).value.statusOs)
  {
  }

  /** The client reports success of a start or finish by comparing the
      returned status with "INICIADA" / "TERMINADO"; every successful call
      passes that comparison. */
  lemma ClientSeesSuccess(db: Db, id: int, usuario: string, now: nat)
    ensures var r := IniciarCalidad(db, id, usuario, now);
            r.result.Success? ==> r.result.value.status == Some("INICIADA")
    ensures var r := FinalizarCalidad(db, id, usuario, now);
            r.result.Success? ==> r.result.value.status == Some("TERMINADO")
  {
  }

  /** HTTP statuses of the start endpoint: 404 for an unknown id, 422 for
      a review already started. */
  lemma StartErrorsOverHttp(db: Db, id: int, usuario: string, now: nat)
    ensures var r := IniciarCalidad(db, id, usuario, now);
            CalidadPorId(db, id).Failure? ==> AppErrorHandler(r.result.error).status == 404
    ensures var r := IniciarCalidad(db, id, usuario, now);
            CalidadPorId(db, id).Success? && CalidadPorId(db, id).value.iniOper.Some? ==>
              AppErrorHandler(r.result.error) ==
                Response(422, "validation_error", "Los datos proporcionados no son válidos.",
                         Some("La calidad ya fue iniciada."))
  {
    var r := IniciarCalidad(db, id, usuario, now);
    if r.result.Failure? {
      SubclassesAreCatalogued(ClassOf(r.result.error.code).value, r.result.error.detail);
    }
  }

  /** Every error the service raises reaches the client as 404 or 422. */
  lemma ServiceErrorsOverHttp(db: Db, id: int, usuario: string, now: nat, data: CrearComentario)
    ensures var r := IniciarCalidad(db, id, usuario, now);
            r.result.Failure? ==> AppErrorHandler(r.result.error).status in {404, 422}
    ensures var r := FinalizarCalidad(db, id, usuario, now);
            r.result.Failure? ==> AppErrorHandler(r.result.error).status in {404, 422}
    ensures var r := AgregarComentario(db, data, now);
            r.result.Failure? ==> AppErrorHandler(r.result.error).status == 422
  {
    StartErrorStatus(db, id, usuario, now);
    FinishErrorStatus(db, id, usuario, now);
    CommentErrorStatus(db, data, now);
  }

  lemma StartErrorStatus(db: Db, id: int, usuario: string, now: nat)
    ensures var r := IniciarCalidad(db, id, usuario, now);
            r.result.Failure? ==> AppErrorHandler(r.result.error).status in {404, 422}
  {
    var a := IniciarCalidad(db, id, usuario, now);
    if a.result.Failure? {
      SubclassesAreCatalogued(ClassOf(a.result.error.code).value, a.result.error.detail);
    }
  }

  lemma FinishErrorStatus(db: Db, id: int, usuario: string, now: nat)
    ensures var r := FinalizarCalidad(db, id, usuario, now);
            r.result.Failure? ==> AppErrorHandler(r.result.error).status in {404, 422}
  {
    var b := FinalizarCalidad(db, id, usuario, now);
    if b.result.Failure? {
      SubclassesAreCatalogued(ClassOf(b.result.error.code).value, b.result.error.detail);
    }
  }

  lemma CommentErrorStatus(db: Db, data: CrearComentario, now: nat)
    ensures var r := AgregarComentario(db, data, now);
            r.result.Failure? ==> AppErrorHandler(r.result.error).status == 422
  {
    var c := AgregarComentario(db, data, now);
    if c.result.Failure? {
      SubclassesAreCatalogued(Validation, c.result.error.detail);
    }
  }

  /** The initial "Pendiente" filter hides every review the backend has
      started or finished. */
  lemma InitialListHidesReviewed(c: Calidad)
    requires c.status == Some(Iniciada) || c.status == Some(Terminado)
    ensures !Passes(c, Initial)
  {
    assert Initial == StatusOnly("Pendiente");
    BackendStatusesMatchOptions(c);
  }
}
