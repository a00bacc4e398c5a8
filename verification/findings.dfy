/** `iniciar_calidad` and `finalizar_calidad` exactly as written: the UPDATE
    is committed before the automatic comment is built, and building it
    fails when the record has no chip, because `CrearComentario.id_chip` is
    a required integer. The failure is a model-validation error rather than
    an `AppError`, so no catalog entry applies and the framework answers
    with a generic server error. */
module Findings {
  import opened Wrappers
  import opened Errors
  import opened CalidadModel
  import opened CalidadService

  /** What a call can raise: an `AppError`, or the rejection of the
      automatic comment's request model. */
  datatype Fault = Raised(err: AppError) | CommentModelRejected

  datatype WrittenReply = WrittenReply(db: Db, result: Result<Calidad, Fault>)

  function Lift(r: Reply<Calidad>): WrittenReply {
    WrittenReply(r.db, match r.result case Success(c) => Success(c) case Failure(e) => Failure(Raised(e)))
  }

  /** `iniciar_calidad` as written. */
  function IniciarAsWritten(db: Db, id: int, usuario: string, now: nat): (r: WrittenReply)
    ensures CalidadPorId(db, id).Success? && CalidadPorId(db, id).value.idChip.Some? ==>
              r == Lift(IniciarCalidad(db, id, usuario, now))
  {
    match CalidadPorId(db, id)
    case Failure(e) => WrittenReply(db, Failure(Raised(e)))
    case Success(calidad) =>
      if calidad.iniOper.Some? then
        WrittenReply(db, Failure(Raised(Raise(Validation, Some("La calidad ya fue iniciada.")))))
      else if calidad.idChip.None? then
        WrittenReply(db.(records := UpdateWhereId(db.records, id, StartAt(now))), Failure(CommentModelRejected))
      else
        AutoCommentsNotBlank();
        Lift(StampAndComment(db, calidad, StartAt(now), Iniciada, usuario, IniciadaText))
  }

  /** `finalizar_calidad` as written. */
  function FinalizarAsWritten(db: Db, id: int, usuario: string, now: nat): (r: WrittenReply)
    ensures CalidadPorId(db, id).Success? && CalidadPorId(db, id).value.idChip.Some? ==>
              r == Lift(FinalizarCalidad(db, id, usuario, now))
  {
    match CalidadPorId(db, id)
    case Failure(e) => WrittenReply(db, Failure(Raised(e)))
    case Success(calidad) =>
      if calidad.iniOper.None? then
        WrittenReply(db, Failure(Raised(Raise(Validation, Some("No se puede finalizar una calidad que no ha sido iniciada.")))))
      else if calidad.finOper.Some? then
        WrittenReply(db, Failure(Raised(Raise(Validation, Some("La calidad ya está finalizada.")))))
      else if calidad.idChip.None? then
        WrittenReply(db.(records := UpdateWhereId(db.records, id, FinishAt(now))), Failure(CommentModelRejected))
      else
        AutoCommentsNotBlank();
        Lift(StampAndComment(db, calidad, FinishAt(now), Terminado, usuario, FinalizadaText))
  }

  /** As written, starting a chip-less pending review fails, yet the review
      is left started without its automatic comment, and every retry is
      refused as already started. */
  lemma IniciarAsWrittenPartialCommit(db: Db, id: int, usuario: string, now: nat, later: nat)
    requires CalidadPorId(db, id).Success?
    requires CalidadPorId(db, id).value.iniOper.None? && CalidadPorId(db, id).value.idChip.None?
    ensures var r := IniciarAsWritten(db, id, usuario, now);
            && r.result == Failure(CommentModelRejected)
            && r.db.comments == db.comments
            && CalidadPorId(r.db, id).Success? && CalidadPorId(r.db, id).value.iniOper == Some(now)
            && IniciarAsWritten(r.db, id, usuario, later)
                 == WrittenReply(r.db, Failure(Raised(Raise(Validation, Some("La calidad ya fue iniciada.")))))
  {
    CalidadPorIdAfterUpdate(db, id, StartAt(now));
  }

  /** The same for finishing: the review is left finished without its
      automatic comment. */
  lemma FinalizarAsWrittenPartialCommit(db: Db, id: int, usuario: string, now: nat, later: nat)
    requires CalidadPorId(db, id).Success?
    requires CalidadPorId(db, id).value.iniOper.Some? && CalidadPorId(db, id).value.finOper.None?
    requires CalidadPorId(db, id).value.idChip.None?
    ensures var r := FinalizarAsWritten(db, id, usuario, now);
            && r.result == Failure(CommentModelRejected)
            && r.db.comments == db.comments
            && CalidadPorId(r.db, id).Success? && CalidadPorId(r.db, id).value.finOper == Some(now)
            && FinalizarAsWritten(r.db, id, usuario, later)
                 == WrittenReply(r.db, Failure(Raised(Raise(Validation, Some("La calidad ya está finalizada.")))))
  {
    CalidadPorIdAfterUpdate(db, id, FinishAt(now));
  }

  /** A concrete witness: one pending record with id 1 and no chip. */
  const Witness := Calidad(1, None, None, None, Some("Pendiente"), None, None, None, None, None, None,
                           None, None, None, None, None, None, None, None, None, None, None, None, None, None)

  lemma PartialCommitExample()
    ensures var before := Db([Witness], []);
            var r := IniciarAsWritten(before, 1, "admin", 7);
            r.result == Failure(CommentModelRejected) && r.db != before && r.db.comments == []
  {
    var before := Db([Witness], []);
    assert CalidadPorId(before, 1) == Success(Witness);
    assert IniciarAsWritten(before, 1, "admin", 7).db.records[0].iniOper == Some(7);
  }

  /** The corrected transitions reject a chip-less record with a
      validation error and write nothing. */
  lemma CorrectedRejectsMissingChip(db: Db, id: int, usuario: string, now: nat)
    requires CalidadPorId(db, id).Success? && CalidadPorId(db, id).value.idChip.None?
    ensures var r := IniciarCalidad(db, id, usuario, now);
            r.db == db && r.result.Failure? && ClassOf(r.result.error.code) == Some(Validation)
    ensures var r := FinalizarCalidad(db, id, usuario, now);
            r.db == db && r.result.Failure? && ClassOf(r.result.error.code) == Some(Validation)
  {
  }
}
