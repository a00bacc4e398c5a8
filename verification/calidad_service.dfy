/** The quality-review service over two abstract tables: the appointment
    control table (one record per vehicle and phase) and its comment table.
    Every operation returns the tables it leaves behind together with its
    return value or the `AppError` it raises. */
module CalidadService {
  import opened Wrappers
  import opened Seqs
  import opened Text
  import opened Errors
  import opened CalidadModel

  /** The configured phase identifiers (`CALIDAD_FASE_ID`, `PREVIUS_FASE_ID`). */
  datatype Settings = Settings(calidadFaseId: int, previusFaseId: int)

  /** The two tables, in storage order. */
  datatype Db = Db(records: seq<Calidad>, comments: seq<Comentario>)

  /** The tables after a call, with its value or the error it raised. */
  datatype Reply<T> = Reply(db: Db, result: Result<T, AppError>)

  const Iniciada := "INICIADA"
  const Terminado := "TERMINADO"
  const IniciadaText := "Calidad iniciada."
  const FinalizadaText := "Calidad finalizada."

  // ---------------------------------------------------------------------
  // Queries
  // ---------------------------------------------------------------------

  /** `WHERE idTecnicoAsi = ?`: SQL NULL equals nothing. */
  predicate InPhase(c: Calidad, fase: int) {
    c.idFase == Some(fase)
  }

  /** `get_vehiculos_en_fase_calidad`: the records in the quality phase. */
  function VehiculosEnFaseCalidad(db: Db, cfg: Settings): (r: seq<Calidad>)
    ensures forall c :: c in r <==> c in db.records && InPhase(c, cfg.calidadFaseId)
    ensures forall c :: InPhase(c, cfg.calidadFaseId) ==> multiset(r)[c] == multiset(db.records)[c]
    ensures IsSubsequence(r, db.records)
  {
    Filter((c: Calidad) => InPhase(c, cfg.calidadFaseId), db.records)
  }

  /** `get_vehiculo_por_id`: the quality-phase records of one vehicle;
      NotFound when there are none. */
  function VehiculoPorId(db: Db, cfg: Settings, idHd: int): (r: Result<seq<Calidad>, AppError>)
    ensures r.Failure? <==> forall c :: c in db.records ==> !(c.idHd == Some(idHd) && InPhase(c, cfg.calidadFaseId))
    ensures r.Failure? ==> ClassOf(r.error.code) == Some(NotFound)
    ensures r.Success? ==> forall c :: c in r.value <==> c in db.records && c.idHd == Some(idHd) && InPhase(c, cfg.calidadFaseId)
    ensures r.Success? ==>
              forall c: Calidad :: c.idHd == Some(idHd) && InPhase(c, cfg.calidadFaseId) ==> multiset(r.value)[c] == multiset(db.records)[c]
    ensures r.Success? ==> IsSubsequence(r.value, db.records)
  {
    var rows := Filter((c: Calidad) => c.idHd == Some(idHd) && InPhase(c, cfg.calidadFaseId), db.records);
    if |rows| == 0 then
      Failure(Raise(NotFound, Some("id_hd=" + IntToString(idHd) + " no está en fase de calidad")))
    else
      assert rows[0] in rows;
      Success(rows)
  }

  /** `get_calidad_por_id`: the first record with primary key `id`;
      NotFound when there is none. */
  function CalidadPorId(db: Db, id: int): (r: Result<Calidad, AppError>)
    ensures r.Failure? <==> forall c :: c in db.records ==> c.id != id
    ensures r.Failure? ==> ClassOf(r.error.code) == Some(NotFound)
    ensures r.Success? ==> r.value in db.records && r.value.id == id
    ensures r.Success? ==>
              exists k :: 0 <= k < |db.records| && db.records[k] == r.value
                && forall j :: 0 <= j < k ==> db.records[j].id != id
  {
    match FindFirst((c: Calidad) => c.id == id, db.records)
    case None => Failure(Raise(NotFound, Some("id=" + IntToString(id))))
    case Some(c) => Success(c)
  }

  /** `get_vehiculo_info`: the first record of the vehicle in the previous
      or the quality phase; NotFound when there is none. */
  function VehiculoInfo(db: Db, cfg: Settings, idHd: int): (r: Result<Calidad, AppError>)
    ensures r.Failure? <==>
              forall c :: c in db.records ==>
                !(c.idHd == Some(idHd) && (InPhase(c, cfg.previusFaseId) || InPhase(c, cfg.calidadFaseId)))
    ensures r.Failure? ==> ClassOf(r.error.code) == Some(NotFound)
    ensures r.Success? ==> r.value in db.records && r.value.idHd == Some(idHd)
    ensures r.Success? ==> InPhase(r.value, cfg.previusFaseId) || InPhase(r.value, cfg.calidadFaseId)
    ensures r.Success? ==>
              exists k :: 0 <= k < |db.records| && db.records[k] == r.value
                && forall j :: 0 <= j < k ==>
                     !(db.records[j].idHd == Some(idHd)
                       && (InPhase(db.records[j], cfg.previusFaseId) || InPhase(db.records[j], cfg.calidadFaseId)))
  {
    var p := (c: Calidad) => c.idHd == Some(idHd) && (InPhase(c, cfg.previusFaseId) || InPhase(c, cfg.calidadFaseId));
    match FindFirst(p, db.records)
    case None => Failure(Raise(NotFound, Some("id_hd=" + IntToString(idHd) + " no está en fase previa")))
    case Some(c) => Success(c)
  }

  // ---------------------------------------------------------------------
  // Comments
  // ---------------------------------------------------------------------

  /** `ORDER BY fecha ASC, idLinea ASC`: `a` may precede `b`. */
  predicate NotAfter(a: Comentario, b: Comentario) {
    a.fecha < b.fecha || (a.fecha == b.fecha && a.idLinea <= b.idLinea)
  }

  predicate Ordered(s: seq<Comentario>) {
    forall i, j :: 0 <= i < j < |s| ==> NotAfter(s[i], s[j])
  }

  function InsertOrdered(c: Comentario, s: seq<Comentario>): (r: seq<Comentario>)
    requires Ordered(s)
    ensures Ordered(r)
    ensures multiset(r) == multiset(s) + multiset{c}
    decreases |s|
  {
    if |s| == 0 then [c]
    else if NotAfter(c, s[0]) then [c] + s
    else
      var rest := InsertOrdered(c, s[1..]);
      InsertBehindHead(c, s, rest);
      [s[0]] + rest
  }

  /** The recursive case of `InsertOrdered`: `c` goes behind the head. */
  lemma InsertBehindHead(c: Comentario, s: seq<Comentario>, rest: seq<Comentario>)
    requires Ordered(s) && |s| > 0 && !NotAfter(c, s[0])
    requires Ordered(rest) && multiset(rest) == multiset(s[1..]) + multiset{c}
    ensures Ordered([s[0]] + rest)
    ensures multiset([s[0]] + rest) == multiset(s) + multiset{c}
  {
    assert s == [s[0]] + s[1..];
    forall y | y in rest ensures NotAfter(s[0], y) {
      assert y in multiset(rest);
      if y != c {
        var k :| 1 <= k < |s| && s[k] == y;
      }
    }
    PrependOrdered(s[0], rest);
  }

  lemma PrependOrdered(x: Comentario, s: seq<Comentario>)
    requires Ordered(s)
    requires forall y :: y in s ==> NotAfter(x, y)
    ensures Ordered([x] + s)
  {
    var r := [x] + s;
    forall i, j | 0 <= i < j < |r| ensures NotAfter(r[i], r[j]) {
      assert r[j] == s[j - 1];
      if i > 0 {
        assert r[i] == s[i - 1];
      }
    }
  }

  /** Sorts comments into `(fecha, idLinea)` order. */
  function SortComments(s: seq<Comentario>): (r: seq<Comentario>)
    ensures Ordered(r)
    ensures multiset(r) == multiset(s)
    decreases |s|
  {
    if |s| == 0 then []
    else
      assert s == [s[0]] + s[1..];
      InsertOrdered(s[0], SortComments(s[1..]))
  }

  /** `WHERE idChip = ?` on the comment table. */
  function OfChip(chip: int): Comentario -> bool {
    (x: Comentario) => x.idChip == chip
  }

  /** `get_comentarios`: the chip's comments, in `(fecha, idLinea)` order. */
  function Comentarios(db: Db, chip: int): (r: seq<Comentario>)
    ensures Ordered(r)
    ensures forall x :: x in r <==> x in db.comments && x.idChip == chip
    ensures multiset(r) == multiset(Filter(OfChip(chip), db.comments))
  {
    var mine := Filter(OfChip(chip), db.comments);
    var r := SortComments(mine);
    assert forall x :: x in r <==> x in mine by {
      forall x ensures x in r <==> x in mine {
        assert x in r <==> x in multiset(r);
      }
    }
    r
  }

  /** `MAX(idLinea)` over the chip's comments; None when it has none. */
  function MaxLinea(cs: seq<Comentario>, chip: int): (m: Option<int>)
    ensures m.None? <==> forall x :: x in cs ==> x.idChip != chip
    ensures m.Some? ==> forall x :: x in cs && x.idChip == chip ==> x.idLinea <= m.value
    ensures m.Some? ==> exists x :: x in cs && x.idChip == chip && x.idLinea == m.value
    decreases |cs|
  {
    if |cs| == 0 then None
    else
      assert forall x :: x in cs <==> x == cs[0] || x in cs[1..];
      var rest := MaxLinea(cs[1..], chip);
      if cs[0].idChip != chip then rest
      else if rest.None? || rest.value < cs[0].idLinea then Some(cs[0].idLinea)
      else rest
  }

  /** `ISNULL(MAX(idLinea), 0) + 1`: above every line number of the chip;
      1 for a chip without comments, otherwise one past the largest. */
  function NextLinea(cs: seq<Comentario>, chip: int): (n: int)
    ensures forall x :: x in cs && x.idChip == chip ==> x.idLinea < n
    ensures (forall x :: x in cs ==> x.idChip != chip) ==> n == 1
    ensures (exists x :: x in cs && x.idChip == chip) ==>
              exists x :: x in cs && x.idChip == chip && x.idLinea == n - 1
  {
    match MaxLinea(cs, chip)
    case None => 1
    case Some(m) => m + 1
  }

  /** Python's `not text or len(text.strip()) == 0`. */
  predicate EmptyComment(text: string) {
    |text| == 0 || |Strip(text)| == 0
  }

  /** INSERT of the comment under the next line number, then the SELECT by
      `(idChip, idLinea)` that reads it back (first row). */
  function InsertComentario(db: Db, data: CrearComentario, now: nat): (r: (Db, Comentario))
    ensures r.0.records == db.records
    ensures r.0.comments == db.comments + [r.1]
    ensures r.1 == Comentario(data.idChip, now, data.status, data.cveUsuario, NextLinea(db.comments, data.idChip), data.comentario)
  {
    var line := NextLinea(db.comments, data.idChip);
    var c := Comentario(data.idChip, now, data.status, data.cveUsuario, line, data.comentario);
    var comments := db.comments + [c];
    var back := Filter((x: Comentario) => x.idChip == data.idChip && x.idLinea == line, comments);
    assert c == comments[|comments| - 1];
    assert c in back;
    assert forall x :: x in back ==> x == c by {
      forall x | x in back ensures x == c {
        assert x in db.comments || x == c;
      }
    }
    (db.(comments := comments), back[0])
  }

  /** `agregar_comentario`: rejects blank text; otherwise stores the comment
      under the chip's next line number and returns the stored row. */
  function AgregarComentario(db: Db, data: CrearComentario, now: nat): (r: Reply<Comentario>)
    ensures r.result.Failure? <==> IsBlank(data.comentario)
    ensures r.result.Failure? ==> r.db == db && ClassOf(r.result.error.code) == Some(Validation)
    ensures r.result.Success? ==> r.db.records == db.records && r.db.comments == db.comments + [r.result.value]
    ensures r.result.Success? ==>
              var c := r.result.value;
              && c == Comentario(data.idChip, now, data.status, data.cveUsuario, c.idLinea, data.comentario)
              && (forall x :: x in db.comments && x.idChip == data.idChip ==> x.idLinea < c.idLinea)
              && ((forall x :: x in db.comments ==> x.idChip != data.idChip) ==> c.idLinea == 1)
              && ((exists x :: x in db.comments && x.idChip == data.idChip) ==>
                    exists x :: x in db.comments && x.idChip == data.idChip && x.idLinea == c.idLinea - 1)
    ensures r.result.Success? ==> r.result.value.idLinea == NextLinea(db.comments, data.idChip)
  {
    StripEmptyIffBlank(data.comentario);
    if EmptyComment(data.comentario) then
      Reply(db, Failure(Raise(Validation, Some("El comentario no puede estar vacío"))))
    else
      var (db2, c) := InsertComentario(db, data, now);
      Reply(db2, Success(c))
  }

  // ---------------------------------------------------------------------
  // Transitions
  // ---------------------------------------------------------------------

  /** The two UPDATE statements of the review lifecycle. */
  datatype Stamp = StartAt(at: nat) | FinishAt(at: nat)

  /** `SET fecha_Hora_ini_Oper = GETDATE(), Status = 'INICIADA'` and
      `SET Fecha_Hora_Fin_Oper = GETDATE(), Status = 'TERMINADO'`. */
  function Apply(s: Stamp, c: Calidad): Calidad {
    match s
    case StartAt(t) => c.(iniOper := Some(t), status := Some(Iniciada))
    case FinishAt(t) => c.(finOper := Some(t), status := Some(Terminado))
  }

  /** The records table after an UPDATE ... WHERE id = `id` setting the
      columns of `s`, stated element by element. */
  ghost predicate UpdatedWhere(before: seq<Calidad>, after: seq<Calidad>, id: int, s: Stamp) {
    |after| == |before|
    && forall i :: 0 <= i < |before| ==> after[i] == if before[i].id == id then Apply(s, before[i]) else before[i]
  }

  /** `UPDATE ... WHERE id = ?`: every record with that key is stamped. */
  function UpdateWhereId(rs: seq<Calidad>, id: int, s: Stamp): (r: seq<Calidad>)
    ensures UpdatedWhere(rs, r, id, s)
    decreases |rs|
  {
    if |rs| == 0 then []
    else [if rs[0].id == id then Apply(s, rs[0]) else rs[0]] + UpdateWhereId(rs[1..], id, s)
  }

  /** After the update, `get_calidad_por_id` returns the stamped version of
      the record it returned before. */
  lemma {:induction false} CalidadPorIdAfterUpdate(db: Db, id: int, s: Stamp)
    requires CalidadPorId(db, id).Success?
    ensures CalidadPorId(db.(records := UpdateWhereId(db.records, id, s)), id)
              == Success(Apply(s, CalidadPorId(db, id).value))
  {
    FindFirstAfterUpdate(db.records, id, s);
  }

  lemma {:induction false} FindFirstAfterUpdate(rs: seq<Calidad>, id: int, s: Stamp)
    requires FindFirst((c: Calidad) => c.id == id, rs).Some?
    ensures FindFirst((c: Calidad) => c.id == id, UpdateWhereId(rs, id, s))
              == Some(Apply(s, FindFirst((c: Calidad) => c.id == id, rs).value))
    decreases |rs|
  {
    var u := UpdateWhereId(rs, id, s);
    assert u[0] == if rs[0].id == id then Apply(s, rs[0]) else rs[0];
    if rs[0].id != id {
      assert u[1..] == UpdateWhereId(rs[1..], id, s);
      FindFirstAfterUpdate(rs[1..], id, s);
    }
  }

  const MissingChip := "La calidad no tiene idChip."

  /** The automatic comments are never blank, so `agregar_comentario`
      accepts them. */
  lemma AutoCommentsNotBlank()
    ensures !IsBlank(IniciadaText) && !IsBlank(FinalizadaText)
  {
    assert !IsSpace(IniciadaText[0]);
    assert !IsSpace(FinalizadaText[0]);
  }

  /** Stamps the record, adds the automatic comment through
      `agregar_comentario` and reads the record back: the common tail of
      both transitions. */
  function StampAndComment(db: Db, calidad: Calidad, s: Stamp, status: string, usuario: string, text: string)
    : (r: Reply<Calidad>)
    requires calidad.idChip.Some? && !IsBlank(text)
    requires CalidadPorId(db, calidad.id) == Success(calidad)
    ensures r.result == Success(Apply(s, calidad))
    ensures r.db.records == UpdateWhereId(db.records, calidad.id, s)
    ensures r.db.comments == db.comments
              + [Comentario(calidad.idChip.value, s.at, status, usuario, NextLinea(db.comments, calidad.idChip.value), text)]
  {
    var updated := db.(records := UpdateWhereId(db.records, calidad.id, s));
    CalidadPorIdAfterUpdate(db, calidad.id, s);
    var db2 := AgregarComentario(updated, CrearComentario(calidad.idChip.value, status, usuario, text), s.at).db;
    Reply(db2, CalidadPorId(db2, calidad.id))
  }

  /** `iniciar_calidad`: Pending to Started. A record without a chip is
      rejected before anything is written. */
  function IniciarCalidad(db: Db, id: int, usuario: string, now: nat): (r: Reply<Calidad>)
    ensures r.result.Success? <==>
              CalidadPorId(db, id).Success? && CalidadPorId(db, id).value.iniOper.None?
              && CalidadPorId(db, id).value.idChip.Some?
    ensures CalidadPorId(db, id).Failure? ==> r.result == CalidadPorId(db, id)
    ensures r.result.Failure? ==> r.db == db
    ensures r.result.Failure? && CalidadPorId(db, id).Success? ==> ClassOf(r.result.error.code) == Some(Validation)
    ensures r.result.Success? ==>
              var c := CalidadPorId(db, id).value;
              && r.result.value == c.(iniOper := Some(now), status := Some(Iniciada))
              && UpdatedWhere(db.records, r.db.records, id, StartAt(now))
              && r.db.comments == db.comments
                   + [Comentario(c.idChip.value, now, Iniciada, usuario, NextLinea(db.comments, c.idChip.value), IniciadaText)]
  {
    match CalidadPorId(db, id)
    case Failure(e) => Reply(db, Failure(e))
    case Success(calidad) =>
      if calidad.iniOper.Some? then
        Reply(db, Failure(Raise(Validation, Some("La calidad ya fue iniciada."))))
      else if calidad.idChip.None? then
        Reply(db, Failure(Raise(Validation, Some(MissingChip))))
      else
        AutoCommentsNotBlank();
        StampAndComment(db, calidad, StartAt(now), Iniciada, usuario, IniciadaText)
  }

  /** `finalizar_calidad`: Started to Finished. A record without a chip is
      rejected before anything is written. The review outcome is never
      written. */
  function FinalizarCalidad(db: Db, id: int, usuario: string, now: nat): (r: Reply<Calidad>)
    ensures r.result.Success? <==>
              CalidadPorId(db, id).Success? && CalidadPorId(db, id).value.iniOper.Some?
              && CalidadPorId(db, id).value.finOper.None? && CalidadPorId(db, id).value.idChip.Some?
    ensures CalidadPorId(db, id).Failure? ==> r.result == CalidadPorId(db, id)
    ensures r.result.Failure? ==> r.db == db
    ensures r.result.Failure? && CalidadPorId(db, id).Success? ==> ClassOf(r.result.error.code) == Some(Validation)
    ensures r.result.Success? ==>
              var c := CalidadPorId(db, id).value;
              && r.result.value == c.(finOper := Some(now), status := Some(Terminado))
              && UpdatedWhere(db.records, r.db.records, id, FinishAt(now))
              && r.db.comments == db.comments
                   + [Comentario(c.idChip.value, now, Terminado, usuario, NextLinea(db.comments, c.idChip.value), FinalizadaText)]
  {
    match CalidadPorId(db, id)
    case Failure(e) => Reply(db, Failure(e))
    case Success(calidad) =>
      if calidad.iniOper.None? then
        Reply(db, Failure(Raise(Validation, Some("No se puede finalizar una calidad que no ha sido iniciada."))))
      else if calidad.finOper.Some? then
        Reply(db, Failure(Raise(Validation, Some("La calidad ya está finalizada."))))
      else if calidad.idChip.None? then
        Reply(db, Failure(Raise(Validation, Some(MissingChip))))
      else
        AutoCommentsNotBlank();
        StampAndComment(db, calidad, FinishAt(now), Terminado, usuario, FinalizadaText)
  }

  // ---------------------------------------------------------------------
  // Invariants and frames
  // ---------------------------------------------------------------------

  /** `(idChip, idLinea)` identifies a comment. */
  predicate LinesUnique(cs: seq<Comentario>) {
    forall i, j :: 0 <= i < j < |cs| && cs[i].idChip == cs[j].idChip ==> cs[i].idLinea != cs[j].idLinea
  }

  /** `id` is the primary key of the records table. */
  predicate IdsUnique(rs: seq<Calidad>) {
    forall i, j :: 0 <= i < j < |rs| ==> rs[i].id != rs[j].id
  }

  /** A review is never finished without having been started. */
  predicate Consistent(c: Calidad) {
    c.finOper.Some? ==> c.iniOper.Some?
  }

  /** The table invariants the service keeps. */
  predicate Valid(db: Db) {
    && LinesUnique(db.comments)
    && IdsUnique(db.records)
    && forall i :: 0 <= i < |db.records| ==> Consistent(db.records[i])
  }

  lemma AppendFreshLine(cs: seq<Comentario>, c: Comentario)
    requires LinesUnique(cs)
    requires forall x :: x in cs && x.idChip == c.idChip ==> x.idLinea < c.idLinea
    ensures LinesUnique(cs + [c])
  {
    var t := cs + [c];
    forall i, j | 0 <= i < j < |t| && t[i].idChip == t[j].idChip
      ensures t[i].idLinea != t[j].idLinea
    {
      if j == |cs| {
        assert t[i] in cs;
      } else {
        assert t[i] == cs[i] && t[j] == cs[j];
      }
    }
  }

  /** Adding a comment keeps line numbers unique per chip. */
  lemma AgregarKeepsValid(db: Db, data: CrearComentario, now: nat)
    requires Valid(db)
    ensures Valid(AgregarComentario(db, data, now).db)
  {
    var r := AgregarComentario(db, data, now);
    if r.result.Success? {
      AppendFreshLine(db.comments, r.result.value);
    }
  }

  /** Starting a review keeps every invariant. */
  lemma IniciarKeepsValid(db: Db, id: int, usuario: string, now: nat)
    requires Valid(db)
    ensures Valid(IniciarCalidad(db, id, usuario, now).db)
  {
    var r := IniciarCalidad(db, id, usuario, now);
    if r.result.Success? {
      StampKeepsValid(db, r.db, id, StartAt(now), r.db.comments[|db.comments|]);
    }
  }

  /** Finishing a review keeps every invariant; with unique ids the only
      stamped record is the one whose start was checked. */
  lemma FinalizarKeepsValid(db: Db, id: int, usuario: string, now: nat)
    requires Valid(db)
    ensures Valid(FinalizarCalidad(db, id, usuario, now).db)
  {
    var r := FinalizarCalidad(db, id, usuario, now);
    if r.result.Success? {
      OnlyRecordWithId(db, id);
      StampKeepsValid(db, r.db, id, FinishAt(now), r.db.comments[|db.comments|]);
    }
  }

  /** A transition's writes, an UPDATE by id plus one comment under a fresh
      line number, keep the invariants when the stamped records stay
      consistent. */
  lemma StampKeepsValid(db: Db, after: Db, id: int, s: Stamp, c: Comentario)
    requires Valid(db)
    requires forall i :: 0 <= i < |db.records| && db.records[i].id == id ==> Consistent(Apply(s, db.records[i]))
    requires UpdatedWhere(db.records, after.records, id, s)
    requires after.comments == db.comments + [c]
    requires forall x :: x in db.comments && x.idChip == c.idChip ==> x.idLinea < c.idLinea
    ensures Valid(after)
  {
    AppendFreshLine(db.comments, c);
    StampKeepsRecordsValid(db.records, after.records, id, s);
  }

  /** An UPDATE by id keeps the keys unique, and keeps every record
      consistent when the stamped ones stay consistent. */
  lemma StampKeepsRecordsValid(before: seq<Calidad>, after: seq<Calidad>, id: int, s: Stamp)
    requires IdsUnique(before) && forall i :: 0 <= i < |before| ==> Consistent(before[i])
    requires forall i :: 0 <= i < |before| && before[i].id == id ==> Consistent(Apply(s, before[i]))
    requires UpdatedWhere(before, after, id, s)
    ensures IdsUnique(after) && forall i :: 0 <= i < |after| ==> Consistent(after[i])
  {
    forall i, j | 0 <= i < j < |after| ensures after[i].id != after[j].id {
      assert after[i].id == before[i].id && after[j].id == before[j].id;
    }
  }

  /** With unique ids, `get_calidad_por_id` found the only record with
      that key. */
  lemma OnlyRecordWithId(db: Db, id: int)
    requires IdsUnique(db.records) && CalidadPorId(db, id).Success?
    ensures forall i :: 0 <= i < |db.records| && db.records[i].id == id ==> db.records[i] == CalidadPorId(db, id).value
  {
    var k :| 0 <= k < |db.records| && db.records[k] == CalidadPorId(db, id).value;
  }

  /** The three phases a review passes through. */
  datatype Phase = Pending | InProgress | Finished

  function PhaseOf(c: Calidad): Phase {
    if c.iniOper.None? then Pending
    else if c.finOper.None? then InProgress
    else Finished
  }

  /** On consistent tables, starting moves a review from Pending to
      InProgress and finishing moves it from InProgress to Finished. */
  lemma Lifecycle(db: Db, id: int, usuario: string, now: nat)
    requires Valid(db)
    ensures var r := IniciarCalidad(db, id, usuario, now);
            r.result.Success? ==>
              PhaseOf(CalidadPorId(db, id).value) == Pending && PhaseOf(r.result.value) == InProgress
    ensures var r := FinalizarCalidad(db, id, usuario, now);
            r.result.Success? ==>
              PhaseOf(CalidadPorId(db, id).value) == InProgress && PhaseOf(r.result.value) == Finished
  {
    var found := CalidadPorId(db, id);
    if found.Success? {
      var k :| 0 <= k < |db.records| && db.records[k] == found.value;
      assert Consistent(db.records[k]);
    }
  }

  /** Neither transition writes the review outcome of any record. */
  lemma OutcomeNeverWritten(db: Db, id: int, usuario: string, now: nat)
    ensures var r := IniciarCalidad(db, id, usuario, now);
            |r.db.records| == |db.records|
            && forall i :: 0 <= i < |db.records| ==> r.db.records[i].statusOs == db.records[i].statusOs
    ensures var r := FinalizarCalidad(db, id, usuario, now);
            |r.db.records| == |db.records|
            && forall i :: 0 <= i < |db.records| ==> r.db.records[i].statusOs == db.records[i].statusOs
  {
    StartKeepsOutcome(db, id, usuario, now);
    FinishKeepsOutcome(db, id, usuario, now);
  }

  lemma StartKeepsOutcome(db: Db, id: int, usuario: string, now: nat)
    ensures var r := IniciarCalidad(db, id, usuario, now);
            |r.db.records| == |db.records|
            && forall i :: 0 <= i < |db.records| ==> r.db.records[i].statusOs == db.records[i].statusOs
  {
    var r := IniciarCalidad(db, id, usuario, now);
    if r.result.Success? {
      assert UpdatedWhere(db.records, r.db.records, id, StartAt(now));
    }
  }

  lemma FinishKeepsOutcome(db: Db, id: int, usuario: string, now: nat)
    ensures var r := FinalizarCalidad(db, id, usuario, now);
            |r.db.records| == |db.records|
            && forall i :: 0 <= i < |db.records| ==> r.db.records[i].statusOs == db.records[i].statusOs
  {
    var r := FinalizarCalidad(db, id, usuario, now);
    if r.result.Success? {
      assert UpdatedWhere(db.records, r.db.records, id, FinishAt(now));
    }
  }

  /** Adding a comment leaves every other chip's comment list as it was. */
  lemma AgregarLeavesOtherChips(db: Db, data: CrearComentario, now: nat, chip: int)
    requires chip != data.idChip
    ensures Comentarios(AgregarComentario(db, data, now).db, chip) == Comentarios(db, chip)
  {
    var r := AgregarComentario(db, data, now);
    if r.result.Success? {
      var c := r.result.value;
      assert r.db.comments == db.comments + [c];
      FilterConcat(OfChip(chip), db.comments, [c]);
      assert !OfChip(chip)(c);
      assert Filter(OfChip(chip), [c]) == [];
      assert Filter(OfChip(chip), r.db.comments) == Filter(OfChip(chip), db.comments);
    }
  }

}
