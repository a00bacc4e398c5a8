/** Conversion between SQL rows (column name to value dictionaries) and the
    typed records of the quality module. */
module CalidadSchema {
  import opened Wrappers
  import opened CalidadModel

  /** A SQL cell: NULL, an integer, a string or a datetime. */
  datatype Value = Null | IntV(i: int) | StrV(s: string) | TimeV(t: nat)

  /** The fields of a quality record that the schema maps to columns. */
  datatype Field =
    | Id
    | IdChip
    | IdHd
    | Fecha
    | Status
    | Color
    | Vehiculo
    | NoOrden
    | NoPlacas
    | IdTecnico
    | IdAsesor
    | FechaHoraIniOper
    | FechaHoraFinOper
    | StatusOs
    | Kilometraje
    | ContactoNombre
    | ContactoTelefono
    | TmpReal
    | TmpOriginal
    | Servicio
    | ServicioCapturado
    | IdFase
    | Tecnico
    | Asesor

  /** The key `db_to_model` passes to `row.get` for each field. */
  function ReadKey(f: Field): string {
    match f
    case Id => "id"
    case IdChip => "idChip"
    case IdHd => "id_hd"
    case Fecha => "fecha"
    case Status => "status"
    case Color => "color"
    case Vehiculo => "vehiculo"
    case NoOrden => "noOrden"
    case NoPlacas => "noPlacas"
    case IdTecnico => "idTecnico"
    case IdAsesor => "idAsesor"
    case FechaHoraIniOper => "fecha_hora_ini_oper"
    case FechaHoraFinOper => "fecha_hora_fin_oper"
    case StatusOs => "status_os"
    case Kilometraje => "kilometraje"
    case ContactoNombre => "contactoNombre"
    case ContactoTelefono => "contactoTelefono"
    case TmpReal => "tmp_Real"
    case TmpOriginal => "tmp_original"
    case Servicio => "servicio"
    case ServicioCapturado => "servicioCapturado"
    case IdFase => "idTecnicoAsi"
    case Tecnico => "tecnico"
    case Asesor => "asesor"
  }

  /** A row as the driver returns it: column name to cell. */
  type Row = map<string, Value>

  /** `row.get(key)`: a missing key reads as None, like a NULL cell. */
  function Get(row: Row, key: string): Value {
    if key in row then row[key] else Null
  }

  predicate IntOrNull(v: Value) { v.Null? || v.IntV? }
  predicate StrOrNull(v: Value) { v.Null? || v.StrV? }
  predicate TimeOrNull(v: Value) { v.Null? || v.TimeV? }

  /** Reading a cell into an optional field; the type tests of the
      `*OrNull` predicates make this lossless. */
  function AsInt(v: Value): (o: Option<int>)
    ensures IntOrNull(v) ==> (o.None? <==> v.Null?) && (o.Some? ==> v == IntV(o.value))
  {
    if v.IntV? then Some(v.i) else None
  }

  function AsStr(v: Value): (o: Option<string>)
    ensures StrOrNull(v) ==> (o.None? <==> v.Null?) && (o.Some? ==> v == StrV(o.value))
  {
    if v.StrV? then Some(v.s) else None
  }

  function AsTime(v: Value): (o: Option<nat>)
    ensures TimeOrNull(v) ==> (o.None? <==> v.Null?) && (o.Some? ==> v == TimeV(o.value))
  {
    if v.TimeV? then Some(v.t) else None
  }

  /** Writing an optional field into a cell: None becomes NULL. */
  function FromInt(o: Option<int>): (v: Value)
    ensures IntOrNull(v) && AsInt(v) == o
  {
    if o.Some? then IntV(o.value) else Null
  }

  function FromStr(o: Option<string>): (v: Value)
    ensures StrOrNull(v) && AsStr(v) == o
  {
    if o.Some? then StrV(o.value) else Null
  }

  function FromTime(o: Option<nat>): (v: Value)
    ensures TimeOrNull(v) && AsTime(v) == o
  {
    if o.Some? then TimeV(o.value) else Null
  }

  /** The row can populate a record: `id` is an integer and every other
      cell read is NULL or of its field's type. */
  predicate WellTyped(row: Row) {
    && Get(row, ReadKey(Id)).IntV?
    && IntOrNull(Get(row, ReadKey(IdChip)))
    && IntOrNull(Get(row, ReadKey(IdHd)))
    && TimeOrNull(Get(row, ReadKey(Fecha)))
    && StrOrNull(Get(row, ReadKey(Status)))
    && StrOrNull(Get(row, ReadKey(Color)))
    && StrOrNull(Get(row, ReadKey(Vehiculo)))
    && StrOrNull(Get(row, ReadKey(NoOrden)))
    && StrOrNull(Get(row, ReadKey(NoPlacas)))
    && IntOrNull(Get(row, ReadKey(IdTecnico)))
    && IntOrNull(Get(row, ReadKey(IdAsesor)))
    && TimeOrNull(Get(row, ReadKey(FechaHoraIniOper)))
    && TimeOrNull(Get(row, ReadKey(FechaHoraFinOper)))
    && StrOrNull(Get(row, ReadKey(StatusOs)))
    && IntOrNull(Get(row, ReadKey(Kilometraje)))
    && StrOrNull(Get(row, ReadKey(ContactoNombre)))
    && StrOrNull(Get(row, ReadKey(ContactoTelefono)))
    && IntOrNull(Get(row, ReadKey(TmpReal)))
    && IntOrNull(Get(row, ReadKey(TmpOriginal)))
    && StrOrNull(Get(row, ReadKey(Servicio)))
    && StrOrNull(Get(row, ReadKey(ServicioCapturado)))
    && IntOrNull(Get(row, ReadKey(IdFase)))
    && StrOrNull(Get(row, ReadKey(Tecnico)))
    && StrOrNull(Get(row, ReadKey(Asesor)))
  }

  /** `calculate_tracker_url(no_orden) if row.get("noOrden") else None`:
      a link exists exactly for a present, non-empty order number. */
  function TrackerFor(noOrden: Option<string>): (t: Option<TrackerLink>)
    ensures t.None? <==> noOrden.None? || noOrden.value == ""
    ensures t.Some? ==> t.value.noOrden == noOrden.value
  {
    if noOrden.Some? && noOrden.value != "" then Some(TrackerLink(noOrden.value)) else None
  }

  /** `CalidadSchema.db_to_model(row)`; None where the record's validation
      would reject the row. The tracker link reads `noOrden` a second time,
      under its own spelling of the key. */
  function DbToModel(row: Row): (m: Option<Calidad>)
    ensures m.Some? <==> WellTyped(row)
  {
    if !WellTyped(row) then None
    else
      Some(Calidad(
        id := Get(row, ReadKey(Id)).i,
        idChip := AsInt(Get(row, ReadKey(IdChip))),
        idHd := AsInt(Get(row, ReadKey(IdHd))),
        fecha := AsTime(Get(row, ReadKey(Fecha))),
        status := AsStr(Get(row, ReadKey(Status))),
        color := AsStr(Get(row, ReadKey(Color))),
        vehiculo := AsStr(Get(row, ReadKey(Vehiculo))),
        noOrden := AsStr(Get(row, ReadKey(NoOrden))),
        noPlacas := AsStr(Get(row, ReadKey(NoPlacas))),
        idTecnico := AsInt(Get(row, ReadKey(IdTecnico))),
        idAsesor := AsInt(Get(row, ReadKey(IdAsesor))),
        iniOper := AsTime(Get(row, ReadKey(FechaHoraIniOper))),
        finOper := AsTime(Get(row, ReadKey(FechaHoraFinOper))),
        statusOs := AsStr(Get(row, ReadKey(StatusOs))),
        kilometraje := AsInt(Get(row, ReadKey(Kilometraje))),
        contactoNombre := AsStr(Get(row, ReadKey(ContactoNombre))),
        contactoTelefono := AsStr(Get(row, ReadKey(ContactoTelefono))),
        tmpReal := AsInt(Get(row, ReadKey(TmpReal))),
        tmpOriginal := AsInt(Get(row, ReadKey(TmpOriginal))),
        servicio := AsStr(Get(row, ReadKey(Servicio))),
        servicioCapturado := AsStr(Get(row, ReadKey(ServicioCapturado))),
        idFase := AsInt(Get(row, ReadKey(IdFase))),
        tecnico := AsStr(Get(row, ReadKey(Tecnico))),
        asesor := AsStr(Get(row, ReadKey(Asesor))),
        trackerUrl := TrackerFor(AsStr(Get(row, "noOrden")))
      ))
  }

  /** The cell holding field `f` of `m`, as `model_to_db` should write it. */
  function Cell(m: Calidad, f: Field): Value {
    match f
    case Id => IntV(m.id)
    case IdChip => FromInt(m.idChip)
    case IdHd => FromInt(m.idHd)
    case Fecha => FromTime(m.fecha)
    case Status => FromStr(m.status)
    case Color => FromStr(m.color)
    case Vehiculo => FromStr(m.vehiculo)
    case NoOrden => FromStr(m.noOrden)
    case NoPlacas => FromStr(m.noPlacas)
    case IdTecnico => FromInt(m.idTecnico)
    case IdAsesor => FromInt(m.idAsesor)
    case FechaHoraIniOper => FromTime(m.iniOper)
    case FechaHoraFinOper => FromTime(m.finOper)
    case StatusOs => FromStr(m.statusOs)
    case Kilometraje => FromInt(m.kilometraje)
    case ContactoNombre => FromStr(m.contactoNombre)
    case ContactoTelefono => FromStr(m.contactoTelefono)
    case TmpReal => FromInt(m.tmpReal)
    case TmpOriginal => FromInt(m.tmpOriginal)
    case Servicio => FromStr(m.servicio)
    case ServicioCapturado => FromStr(m.servicioCapturado)
    case IdFase => FromInt(m.idFase)
    case Tecnico => FromStr(m.tecnico)
    case Asesor => FromStr(m.asesor)
  }

  /** `CalidadSchema.model_to_db(model)`: the dictionary literal, key by key. */
  function ModelToDb(m: Calidad): Row {
    map[
      "id" := IntV(m.id),
      "idChip" := FromInt(m.idChip),
      "id_hd" := FromInt(m.idHd),
      "fecha" := FromTime(m.fecha),
      "status" := FromStr(m.status),
      "color" := FromStr(m.color),
      "vehiculo" := FromStr(m.vehiculo),
      "noOrden" := FromStr(m.noOrden),
      "noPlacas" := FromStr(m.noPlacas),
      "idTecnico" := FromInt(m.idTecnico),
      "idAsesor" := FromInt(m.idAsesor),
      "fecha_hora_ini_oper" := FromTime(m.iniOper),
      "fecha_hora_fin_oper" := FromTime(m.finOper),
      "status_os" := FromStr(m.statusOs),
      "kilometraje" := FromInt(m.kilometraje),
      "contactoNombre" := FromStr(m.contactoNombre),
      "contactoTelefono" := FromStr(m.contactoTelefono),
      "tmp_Real" := FromInt(m.tmpReal),
      "tmp_original" := FromInt(m.tmpOriginal),
      "servicio" := FromStr(m.servicio),
      "servicioCapturado" := FromStr(m.servicioCapturado),
      "idTecnicoAsi" := FromInt(m.idFase),
      "tecnico" := FromStr(m.tecnico),
      "asesor" := FromStr(m.asesor)
    ]
  }

  /** `model_to_db` writes each field under the key `db_to_model` reads it
      from: the two key lists agree field by field. */
  lemma WrittenUnderReadKey(m: Calidad, f: Field)
    ensures ReadKey(f) in ModelToDb(m) && ModelToDb(m)[ReadKey(f)] == Cell(m, f)
  {
    match f
    case Id => IdWritten(m);
    case IdChip => IdChipWritten(m);
    case IdHd => IdHdWritten(m);
    case Fecha => FechaWritten(m);
    case Status => StatusWritten(m);
    case Color => ColorWritten(m);
    case Vehiculo => VehiculoWritten(m);
    case NoOrden => NoOrdenWritten(m);
    case NoPlacas => NoPlacasWritten(m);
    case IdTecnico => IdTecnicoWritten(m);
    case IdAsesor => IdAsesorWritten(m);
    case FechaHoraIniOper => FechaHoraIniOperWritten(m);
    case FechaHoraFinOper => FechaHoraFinOperWritten(m);
    case StatusOs => StatusOsWritten(m);
    case Kilometraje => KilometrajeWritten(m);
    case ContactoNombre => ContactoNombreWritten(m);
    case ContactoTelefono => ContactoTelefonoWritten(m);
    case TmpReal => TmpRealWritten(m);
    case TmpOriginal => TmpOriginalWritten(m);
    case Servicio => ServicioWritten(m);
    case ServicioCapturado => ServicioCapturadoWritten(m);
    case IdFase => IdFaseWritten(m);
    case Tecnico => TecnicoWritten(m);
    case Asesor => AsesorWritten(m);
  }

  // One lemma per field: looking a key up in the 24-entry literal is
  // cheap alone and expensive in bulk.
  lemma IdWritten(m: Calidad) ensures ReadKey(Id) in ModelToDb(m) && ModelToDb(m)[ReadKey(Id)] == Cell(m, Id) {}
  lemma IdChipWritten(m: Calidad) ensures ReadKey(IdChip) in ModelToDb(m) && ModelToDb(m)[ReadKey(IdChip)] == Cell(m, IdChip) {}
  lemma IdHdWritten(m: Calidad) ensures ReadKey(IdHd) in ModelToDb(m) && ModelToDb(m)[ReadKey(IdHd)] == Cell(m, IdHd) {}
  lemma FechaWritten(m: Calidad) ensures ReadKey(Fecha) in ModelToDb(m) && ModelToDb(m)[ReadKey(Fecha)] == Cell(m, Fecha) {}
  lemma StatusWritten(m: Calidad) ensures ReadKey(Status) in ModelToDb(m) && ModelToDb(m)[ReadKey(Status)] == Cell(m, Status) {}
  lemma ColorWritten(m: Calidad) ensures ReadKey(Color) in ModelToDb(m) && ModelToDb(m)[ReadKey(Color)] == Cell(m, Color) {}
  lemma VehiculoWritten(m: Calidad) ensures ReadKey(Vehiculo) in ModelToDb(m) && ModelToDb(m)[ReadKey(Vehiculo)] == Cell(m, Vehiculo) {}
  lemma NoOrdenWritten(m: Calidad) ensures ReadKey(NoOrden) in ModelToDb(m) && ModelToDb(m)[ReadKey(NoOrden)] == Cell(m, NoOrden) {}
  lemma NoPlacasWritten(m: Calidad) ensures ReadKey(NoPlacas) in ModelToDb(m) && ModelToDb(m)[ReadKey(NoPlacas)] == Cell(m, NoPlacas) {}
  lemma IdTecnicoWritten(m: Calidad) ensures ReadKey(IdTecnico) in ModelToDb(m) && ModelToDb(m)[ReadKey(IdTecnico)] == Cell(m, IdTecnico) {}
  lemma IdAsesorWritten(m: Calidad) ensures ReadKey(IdAsesor) in ModelToDb(m) && ModelToDb(m)[ReadKey(IdAsesor)] == Cell(m, IdAsesor) {}
  lemma FechaHoraIniOperWritten(m: Calidad) ensures ReadKey(FechaHoraIniOper) in ModelToDb(m) && ModelToDb(m)[ReadKey(FechaHoraIniOper)] == Cell(m, FechaHoraIniOper) {}
  lemma FechaHoraFinOperWritten(m: Calidad) ensures ReadKey(FechaHoraFinOper) in ModelToDb(m) && ModelToDb(m)[ReadKey(FechaHoraFinOper)] == Cell(m, FechaHoraFinOper) {}
  lemma StatusOsWritten(m: Calidad) ensures ReadKey(StatusOs) in ModelToDb(m) && ModelToDb(m)[ReadKey(StatusOs)] == Cell(m, StatusOs) {}
  lemma KilometrajeWritten(m: Calidad) ensures ReadKey(Kilometraje) in ModelToDb(m) && ModelToDb(m)[ReadKey(Kilometraje)] == Cell(m, Kilometraje) {}
  lemma ContactoNombreWritten(m: Calidad) ensures ReadKey(ContactoNombre) in ModelToDb(m) && ModelToDb(m)[ReadKey(ContactoNombre)] == Cell(m, ContactoNombre) {}
  lemma ContactoTelefonoWritten(m: Calidad) ensures ReadKey(ContactoTelefono) in ModelToDb(m) && ModelToDb(m)[ReadKey(ContactoTelefono)] == Cell(m, ContactoTelefono) {}
  lemma TmpRealWritten(m: Calidad) ensures ReadKey(TmpReal) in ModelToDb(m) && ModelToDb(m)[ReadKey(TmpReal)] == Cell(m, TmpReal) {}
  lemma TmpOriginalWritten(m: Calidad) ensures ReadKey(TmpOriginal) in ModelToDb(m) && ModelToDb(m)[ReadKey(TmpOriginal)] == Cell(m, TmpOriginal) {}
  lemma ServicioWritten(m: Calidad) ensures ReadKey(Servicio) in ModelToDb(m) && ModelToDb(m)[ReadKey(Servicio)] == Cell(m, Servicio) {}
  lemma ServicioCapturadoWritten(m: Calidad) ensures ReadKey(ServicioCapturado) in ModelToDb(m) && ModelToDb(m)[ReadKey(ServicioCapturado)] == Cell(m, ServicioCapturado) {}
  lemma IdFaseWritten(m: Calidad) ensures ReadKey(IdFase) in ModelToDb(m) && ModelToDb(m)[ReadKey(IdFase)] == Cell(m, IdFase) {}
  lemma TecnicoWritten(m: Calidad) ensures ReadKey(Tecnico) in ModelToDb(m) && ModelToDb(m)[ReadKey(Tecnico)] == Cell(m, Tecnico) {}
  lemma AsesorWritten(m: Calidad) ensures ReadKey(Asesor) in ModelToDb(m) && ModelToDb(m)[ReadKey(Asesor)] == Cell(m, Asesor) {}

  /** Only the keys `db_to_model` reads matter, and a missing key reads like
      a NULL cell. */
  lemma OnlyReadKeysMatter(r1: Row, r2: Row)
    requires forall f :: Get(r1, ReadKey(f)) == Get(r2, ReadKey(f))
    ensures DbToModel(r1) == DbToModel(r2)
  {
    assert Get(r1, "noOrden") == Get(r1, ReadKey(NoOrden));
    assert Get(r2, "noOrden") == Get(r2, ReadKey(NoOrden));
  }

  /** A tracker link is produced exactly when `noOrden` is present and
      non-empty. */
  lemma TrackerIffOrderNumber(row: Row)
    requires WellTyped(row)
    ensures DbToModel(row).value.trackerUrl.None? <==> Get(row, "noOrden") in {Null, StrV("")}
  {
    assert Get(row, "noOrden") == Get(row, ReadKey(NoOrden));
  }

  /** `model_to_db` emits no `tracker_url` key. */
  lemma NoTrackerKey(m: Calidad)
    ensures "tracker_url" !in ModelToDb(m)
  {
  }

  /** Writing a read record back restores every cell `db_to_model` reads
      (a missing key comes back as NULL). */
  lemma RowRoundTrip(row: Row)
    requires WellTyped(row)
    ensures forall f :: Get(ModelToDb(DbToModel(row).value), ReadKey(f)) == Get(row, ReadKey(f))
  {
    forall f
      ensures Get(ModelToDb(DbToModel(row).value), ReadKey(f)) == Get(row, ReadKey(f))
    {
      CellReadBack(row, f);
      WrittenUnderReadKey(DbToModel(row).value, f);
    }
  }

  /** Each field of the record read from a row holds the row's cell under
      the field's key. */
  lemma CellReadBack(row: Row, f: Field)
    requires WellTyped(row)
    ensures Cell(DbToModel(row).value, f) == Get(row, ReadKey(f))
  {
    var m := DbToModel(row).value;
    match f
    case Id =>
    case IdChip =>
    case IdHd =>
    case Fecha =>
    case Status =>
    case Color =>
    case Vehiculo =>
    case NoOrden =>
    case NoPlacas =>
    case IdTecnico =>
    case IdAsesor =>
    case FechaHoraIniOper =>
    case FechaHoraFinOper =>
    case StatusOs =>
    case Kilometraje =>
    case ContactoNombre =>
    case ContactoTelefono =>
    case TmpReal =>
    case TmpOriginal =>
    case Servicio =>
    case ServicioCapturado =>
    case IdFase =>
    case Tecnico =>
    case Asesor =>
  }

  /** Reading a written record back restores it, with the tracker link
      recomputed from the order number. */
  lemma ModelRoundTrip(m: Calidad)
    ensures DbToModel(ModelToDb(m)) == Some(m.(trackerUrl := TrackerFor(m.noOrden)))
  {
    forall f ensures Get(ModelToDb(m), ReadKey(f)) == Cell(m, f) {
      WrittenUnderReadKey(m, f);
    }
    ReadCells(ModelToDb(m), m);
  }

  /** Any row holding a record's cells under the keys `db_to_model` reads
      gives back that record; every other key is ignored. */
  lemma ReadCells(row: Row, m: Calidad)
    requires forall f :: Get(row, ReadKey(f)) == Cell(m, f)
    ensures DbToModel(row) == Some(m.(trackerUrl := TrackerFor(m.noOrden)))
  {
    IdCells(m);
    VehicleCells(m);
    ContactCells(m);
    TimeCells(m);
    StaffCells(m);
    assert Get(row, ReadKey(Id)) == Cell(m, Id);
    assert Get(row, ReadKey(IdChip)) == Cell(m, IdChip);
    assert Get(row, ReadKey(IdHd)) == Cell(m, IdHd);
    assert Get(row, ReadKey(Fecha)) == Cell(m, Fecha);
    assert Get(row, ReadKey(Status)) == Cell(m, Status);
    assert Get(row, ReadKey(Color)) == Cell(m, Color);
    assert Get(row, ReadKey(Vehiculo)) == Cell(m, Vehiculo);
    assert Get(row, ReadKey(NoOrden)) == Cell(m, NoOrden);
    assert Get(row, ReadKey(NoPlacas)) == Cell(m, NoPlacas);
    assert Get(row, ReadKey(IdTecnico)) == Cell(m, IdTecnico);
    assert Get(row, ReadKey(IdAsesor)) == Cell(m, IdAsesor);
    assert Get(row, ReadKey(FechaHoraIniOper)) == Cell(m, FechaHoraIniOper);
    assert Get(row, ReadKey(FechaHoraFinOper)) == Cell(m, FechaHoraFinOper);
    assert Get(row, ReadKey(StatusOs)) == Cell(m, StatusOs);
    assert Get(row, ReadKey(Kilometraje)) == Cell(m, Kilometraje);
    assert Get(row, ReadKey(ContactoNombre)) == Cell(m, ContactoNombre);
    assert Get(row, ReadKey(ContactoTelefono)) == Cell(m, ContactoTelefono);
    assert Get(row, ReadKey(TmpReal)) == Cell(m, TmpReal);
    assert Get(row, ReadKey(TmpOriginal)) == Cell(m, TmpOriginal);
    assert Get(row, ReadKey(Servicio)) == Cell(m, Servicio);
    assert Get(row, ReadKey(ServicioCapturado)) == Cell(m, ServicioCapturado);
    assert Get(row, ReadKey(IdFase)) == Cell(m, IdFase);
    assert Get(row, ReadKey(Tecnico)) == Cell(m, Tecnico);
    assert Get(row, ReadKey(Asesor)) == Cell(m, Asesor);
    assert Get(row, "noOrden") == Get(row, ReadKey(NoOrden));
  }

  /** The cells of the record and chip identifiers. */
  lemma IdCells(m: Calidad)
    ensures Cell(m, Id) == IntV(m.id)
    ensures Cell(m, IdChip) == FromInt(m.idChip)
    ensures Cell(m, IdHd) == FromInt(m.idHd)
  {
  }

  /** The cells of the vehicle and order fields. */
  lemma VehicleCells(m: Calidad)
    ensures Cell(m, Status) == FromStr(m.status)
    ensures Cell(m, Color) == FromStr(m.color)
    ensures Cell(m, Vehiculo) == FromStr(m.vehiculo)
    ensures Cell(m, NoOrden) == FromStr(m.noOrden)
    ensures Cell(m, NoPlacas) == FromStr(m.noPlacas)
    ensures Cell(m, StatusOs) == FromStr(m.statusOs)
  {
  }

  /** The cells of the date, mileage and duration fields. */
  lemma TimeCells(m: Calidad)
    ensures Cell(m, Fecha) == FromTime(m.fecha)
    ensures Cell(m, FechaHoraIniOper) == FromTime(m.iniOper)
    ensures Cell(m, FechaHoraFinOper) == FromTime(m.finOper)
    ensures Cell(m, Kilometraje) == FromInt(m.kilometraje)
    ensures Cell(m, TmpReal) == FromInt(m.tmpReal)
    ensures Cell(m, TmpOriginal) == FromInt(m.tmpOriginal)
  {
  }

  /** The cells of the contact and service fields. */
  lemma ContactCells(m: Calidad)
    ensures Cell(m, ContactoNombre) == FromStr(m.contactoNombre)
    ensures Cell(m, ContactoTelefono) == FromStr(m.contactoTelefono)
    ensures Cell(m, Servicio) == FromStr(m.servicio)
    ensures Cell(m, ServicioCapturado) == FromStr(m.servicioCapturado)
  {
  }

  /** The cells of the staff and phase fields. */
  lemma StaffCells(m: Calidad)
    ensures Cell(m, IdTecnico) == FromInt(m.idTecnico)
    ensures Cell(m, IdAsesor) == FromInt(m.idAsesor)
    ensures Cell(m, IdFase) == FromInt(m.idFase)
    ensures Cell(m, Tecnico) == FromStr(m.tecnico)
    ensures Cell(m, Asesor) == FromStr(m.asesor)
  {
  }

  // Comments

  /** `ComentarioSchema.db_to_model(row)`; every comment field is required,
      so a NULL, missing or mistyped cell yields None. */
  function ComentarioDbToModel(row: Row): (c: Option<Comentario>)
    ensures c.Some? <==>
              && Get(row, "idChip").IntV? && Get(row, "fecha").TimeV?
              && Get(row, "Status").StrV? && Get(row, "cveUsuario").StrV?
              && Get(row, "idLinea").IntV? && Get(row, "Comentario").StrV?
  {
    match (Get(row, "idChip"), Get(row, "fecha"), Get(row, "Status"),
           Get(row, "cveUsuario"), Get(row, "idLinea"), Get(row, "Comentario"))
    case (IntV(chip), TimeV(fecha), StrV(status), StrV(usuario), IntV(linea), StrV(texto)) =>
      Some(Comentario(chip, fecha, status, usuario, linea, texto))
    case _ => None
  }

  /** The row the service's INSERT stores for a comment, under its column
      list `(idChip, fecha, Status, cveUsuario, idLinea, Comentario)`. */
  function ComentarioRow(c: Comentario): (row: Row)
    ensures forall k :: k in row ==> row[k] != Null
  {
    map[
      "idChip" := IntV(c.idChip),
      "fecha" := TimeV(c.fecha),
      "Status" := StrV(c.status),
      "cveUsuario" := StrV(c.cveUsuario),
      "idLinea" := IntV(c.idLinea),
      "Comentario" := StrV(c.comentario)
    ]
  }

  /** Reading back an inserted comment row yields the comment: the INSERT's
      column names are the keys the comment schema reads. */
  lemma ComentarioRoundTrip(c: Comentario)
    ensures ComentarioDbToModel(ComentarioRow(c)) == Some(c)
  {
  }

  /** Each comment field comes from its own key. */
  lemma ComentarioFieldsFromKeys(row: Row)
    requires ComentarioDbToModel(row).Some?
    ensures var c := ComentarioDbToModel(row).value;
            && Get(row, "idChip") == IntV(c.idChip) && Get(row, "fecha") == TimeV(c.fecha)
            && Get(row, "Status") == StrV(c.status) && Get(row, "cveUsuario") == StrV(c.cveUsuario)
            && Get(row, "idLinea") == IntV(c.idLinea) && Get(row, "Comentario") == StrV(c.comentario)
  {
  }
}
