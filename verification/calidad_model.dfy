/** The records the quality-review backend works with: a vehicle's entry in
    the appointment-control table, a comment on it, and the payload that
    creates a comment. Instants are readings of an abstract clock. */
module CalidadModel {
  import opened Wrappers

  /** The link to the external order tracker. Its text is
      `TRACKER_URL.format(no_order=...)`, a configuration template this model
      treats as opaque: only the order number it is built from is kept. */
  datatype TrackerLink = TrackerLink(noOrden: string)

  /** One quality record, with the fields the schema maps. */
  datatype Calidad = Calidad(
    id: int,
    idChip: Option<int>,
    idHd: Option<int>,
    fecha: Option<nat>,
    status: Option<string>,
    color: Option<string>,
    vehiculo: Option<string>,
    noOrden: Option<string>,
    noPlacas: Option<string>,
    idTecnico: Option<int>,
    idAsesor: Option<int>,
    iniOper: Option<nat>,          // start of the quality operation
    finOper: Option<nat>,          // end of the quality operation
    statusOs: Option<string>,      // review outcome
    kilometraje: Option<int>,
    contactoNombre: Option<string>,
    contactoTelefono: Option<string>,
    tmpReal: Option<int>,
    tmpOriginal: Option<int>,
    servicio: Option<string>,
    servicioCapturado: Option<string>,
    idFase: Option<int>,           // the workshop phase the vehicle is in
    tecnico: Option<string>,
    asesor: Option<string>,
    trackerUrl: Option<TrackerLink>
  )

  /** One stored comment; `(idChip, idLinea)` identifies it. */
  datatype Comentario = Comentario(
    idChip: int,
    fecha: nat,
    status: string,
    cveUsuario: string,
    idLinea: int,
    comentario: string
  )

  /** The request to create a comment. */
  datatype CrearComentario = CrearComentario(
    idChip: int,
    status: string,
    cveUsuario: string,
    comentario: string
  )
}
