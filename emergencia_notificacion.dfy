/** The `EmergenciaNotificacion` entity: one emergency offer sent to one
    technician, its five states, its column defaults and its JPA lifecycle
    hooks. Times are whole seconds. */
module Notificaciones {
  import opened Comun

  /** The life of an offer: sent and waiting, accepted, rejected, expired,
      or withdrawn because another technician accepted. */
  datatype EstadoNotificacion = PENDIENTE | ACEPTADA | RECHAZADA | TIMEOUT | CANCELADA

  /** Deadline the persist hook gives an offer that has none. */
  const TIMEOUT_DEFECTO_SEGUNDOS := 90

  /** A stored row of `emergencia_notificaciones`: the non-null columns are
      plain values, the nullable ones are `Option`s. */
  datatype Fila = Fila(
    id: int,
    solicitudId: int,
    tecnicoId: int,
    estado: EstadoNotificacion,
    fechaEnvio: int,
    fechaRespuesta: Option<int>,
    timeoutEn: int,
    distanciaMetros: Option<real>,
    ordenContacto: Option<int>,
    fechaCreacion: int,
    fechaModificacion: Option<int>)

  /** The entity object the service fills in before saving. Every Java field
      may be null until it is set, so every field is an `Option`. */
  class EmergenciaNotificacion {
    var id: Option<int>
    var solicitudId: Option<int>
    var tecnicoId: Option<int>
    var estado: Option<EstadoNotificacion>
    var fechaEnvio: Option<int>
    var fechaRespuesta: Option<int>
    var timeoutEn: Option<int>
    var distanciaMetros: Option<real>
    var ordenContacto: Option<int>
    var fechaCreacion: Option<int>
    var fechaModificacion: Option<int>

    /** `new EmergenciaNotificacion()`: only `estado` has a field initialiser. */
    constructor ()
      ensures estado == Some(PENDIENTE)
      ensures id.None? && solicitudId.None? && tecnicoId.None? && fechaEnvio.None?
      ensures fechaRespuesta.None? && timeoutEn.None? && distanciaMetros.None?
      ensures ordenContacto.None? && fechaCreacion.None? && fechaModificacion.None?
    {
      id := None;
      solicitudId := None;
      tecnicoId := None;
      estado := Some(PENDIENTE);
      fechaEnvio := None;
      fechaRespuesta := None;
      timeoutEn := None;
      distanciaMetros := None;
      ordenContacto := None;
      fechaCreacion := None;
      fechaModificacion := None;
    }

    /** The managed object of a stored row. */
    constructor Cargar(f: Fila)
      ensures Persistible() && ComoFila(f.id) == f
      ensures id == Some(f.id)
    {
      id := Some(f.id);
      solicitudId := Some(f.solicitudId);
      tecnicoId := Some(f.tecnicoId);
      estado := Some(f.estado);
      fechaEnvio := Some(f.fechaEnvio);
      fechaRespuesta := f.fechaRespuesta;
      timeoutEn := Some(f.timeoutEn);
      distanciaMetros := f.distanciaMetros;
      ordenContacto := f.ordenContacto;
      fechaCreacion := Some(f.fechaCreacion);
      fechaModificacion := f.fechaModificacion;
    }

    /** Every `nullable = false` column holds a value. */
    predicate Persistible()
      reads this
    {
      solicitudId.Some? && tecnicoId.Some? && estado.Some? && fechaEnvio.Some?
        && timeoutEn.Some? && fechaCreacion.Some?
    }

    /** The row the object is written as, under the given identity. */
    function ComoFila(nuevoId: int): Fila
      reads this
      requires Persistible()
    {
      Fila(nuevoId, solicitudId.value, tecnicoId.value, estado.value, fechaEnvio.value,
           fechaRespuesta, timeoutEn.value, distanciaMetros, ordenContacto,
           fechaCreacion.value, fechaModificacion)
    }

    /** `@PrePersist`: stamps creation, modification and send time, makes a
        missing state PENDIENTE and a missing deadline `ahora + 90`; every
        other field is left alone. */
    method OnCreate(ahora: int)
      modifies this`fechaCreacion, this`fechaModificacion, this`fechaEnvio, this`estado, this`timeoutEn
      ensures fechaCreacion == Some(ahora) && fechaModificacion == Some(ahora)
      ensures fechaEnvio == Some(ahora)
      ensures estado == if old(estado).None? then Some(PENDIENTE) else old(estado)
      ensures timeoutEn == if old(timeoutEn).None? then Some(ahora + TIMEOUT_DEFECTO_SEGUNDOS) else old(timeoutEn)
    {
      fechaCreacion := Some(ahora);
      fechaModificacion := Some(ahora);
      fechaEnvio := Some(ahora);
      if estado.None? {
        estado := Some(PENDIENTE);
      }
      if timeoutEn.None? {
        timeoutEn := Some(ahora + TIMEOUT_DEFECTO_SEGUNDOS);
      }
    }

    /** `@PreUpdate`: refreshes the modification time and nothing else. */
    method OnUpdate(ahora: int)
      modifies this`fechaModificacion
      ensures fechaModificacion == Some(ahora)
    {
      fechaModificacion := Some(ahora);
    }
  }
}
