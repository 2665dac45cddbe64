/** The `Solicitud` entity (a service request) as far as the emergency flow
    uses it: its states, its priorities, its column defaults and its JPA
    lifecycle hooks. Times are whole seconds. */
module Solicitudes {
  import opened Comun

  datatype EstadoSolicitud = PENDIENTE | ASIGNADA | EN_PROGRESO | COMPLETADA | CANCELADA | RECHAZADA

  datatype PrioridadSolicitud = BAJA | NORMAL | ALTA | URGENTE

  /** A stored row of `solicitudes`. `usuarioId` is the requester,
      `tecnicoId` the assigned technician, if any. */
  datatype Fila = Fila(
    id: int,
    titulo: string,
    descripcion: Option<string>,
    direccionServicio: Option<string>,
    fechaSolicitud: int,
    estado: EstadoSolicitud,
    prioridad: PrioridadSolicitud,
    esUrgente: bool,
    observaciones: Option<string>,
    fechaInicioTrabajo: Option<int>,
    usuarioId: int,
    tecnicoId: Option<int>,
    subcategoriaId: int,
    fechaCreacion: int,
    fechaModificacion: Option<int>)

  /** The entity object; every Java field may be null until it is set. */
  class Solicitud {
    var id: Option<int>
    var titulo: Option<string>
    var descripcion: Option<string>
    var direccionServicio: Option<string>
    var fechaSolicitud: Option<int>
    var estado: Option<EstadoSolicitud>
    var prioridad: Option<PrioridadSolicitud>
    var esUrgente: Option<bool>
    var observaciones: Option<string>
    var fechaInicioTrabajo: Option<int>
    var usuarioId: Option<int>
    var tecnicoId: Option<int>
    var subcategoriaId: Option<int>
    var fechaCreacion: Option<int>
    var fechaModificacion: Option<int>

    /** `new Solicitud()`: the field initialisers give PENDIENTE, NORMAL, not
        urgent; there is no technician. */
    constructor ()
      ensures estado == Some(PENDIENTE) && prioridad == Some(NORMAL) && esUrgente == Some(false)
      ensures tecnicoId.None? && id.None? && titulo.None? && descripcion.None?
      ensures direccionServicio.None? && fechaSolicitud.None? && observaciones.None?
      ensures fechaInicioTrabajo.None? && usuarioId.None? && subcategoriaId.None?
      ensures fechaCreacion.None? && fechaModificacion.None?
    {
      id := None;
      titulo := None;
      descripcion := None;
      direccionServicio := None;
      fechaSolicitud := None;
      estado := Some(PENDIENTE);
      prioridad := Some(NORMAL);
      esUrgente := Some(false);
      observaciones := None;
      fechaInicioTrabajo := None;
      usuarioId := None;
      tecnicoId := None;
      subcategoriaId := None;
      fechaCreacion := None;
      fechaModificacion := None;
    }

    /** The managed object of a stored row. */
    constructor Cargar(f: Fila)
      ensures Persistible() && ComoFila(f.id) == f
      ensures id == Some(f.id)
    {
      id := Some(f.id);
      titulo := Some(f.titulo);
      descripcion := f.descripcion;
      direccionServicio := f.direccionServicio;
      fechaSolicitud := Some(f.fechaSolicitud);
      estado := Some(f.estado);
      prioridad := Some(f.prioridad);
      esUrgente := Some(f.esUrgente);
      observaciones := f.observaciones;
      fechaInicioTrabajo := f.fechaInicioTrabajo;
      usuarioId := Some(f.usuarioId);
      tecnicoId := f.tecnicoId;
      subcategoriaId := Some(f.subcategoriaId);
      fechaCreacion := Some(f.fechaCreacion);
      fechaModificacion := f.fechaModificacion;
    }

    /** Every `nullable = false` column holds a value. */
    predicate Persistible()
      reads this
    {
      titulo.Some? && fechaSolicitud.Some? && estado.Some? && prioridad.Some?
        && esUrgente.Some? && usuarioId.Some? && subcategoriaId.Some? && fechaCreacion.Some?
    }

    function ComoFila(nuevoId: int): Fila
      reads this
      requires Persistible()
    {
      Fila(nuevoId, titulo.value, descripcion, direccionServicio, fechaSolicitud.value,
           estado.value, prioridad.value, esUrgente.value, observaciones, fechaInicioTrabajo,
           usuarioId.value, tecnicoId, subcategoriaId.value, fechaCreacion.value, fechaModificacion)
    }

    /** `@PrePersist`: stamps creation and modification time, overwrites the
        request time whatever the caller put there, and fills a missing state,
        priority or urgency flag with PENDIENTE, NORMAL and false; a value
        already set, such as URGENTE, is kept. */
    method OnCreate(ahora: int)
      modifies this`fechaCreacion, this`fechaModificacion, this`fechaSolicitud
      modifies this`estado, this`prioridad, this`esUrgente
      ensures fechaCreacion == Some(ahora) && fechaModificacion == Some(ahora)
      ensures fechaSolicitud == Some(ahora)
      ensures estado == if old(estado).None? then Some(PENDIENTE) else old(estado)
      ensures prioridad == if old(prioridad).None? then Some(NORMAL) else old(prioridad)
      ensures esUrgente == if old(esUrgente).None? then Some(false) else old(esUrgente)
    {
      fechaCreacion := Some(ahora);
      fechaModificacion := Some(ahora);
      fechaSolicitud := Some(ahora);
      if estado.None? {
        estado := Some(PENDIENTE);
      }
      if prioridad.None? {
        prioridad := Some(NORMAL);
      }
      if esUrgente.None? {
        esUrgente := Some(false);
      }
    }

    /** `@PreUpdate`: refreshes the modification time and nothing else. */
    method OnUpdate(ahora: int)
      modifies this`fechaModificacion
      ensures fechaModificacion == Some(ahora)
    {
      fechaModificacion := Some(ahora);
    }
  }
}
