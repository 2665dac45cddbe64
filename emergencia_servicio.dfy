/** `EmergenciaService`: creates an emergency request, offers it to nearby
    technicians in a widening search, processes their answers and expires
    unanswered offers. The two tables it writes are fields; the users, the
    subcategories, the technician lookup and the proximity query are the
    read-only `entorno`. Every operation takes the current time `ahora`. */
module Emergencias {
  import opened Comun
  import N = Notificaciones
  import S = Solicitudes
  import R = NotificacionRepositorio
  import opened Despacho
  import opened Barridos

  /** The body of a create-emergency call. `categoriaId` and `telefono` are
      carried but not used. */
  datatype PeticionEmergencia = PeticionEmergencia(
    usuarioId: int,
    categoriaId: int,
    subcategoriaId: int,
    descripcion: string,
    direccion: string,
    latitud: real,
    longitud: real,
    telefono: Option<string>,
    notas: Option<string>)

  /** A technician's answer. `tecnicoId` is only logged by the service. */
  datatype RespuestaTecnico = RespuestaTecnico(notificacionId: int, tecnicoId: int, aceptar: bool)

  /** The offer entity the search round fills in for the `orden`-th
      candidate, after its persist hook, written under identity `id`. */
  method NuevaOferta(id: int, solicitudId: int, c: Candidato, orden: int, ahora: int) returns (f: N.Fila)
    ensures f == Oferta(id, solicitudId, c, orden, ahora)
  {
    var n := new N.EmergenciaNotificacion();
    n.solicitudId := Some(solicitudId);
    n.tecnicoId := Some(c.tecnicoId);
    n.estado := Some(N.PENDIENTE);
    n.fechaEnvio := Some(ahora);
    n.timeoutEn := Some(ahora + TIMEOUT_SEGUNDOS);
    n.distanciaMetros := Some(c.distanciaKm * 1000.0);
    n.ordenContacto := Some(orden);
    n.OnCreate(ahora);
    f := n.ComoFila(id);
  }

  /** The request entity `crearEmergencia` fills in before saving it:
      the requester, the subcategory, the title, the caller's description,
      address and notes, PENDIENTE, URGENTE, urgent, requested now. */
  method BorradorSolicitud(titulo: string, peticion: PeticionEmergencia, ahora: int) returns (s: S.Solicitud)
    ensures fresh(s)
    ensures s.titulo == Some(titulo) && s.usuarioId == Some(peticion.usuarioId)
    ensures s.subcategoriaId == Some(peticion.subcategoriaId)
    ensures s.descripcion == Some(peticion.descripcion) && s.direccionServicio == Some(peticion.direccion)
    ensures s.estado == Some(S.PENDIENTE) && s.prioridad == Some(S.URGENTE) && s.esUrgente == Some(true)
    ensures s.observaciones == peticion.notas && s.tecnicoId.None? && s.fechaInicioTrabajo.None?
    ensures s.fechaSolicitud == Some(ahora)
  {
    s := new S.Solicitud();
    s.usuarioId := Some(peticion.usuarioId);
    s.subcategoriaId := Some(peticion.subcategoriaId);
    s.titulo := Some(titulo);
    s.descripcion := Some(peticion.descripcion);
    s.direccionServicio := Some(peticion.direccion);
    s.estado := Some(S.PENDIENTE);
    s.prioridad := Some(S.URGENTE);
    s.esUrgente := Some(true);
    s.fechaSolicitud := Some(ahora);
    s.observaciones := peticion.notas;
  }

  /** The saved form of that entity under identity `id`: the persist hook
      stamps the times, overwrites the request time and keeps the URGENTE
      priority already set. */
  method NuevaSolicitud(id: int, titulo: string, peticion: PeticionEmergencia, ahora: int) returns (sol: S.Fila)
    ensures sol == S.Fila(id, titulo, Some(peticion.descripcion), Some(peticion.direccion), ahora,
                          S.PENDIENTE, S.URGENTE, true, peticion.notas, None,
                          peticion.usuarioId, None, peticion.subcategoriaId, ahora, Some(ahora))
  {
    var s := BorradorSolicitud(titulo, peticion, ahora);
    s.OnCreate(ahora);
    sol := s.ComoFila(id);
  }

  /** A stored offer loaded, given a new state by the service and saved: the
      update hook refreshes the modification time. */
  method ConEstado(f: N.Fila, estado: N.EstadoNotificacion, ahora: int) returns (g: N.Fila)
    ensures g == CambiarEstado(f, estado, ahora)
  {
    var n := new N.EmergenciaNotificacion.Cargar(f);
    n.estado := Some(estado);
    n.OnUpdate(ahora);
    g := n.ComoFila(f.id);
  }

  /** A stored offer loaded, given the technician's answer and saved. */
  method ConRespuesta(f: N.Fila, estado: N.EstadoNotificacion, ahora: int) returns (g: N.Fila)
    ensures g == Responder(f, estado, ahora)
  {
    var n := new N.EmergenciaNotificacion.Cargar(f);
    n.estado := Some(estado);
    n.fechaRespuesta := Some(ahora);
    n.OnUpdate(ahora);
    g := n.ComoFila(f.id);
  }

  /** A stored request loaded, assigned to a technician and saved. */
  method ConAsignacion(sol: S.Fila, tecnicoId: int, ahora: int) returns (g: S.Fila)
    ensures g == Asignar(sol, tecnicoId, ahora)
  {
    var s := new S.Solicitud.Cargar(sol);
    s.tecnicoId := Some(tecnicoId);
    s.estado := Some(S.ASIGNADA);
    s.fechaInicioTrabajo := Some(ahora);
    s.OnUpdate(ahora);
    g := s.ComoFila(sol.id);
  }

  /** The outcome of answering offer `id` (tables `s0`, `t0` before,
      `s`, `t` after): the response shows the offer's request. An acceptance
      assigns the offer's own technician to that request and leaves the
      offers as `Aceptacion` says; a rejection leaves the requests alone and
      the offers as `Rechazo` says. */
  ghost predicate Respondida(e: Entorno, s0: seq<S.Fila>, t0: seq<N.Fila>, s: seq<S.Fila>, t: seq<N.Fila>,
                             id: int, aceptar: bool, ahora: int, r: Result<Vista>)
  {
    && 1 <= id <= |t0|
    && var i := id - 1;
    && var sid := t0[i].solicitudId;
    && 1 <= sid <= |s0| && 1 <= sid <= |s|
    && s0[sid - 1].usuarioId in e.usuarios && s[sid - 1].usuarioId in e.usuarios
    && r == Success(ConstruirRespuesta(e, t, s[sid - 1]))
    && (aceptar ==>
          && s == s0[sid - 1 := Asignar(s0[sid - 1], t0[i].tecnicoId, ahora)]
          && t == Aceptacion(t0, i, ahora))
    && (!aceptar ==>
          && s == s0
          && t == Rechazo(e, t0, i, s0[sid - 1], ahora))
  }

  class EmergenciaService {
    var solicitudes: seq<S.Fila>
    var notificaciones: seq<N.Fila>
    const entorno: Entorno

    /** Identity keys follow insertion order, every request's requester
        exists and every offer points at a stored request. */
    ghost predicate Valid()
      reads this`solicitudes, this`notificaciones
    {
      && (forall i :: 0 <= i < |solicitudes| ==>
            solicitudes[i].id == i + 1 && solicitudes[i].usuarioId in entorno.usuarios)
      && IdsSecuenciales(notificaciones)
      && (forall i :: 0 <= i < |notificaciones| ==> 1 <= notificaciones[i].solicitudId <= |solicitudes|)
    }

    /** `sol` is the stored row of its request. */
    ghost predicate Guardada(sol: S.Fila)
      reads this`solicitudes
    {
      1 <= sol.id <= |solicitudes| && solicitudes[sol.id - 1] == sol
    }

    constructor (entorno: Entorno)
      ensures Valid() && this.entorno == entorno
      ensures solicitudes == [] && notificaciones == []
    {
      this.entorno := entorno;
      solicitudes := [];
      notificaciones := [];
    }

    /** Saves a new offer: the row gets the next identity. */
    method GuardarOferta(sol: S.Fila, c: Candidato, orden: int, ahora: int)
      requires Valid() && Guardada(sol)
      modifies this`notificaciones
      ensures Valid()
      ensures notificaciones == old(notificaciones) + [Oferta(|old(notificaciones)| + 1, sol.id, c, orden, ahora)]
    {
      var f := NuevaOferta(|notificaciones| + 1, sol.id, c, orden, ahora);
      notificaciones := notificaciones + [f];
    }

    /** Saves a state change the service makes on a managed offer. */
    method GuardarEstado(id: int, estado: N.EstadoNotificacion, ahora: int)
      requires Valid() && 1 <= id <= |notificaciones|
      modifies this`notificaciones
      ensures Valid()
      ensures notificaciones == old(notificaciones)[id - 1 := CambiarEstado(old(notificaciones)[id - 1], estado, ahora)]
    {
      var g := ConEstado(notificaciones[id - 1], estado, ahora);
      notificaciones := notificaciones[id - 1 := g];
    }

    /** Saves a technician's answer on a managed offer. */
    method GuardarRespuesta(id: int, estado: N.EstadoNotificacion, ahora: int)
      requires Valid() && 1 <= id <= |notificaciones|
      modifies this`notificaciones
      ensures Valid()
      ensures notificaciones == old(notificaciones)[id - 1 := Responder(old(notificaciones)[id - 1], estado, ahora)]
    {
      var g := ConRespuesta(notificaciones[id - 1], estado, ahora);
      notificaciones := notificaciones[id - 1 := g];
    }

    /** Saves the assignment of a technician to a managed request. */
    method GuardarAsignacion(solicitudId: int, tecnicoId: int, ahora: int)
      requires Valid() && 1 <= solicitudId <= |solicitudes|
      modifies this`solicitudes
      ensures Valid()
      ensures solicitudes == old(solicitudes)[solicitudId - 1 := Asignar(old(solicitudes)[solicitudId - 1], tecnicoId, ahora)]
    {
      var g := ConAsignacion(solicitudes[solicitudId - 1], tecnicoId, ahora);
      solicitudes := solicitudes[solicitudId - 1 := g];
    }

    /** Saves the request `crearEmergencia` builds, titled after its
        subcategory, under the next identity. */
    method GuardarSolicitud(peticion: PeticionEmergencia, ahora: int) returns (sol: S.Fila)
      requires Valid()
      requires peticion.usuarioId in entorno.usuarios && peticion.subcategoriaId in entorno.subcategorias
      modifies this`solicitudes
      ensures Valid() && Guardada(sol)
      ensures solicitudes == old(solicitudes) + [sol]
      ensures sol == S.Fila(|old(solicitudes)| + 1, TituloEmergencia(entorno.subcategorias[peticion.subcategoriaId]),
                            Some(peticion.descripcion), Some(peticion.direccion), ahora,
                            S.PENDIENTE, S.URGENTE, true, peticion.notas, None,
                            peticion.usuarioId, None, peticion.subcategoriaId, ahora, Some(ahora))
    {
      var titulo := TituloEmergencia(entorno.subcategorias[peticion.subcategoriaId]);
      sol := NuevaSolicitud(|solicitudes| + 1, titulo, peticion, ahora);
      solicitudes := solicitudes + [sol];
    }

    /** `crearEmergencia`: an unknown user or subcategory is NotFound and
        nothing is written. Otherwise one urgent PENDIENTE request without a
        technician is stored, titled after the subcategory, and the search
        from 5 km appends its offers. */
    method CrearEmergencia(peticion: PeticionEmergencia, ahora: int) returns (r: Result<Vista>)
      requires Valid()
      modifies this`solicitudes, this`notificaciones
      ensures Valid()
      ensures peticion.usuarioId !in entorno.usuarios || peticion.subcategoriaId !in entorno.subcategorias ==>
        r == Failure(NotFound) && solicitudes == old(solicitudes) && notificaciones == old(notificaciones)
      ensures peticion.usuarioId in entorno.usuarios && peticion.subcategoriaId in entorno.subcategorias ==>
        && |solicitudes| == |old(solicitudes)| + 1
        && solicitudes[..|old(solicitudes)|] == old(solicitudes)
        && var sol := solicitudes[|old(solicitudes)|];
        && sol == S.Fila(|old(solicitudes)| + 1, TituloEmergencia(entorno.subcategorias[peticion.subcategoriaId]),
                         Some(peticion.descripcion), Some(peticion.direccion), ahora,
                         S.PENDIENTE, S.URGENTE, true, peticion.notas, None,
                         peticion.usuarioId, None, peticion.subcategoriaId, ahora, Some(ahora))
        && notificaciones == old(notificaciones)
             + Lote(sol.id, |old(notificaciones)|,
                    Resolubles(entorno, Hallados(entorno, Punto(peticion.latitud, peticion.longitud),
                                                 peticion.subcategoriaId, RADIO_INICIAL_KM)), ahora)
        && r == Success(ConstruirRespuesta(entorno, notificaciones, sol))
    {
      if peticion.usuarioId !in entorno.usuarios || peticion.subcategoriaId !in entorno.subcategorias {
        return Failure(NotFound);
      }
      var sol := GuardarSolicitud(peticion, ahora);
      BuscarYNotificarTecnicos(sol, Punto(peticion.latitud, peticion.longitud), RADIO_INICIAL_KM, ahora);
      r := Success(ConstruirRespuesta(entorno, notificaciones, sol));
    }

    /** `buscarYNotificarTecnicos`: probes the proximity query from `radioKm`
        outwards in 2 km steps while the answer is empty and the radius is
        below 50 km, then writes one offer per resolvable candidate of the
        first non-empty answer, ranks counting from 1. */
    method BuscarYNotificarTecnicos(sol: S.Fila, p: Punto, radioKm: int, ahora: int)
      requires Valid() && Guardada(sol)
      modifies this`notificaciones
      ensures Valid()
      ensures notificaciones == old(notificaciones)
        + Lote(sol.id, |old(notificaciones)|, Resolubles(entorno, Hallados(entorno, p, sol.subcategoriaId, radioKm)), ahora)
      decreases Medida(radioKm)
    {
      var resultados := entorno.buscar(p, sol.subcategoriaId, radioKm);
      if resultados == [] {
        if radioKm < MAX_RADIO_KM {
          BuscarYNotificarTecnicos(sol, p, radioKm + INCREMENTO_RADIO_KM, ahora);
        }
        return;
      }
      NotificarTecnicos(sol, resultados, ahora);
    }

    /** The loop of `buscarYNotificarTecnicos` over a non-empty answer: a
        candidate the technician lookup does not resolve is skipped and does
        not use up a rank. */
    method NotificarTecnicos(sol: S.Fila, resultados: seq<Candidato>, ahora: int)
      requires Valid() && Guardada(sol)
      modifies this`notificaciones
      ensures Valid()
      ensures notificaciones == old(notificaciones) + Lote(sol.id, |old(notificaciones)|, Resolubles(entorno, resultados), ahora)
    {
      ghost var t0 := notificaciones;
      var orden := 1;
      var i := 0;
      while i < |resultados|
        invariant 0 <= i <= |resultados|
        invariant orden == |Resolubles(entorno, resultados[..i])| + 1
        invariant notificaciones == t0 + Lote(sol.id, |t0|, Resolubles(entorno, resultados[..i]), ahora)
        invariant Valid() && Guardada(sol)
      {
        orden := NotificarUno(sol, resultados, i, t0, orden, ahora);
        i := i + 1;
      }
      assert resultados[..i] == resultados;
    }

    /** One candidate of that loop: an offer with the next rank when its
        technician resolves, nothing otherwise. */
    method NotificarUno(sol: S.Fila, resultados: seq<Candidato>, i: int, ghost t0: seq<N.Fila>, orden: int, ahora: int)
      returns (siguiente: int)
      requires Valid() && Guardada(sol) && 0 <= i < |resultados|
      requires orden == |Resolubles(entorno, resultados[..i])| + 1
      requires notificaciones == t0 + Lote(sol.id, |t0|, Resolubles(entorno, resultados[..i]), ahora)
      modifies this`notificaciones
      ensures Valid()
      ensures siguiente == |Resolubles(entorno, resultados[..i + 1])| + 1
      ensures notificaciones == t0 + Lote(sol.id, |t0|, Resolubles(entorno, resultados[..i + 1]), ahora)
    {
      var c := resultados[i];
      ghost var rs := Resolubles(entorno, resultados[..i]);
      ResolublesPaso(entorno, resultados, i);
      if c.tecnicoId in entorno.tecnicos {
        LoteAnexar(t0, sol.id, rs, c, ahora);
        GuardarOferta(sol, c, orden, ahora);
        siguiente := orden + 1;
      } else {
        siguiente := orden;
      }
    }

    /** `procesarRespuestaTecnico`: an unknown offer is NotFound and nothing
        changes. An acceptance marks the offer ACEPTADA, assigns the offer's
        own technician to the request and withdraws the request's other
        pending offers. A rejection marks the offer RECHAZADA, leaves the
        request alone and runs the reassignment check. Neither checks the
        offer's current state nor the answer's technician id. */
    method ProcesarRespuestaTecnico(respuesta: RespuestaTecnico, ahora: int) returns (r: Result<Vista>)
      requires Valid()
      modifies this`solicitudes, this`notificaciones
      ensures Valid()
      ensures !(1 <= respuesta.notificacionId <= |old(notificaciones)|) ==>
        r == Failure(NotFound) && solicitudes == old(solicitudes) && notificaciones == old(notificaciones)
      ensures 1 <= respuesta.notificacionId <= |old(notificaciones)| ==>
        Respondida(entorno, old(solicitudes), old(notificaciones), solicitudes, notificaciones,
                   respuesta.notificacionId, respuesta.aceptar, ahora, r)
    {
      if 1 <= respuesta.notificacionId <= |notificaciones| {
        r := Contestar(respuesta.notificacionId, respuesta.aceptar, ahora);
      } else {
        r := Failure(NotFound);
      }
    }

    /** `procesarRespuestaTecnico` once the offer `id` is found: acceptance
        or rejection, then the response for the offer's request. */
    method Contestar(id: int, aceptar: bool, ahora: int) returns (r: Result<Vista>)
      requires Valid() && 1 <= id <= |notificaciones|
      modifies this`solicitudes, this`notificaciones
      ensures Valid()
      ensures Respondida(entorno, old(solicitudes), old(notificaciones), solicitudes, notificaciones, id, aceptar, ahora, r)
    {
      if aceptar {
        r := AceptarOferta(id, ahora);
      } else {
        r := RechazarOferta(id, ahora);
      }
    }

    /** The acceptance branch of `procesarRespuestaTecnico`: the request
        gets the offer's technician, the offer becomes ACEPTADA and the
        request's other pending offers are cancelled. */
    method AceptarOferta(id: int, ahora: int) returns (r: Result<Vista>)
      requires Valid() && 1 <= id <= |notificaciones|
      modifies this`solicitudes, this`notificaciones
      ensures Valid()
      ensures var sid := old(notificaciones)[id - 1].solicitudId;
        && 1 <= sid <= |solicitudes|
        && r == Success(ConstruirRespuesta(entorno, notificaciones, solicitudes[sid - 1]))
        && solicitudes == old(solicitudes)[sid - 1 := Asignar(old(solicitudes)[sid - 1], old(notificaciones)[id - 1].tecnicoId, ahora)]
      ensures notificaciones == Aceptacion(old(notificaciones), id - 1, ahora)
    {
      var f := notificaciones[id - 1];
      GuardarAsignacion(f.solicitudId, f.tecnicoId, ahora);
      GuardarRespuesta(id, N.ACEPTADA, ahora);
      CancelarOtrasNotificaciones(f.solicitudId, id, ahora);
      r := Success(ConstruirRespuesta(entorno, notificaciones, solicitudes[f.solicitudId - 1]));
    }

    /** The rejection branch of `procesarRespuestaTecnico`: the offer becomes
        RECHAZADA and the reassignment check runs for its request. */
    method RechazarOferta(id: int, ahora: int) returns (r: Result<Vista>)
      requires Valid() && 1 <= id <= |notificaciones|
      modifies this`notificaciones
      ensures Valid()
      ensures var sid := old(notificaciones)[id - 1].solicitudId;
        && 1 <= sid <= |solicitudes|
        && r == Success(ConstruirRespuesta(entorno, notificaciones, solicitudes[sid - 1]))
        && notificaciones == Rechazo(entorno, old(notificaciones), id - 1, old(solicitudes)[sid - 1], ahora)
    {
      var f := notificaciones[id - 1];
      GuardarRespuesta(id, N.RECHAZADA, ahora);
      BuscarSiguienteTecnico(solicitudes[f.solicitudId - 1], ahora);
      r := Success(ConstruirRespuesta(entorno, notificaciones, solicitudes[f.solicitudId - 1]));
    }

    /** `buscarSiguienteTecnico`: appends the rows of the reassignment check
        and changes nothing else. */
    method BuscarSiguienteTecnico(sol: S.Fila, ahora: int)
      requires Valid() && Guardada(sol)
      modifies this`notificaciones
      ensures Valid()
      ensures notificaciones == old(notificaciones) + Reasignacion(entorno, old(notificaciones), sol, ahora)
      ensures forall k :: |old(notificaciones)| <= k < |notificaciones| ==> Viva(notificaciones[k], ahora)
    {
      ghost var t0 := notificaciones;
      ReasignacionCasos(entorno, t0, sol, ahora);
      AnexoVivo(t0, Reasignacion(entorno, t0, sol, ahora), sol.id, ahora);
      var noContactados := NoContactados(notificaciones, sol.id, ahora);
      if noContactados == [] {
        var u := entorno.usuarios[sol.usuarioId];
        if u.latitud.Some? && u.longitud.Some? {
          BuscarYNotificarTecnicos(sol, Punto(u.latitud.value, u.longitud.value),
                                   RADIO_INICIAL_KM + INCREMENTO_RADIO_KM, ahora);
        }
      }
    }

    /** `cancelarOtrasNotificaciones`: walks the request's pending offers and
        cancels each one but the accepted id. */
    method CancelarOtrasNotificaciones(solicitudId: int, aceptadaId: int, ahora: int)
      requires Valid()
      modifies this`notificaciones
      ensures Valid()
      ensures notificaciones == Cancelacion(old(notificaciones), solicitudId, aceptadaId, ahora)
    {
      var pendientes := R.PorSolicitudYEstado(notificaciones, solicitudId, N.PENDIENTE);
      ghost var t0 := notificaciones;
      ghost var hechos: set<int> := {};
      var i := 0;
      while i < |pendientes|
        invariant 0 <= i <= |pendientes|
        invariant Valid()
        invariant notificaciones == Marcar(t0, hechos, N.CANCELADA, ahora)
        invariant forall id :: id in hechos ==> 1 <= id <= |t0| && PorCancelar(t0[id - 1], solicitudId, aceptadaId)
        invariant forall m :: 0 <= m < i ==> pendientes[m].id in hechos || pendientes[m].id == aceptadaId
      {
        hechos := CancelarUna(t0, pendientes, hechos, i, solicitudId, aceptadaId, ahora);
        i := i + 1;
      }
      MarcasDePendientes(t0, pendientes, hechos, solicitudId, aceptadaId, ahora);
    }

    /** One pending offer of that loop: cancelled unless it is the accepted
        one; `hechos` records the identities cancelled so far. */
    method CancelarUna(ghost t0: seq<N.Fila>, pendientes: seq<N.Fila>, ghost hechos: set<int>, i: int,
                       solicitudId: int, aceptadaId: int, ahora: int)
      returns (ghost hechos': set<int>)
      requires Valid() && IdsSecuenciales(t0) && pendientes == R.PorSolicitudYEstado(t0, solicitudId, N.PENDIENTE)
      requires 0 <= i < |pendientes|
      requires notificaciones == Marcar(t0, hechos, N.CANCELADA, ahora)
      requires forall id :: id in hechos ==> 1 <= id <= |t0| && PorCancelar(t0[id - 1], solicitudId, aceptadaId)
      requires forall m :: 0 <= m < i ==> pendientes[m].id in hechos || pendientes[m].id == aceptadaId
      modifies this`notificaciones
      ensures Valid()
      ensures notificaciones == Marcar(t0, hechos', N.CANCELADA, ahora)
      ensures forall id :: id in hechos' ==> 1 <= id <= |t0| && PorCancelar(t0[id - 1], solicitudId, aceptadaId)
      ensures forall m :: 0 <= m < i + 1 ==> pendientes[m].id in hechos' || pendientes[m].id == aceptadaId
    {
      var x := pendientes[i];
      ApuntarPendiente(t0, pendientes, hechos, i, solicitudId, aceptadaId);
      if x.id != aceptadaId {
        MarcarUno(t0, hechos, x.id, N.CANCELADA, ahora);
        GuardarEstado(x.id, N.CANCELADA, ahora);
        hechos' := hechos + {x.id};
      } else {
        hechos' := hechos;
      }
    }

    /** One iteration of `verificarTimeouts`: the offer becomes TIMEOUT and
        the reassignment check runs for its request, as `Caducidad` says. */
    method Vencer(x: N.Fila, ahora: int)
      requires Valid() && 1 <= x.id <= |notificaciones| && notificaciones[x.id - 1].solicitudId == x.solicitudId
      modifies this`notificaciones
      ensures Valid() && 1 <= x.solicitudId <= |solicitudes|
      ensures notificaciones == Caducidad(entorno, old(notificaciones), x.id - 1, solicitudes[x.solicitudId - 1], ahora)
    {
      GuardarEstado(x.id, N.TIMEOUT, ahora);
      var sol := solicitudes[x.solicitudId - 1];
      BuscarSiguienteTecnico(sol, ahora);
    }

    /** `verificarTimeouts`: every expired pending offer becomes TIMEOUT and
        the reassignment check runs for its request, one offer after the
        other, as the fold `Barrido` with the check `ReasignarPor` says. The
        rows present before end up exactly as `Vencimiento` says, whatever
        is appended is a live offer, and no expired pending offer is left. */
    method VerificarTimeouts(ahora: int)
      requires Valid()
      modifies this`notificaciones
      ensures Valid()
      ensures var vs := R.Vencidas(old(notificaciones), N.PENDIENTE, ahora);
        notificaciones == Barrido(old(notificaciones), vs, |vs|, ReasignarPor(entorno, solicitudes, ahora), ahora)
      ensures |notificaciones| >= |old(notificaciones)|
      ensures notificaciones[..|old(notificaciones)|] == Vencimiento(old(notificaciones), ahora)
      ensures forall k :: |old(notificaciones)| <= k < |notificaciones| ==> Viva(notificaciones[k], ahora)
      ensures R.Vencidas(notificaciones, N.PENDIENTE, ahora) == []
    {
      var vencidas := R.Vencidas(notificaciones, N.PENDIENTE, ahora);
      ghost var t0 := notificaciones;
      VencidasEnTabla(t0, vencidas, ahora);
      var i := 0;
      while i < |vencidas|
        invariant 0 <= i <= |vencidas|
        invariant Valid()
        invariant notificaciones == Barrido(t0, vencidas, i, ReasignarPor(entorno, solicitudes, ahora), ahora)
      {
        VencerSiguiente(t0, vencidas, i, ahora);
        i := i + 1;
      }
      ReasignarPorVivas(entorno, solicitudes, ahora);
      BarridoVence(t0, ReasignarPor(entorno, solicitudes, ahora), ahora);
    }

    /** One expired offer of that loop, which started from the table `t0`:
        the table moves from the sweep over the offers before it to the
        sweep including it. */
    method VencerSiguiente(ghost t0: seq<N.Fila>, vencidas: seq<N.Fila>, i: int, ahora: int)
      requires Valid() && 0 <= i < |vencidas|
      requires forall m :: 0 <= m < |vencidas| ==> 1 <= vencidas[m].id <= |t0| && t0[vencidas[m].id - 1] == vencidas[m]
      requires notificaciones == Barrido(t0, vencidas, i, ReasignarPor(entorno, solicitudes, ahora), ahora)
      modifies this`notificaciones
      ensures Valid()
      ensures notificaciones == Barrido(t0, vencidas, i + 1, ReasignarPor(entorno, solicitudes, ahora), ahora)
    {
      ReasignarPorVivas(entorno, solicitudes, ahora);
      ReasignarPorEn(entorno, solicitudes, vencidas[i], ahora);
      VencerUna(t0, vencidas, i, ReasignarPor(entorno, solicitudes, ahora), ahora);
    }

    /** The same step for any check `f` that only appends live offers and
        that, for this offer, is `Reasignacion` for its request. */
    method VencerUna(ghost t0: seq<N.Fila>, vencidas: seq<N.Fila>, i: int,
                     ghost f: (seq<N.Fila>, N.Fila) -> seq<N.Fila>, ahora: int)
      requires Valid() && 0 <= i < |vencidas|
      requires forall m :: 0 <= m < |vencidas| ==> 1 <= vencidas[m].id <= |t0| && t0[vencidas[m].id - 1] == vencidas[m]
      requires SoloVivas(f, ahora)
      requires 1 <= vencidas[i].solicitudId <= |solicitudes| ==>
        forall t :: f(t, vencidas[i]) == Reasignacion(entorno, t, solicitudes[vencidas[i].solicitudId - 1], ahora)
      requires notificaciones == Barrido(t0, vencidas, i, f, ahora)
      modifies this`notificaciones
      ensures Valid()
      ensures notificaciones == Barrido(t0, vencidas, i + 1, f, ahora)
    {
      var x := vencidas[i];
      ghost var antes := notificaciones;
      BarridoMarca(t0, vencidas, i, f, ahora);
      assert notificaciones[x.id - 1] == notificaciones[..|t0|][x.id - 1];
      Vencer(x, ahora);
      ghost var m := antes[x.id - 1 := CambiarEstado(antes[x.id - 1], N.TIMEOUT, ahora)];
      CaducidadEs(entorno, antes, x.id - 1, solicitudes[x.solicitudId - 1], ahora, m);
      assert PasoDeBarrido(antes, x, f, ahora) == m + f(m, x);
    }

    /** `obtenerEstadoEmergencia`: NotFound for an unknown request, its
        response otherwise. */
    function ObtenerEstadoEmergencia(solicitudId: int): (r: Result<Vista>)
      reads this
      requires Valid()
      ensures r.Success? <==> exists s :: s in solicitudes && s.id == solicitudId
      ensures r.Success? ==> r.value.solicitudId == solicitudId
    {
      if 1 <= solicitudId <= |solicitudes| then
        Success(ConstruirRespuesta(entorno, notificaciones, solicitudes[solicitudId - 1]))
      else
        Failure(NotFound)
    }

    /** `obtenerNotificacionesPendientes`: a technician's pending offers. */
    function ObtenerNotificacionesPendientes(tecnicoId: int): (r: seq<N.Fila>)
      reads this
      ensures forall n :: n in r <==> n in notificaciones && n.tecnicoId == tecnicoId && n.estado == N.PENDIENTE
    {
      R.PorTecnicoYEstado(notificaciones, tecnicoId, N.PENDIENTE)
    }
  }
}
