/** The dispatch rules of `EmergenciaService` written as functions of the
    tables: the expanding radius search, the batch of offers a search round
    writes, the check that starts a new round, cancellation of the other
    offers after an acceptance, and expiry. The service methods are proved
    against these functions; the lemmas here state what the rules promise. */
module Despacho {
  import opened Comun
  import N = Notificaciones
  import S = Solicitudes
  import R = NotificacionRepositorio

  const TIMEOUT_SEGUNDOS := 90
  const RADIO_INICIAL_KM := 5
  const INCREMENTO_RADIO_KM := 2
  const MAX_RADIO_KM := 50

  datatype Punto = Punto(latitud: real, longitud: real)

  /** A row of the proximity query: a technician id and a distance in km. */
  datatype Candidato = Candidato(tecnicoId: int, distanciaKm: real)

  /** The coordinates stored for a user; either may be missing. */
  datatype Ubicacion = Ubicacion(latitud: Option<real>, longitud: Option<real>)

  /** What the emergency flow reads and never writes: the users and their
      coordinates, the subcategory names, the technician ids a lookup by id
      resolves, and the proximity query, which maps a point, a subcategory id
      and a radius in km to candidate rows in the order the database returns
      them. */
  datatype Entorno = Entorno(
    usuarios: map<int, Ubicacion>,
    subcategorias: map<int, string>,
    tecnicos: set<int>,
    buscar: (Punto, int, int) -> seq<Candidato>)

  /** The response the service returns for a request: its columns, the
      requester's coordinates, the assigned technician and its offers in
      contact order. */
  datatype Vista = Vista(
    solicitudId: int,
    estado: S.EstadoSolicitud,
    fechaSolicitud: int,
    descripcion: Option<string>,
    direccion: Option<string>,
    latitud: Option<real>,
    longitud: Option<real>,
    tecnicoAsignado: Option<int>,
    notificaciones: seq<N.Fila>)

  /** The title of an emergency request: a fixed prefix and the subcategory
      name. */
  function TituloEmergencia(subcategoria: string): (titulo: string)
    ensures |titulo| == 12 + |subcategoria|
    ensures titulo[..12] == "EMERGENCIA: " && titulo[12..] == subcategoria
  {
    "EMERGENCIA: " + subcategoria
  }

  // ---------------------------------------------------------------------------
  // The radius search

  function Medida(r: int): nat
  {
    if r < MAX_RADIO_KM then MAX_RADIO_KM - r else 0
  }

  /** The radii one search probes when it starts at `r`: it stops at the first
      non-empty answer, or after probing a radius that is not below 50. */
  function Sondeos(e: Entorno, p: Punto, sub: int, r: int): seq<int>
    decreases Medida(r)
  {
    if e.buscar(p, sub, r) != [] || r >= MAX_RADIO_KM then [r]
    else [r] + Sondeos(e, p, sub, r + INCREMENTO_RADIO_KM)
  }

  /** The candidates one search ends with: the first non-empty answer, or
      nothing. */
  function Hallados(e: Entorno, p: Punto, sub: int, r: int): seq<Candidato>
    decreases Medida(r)
  {
    var cs := e.buscar(p, sub, r);
    if cs != [] then cs
    else if r < MAX_RADIO_KM then Hallados(e, p, sub, r + INCREMENTO_RADIO_KM)
    else []
  }

  /** From an odd radius no larger than 51 the search probes r, r+2, r+4, ...
      and never beyond 51; every probe but the last came back empty, the
      result is the answer of the last probe, and an empty result means the
      search went all the way to 51. */
  lemma {:induction false} SondeosAcotados(e: Entorno, p: Punto, sub: int, r: int)
    requires r % 2 == 1 && r <= MAX_RADIO_KM + 1
    ensures var rs := Sondeos(e, p, sub, r);
      && 1 <= |rs| <= (MAX_RADIO_KM + 1 - r) / 2 + 1
      && (forall i :: 0 <= i < |rs| ==> rs[i] == r + 2 * i)
      && (forall i :: 0 <= i < |rs| - 1 ==> e.buscar(p, sub, rs[i]) == [])
      && Hallados(e, p, sub, r) == e.buscar(p, sub, rs[|rs| - 1])
      && (Hallados(e, p, sub, r) == [] ==>
            rs[|rs| - 1] == MAX_RADIO_KM + 1 && |rs| == (MAX_RADIO_KM + 1 - r) / 2 + 1)
    decreases Medida(r)
  {
    if e.buscar(p, sub, r) != [] || r >= MAX_RADIO_KM {
    } else {
      var r' := r + INCREMENTO_RADIO_KM;
      SondeosAcotados(e, p, sub, r');
      var rs' := Sondeos(e, p, sub, r');
      var rs := Sondeos(e, p, sub, r);
      assert rs == [r] + rs';
      forall i | 0 <= i < |rs| ensures rs[i] == r + 2 * i {
        if i > 0 {
          assert rs[i] == rs'[i - 1];
        }
      }
      forall i | 0 <= i < |rs| - 1 ensures e.buscar(p, sub, rs[i]) == [] {
        if i > 0 {
          assert rs[i] == rs'[i - 1];
        }
      }
    }
  }

  /** The first search of an emergency, from 5 km, probes at most 24 radii,
      all between 5 and 51 km. */
  lemma BusquedaInicial(e: Entorno, p: Punto, sub: int)
    ensures var rs := Sondeos(e, p, sub, RADIO_INICIAL_KM);
      && |rs| <= 24
      && (forall i :: 0 <= i < |rs| ==> RADIO_INICIAL_KM <= rs[i] <= MAX_RADIO_KM + 1)
      && (Hallados(e, p, sub, RADIO_INICIAL_KM) == [] ==> |rs| == 24 && rs[|rs| - 1] == 51)
  {
    SondeosAcotados(e, p, sub, RADIO_INICIAL_KM);
  }

  /** A reassignment search, from 7 km, probes at most 23 radii. */
  lemma BusquedaReasignacion(e: Entorno, p: Punto, sub: int)
    ensures var rs := Sondeos(e, p, sub, RADIO_INICIAL_KM + INCREMENTO_RADIO_KM);
      && |rs| <= 23
      && (forall i :: 0 <= i < |rs| ==> 7 <= rs[i] <= MAX_RADIO_KM + 1)
  {
    SondeosAcotados(e, p, sub, RADIO_INICIAL_KM + INCREMENTO_RADIO_KM);
  }

  // ---------------------------------------------------------------------------
  // The offers a round writes

  function ResolubleEn(tecnicos: set<int>): Candidato -> bool
  {
    (c: Candidato) => c.tecnicoId in tecnicos
  }

  /** The candidates whose technician the lookup by id finds, in answer order;
      the others are skipped. */
  function Resolubles(e: Entorno, cs: seq<Candidato>): (rs: seq<Candidato>)
    ensures forall c :: c in rs <==> c in cs && c.tecnicoId in e.tecnicos
  {
    Filtrar(cs, ResolubleEn(e.tecnicos))
  }

  /** One more candidate extends the resolvable ones by itself exactly
      when its technician resolves. */
  lemma ResolublesPaso(e: Entorno, cs: seq<Candidato>, i: int)
    requires 0 <= i < |cs|
    ensures cs[i].tecnicoId in e.tecnicos ==> Resolubles(e, cs[..i + 1]) == Resolubles(e, cs[..i]) + [cs[i]]
    ensures cs[i].tecnicoId !in e.tecnicos ==> Resolubles(e, cs[..i + 1]) == Resolubles(e, cs[..i])
  {
    assert cs[..i + 1] == cs[..i] + [cs[i]];
    FiltrarAlFinal(cs[..i], cs[i], ResolubleEn(e.tecnicos));
    assert Resolubles(e, cs[..i]) + [] == Resolubles(e, cs[..i]);
  }

  /** The row written for the `orden`-th offer of a round: pending, sent now,
      due 90 seconds later, with the distance in metres. */
  function Oferta(id: int, solicitudId: int, c: Candidato, orden: int, ahora: int): N.Fila
  {
    N.Fila(id, solicitudId, c.tecnicoId, N.PENDIENTE, ahora, None, ahora + TIMEOUT_SEGUNDOS,
           Some(c.distanciaKm * 1000.0), Some(orden), ahora, Some(ahora))
  }

  /** The rows one round appends to a table of `base` rows. */
  function Lote(solicitudId: int, base: int, rs: seq<Candidato>, ahora: int): seq<N.Fila>
  {
    seq(|rs|, i requires 0 <= i < |rs| => Oferta(base + 1 + i, solicitudId, rs[i], i + 1, ahora))
  }

  lemma LoteExtiende(solicitudId: int, base: int, rs: seq<Candidato>, c: Candidato, ahora: int)
    ensures Lote(solicitudId, base, rs + [c], ahora)
         == Lote(solicitudId, base, rs, ahora) + [Oferta(base + 1 + |rs|, solicitudId, c, |rs| + 1, ahora)]
  {
    var a := Lote(solicitudId, base, rs + [c], ahora);
    var b := Lote(solicitudId, base, rs, ahora) + [Oferta(base + 1 + |rs|, solicitudId, c, |rs| + 1, ahora)];
    assert |a| == |b|;
    forall i | 0 <= i < |a| ensures a[i] == b[i] {
      if i < |rs| {
        assert (rs + [c])[i] == rs[i];
      }
    }
  }

  /** Appending the next offer to a table that ends with a partial round
      gives the table ending with the round one candidate longer. */
  lemma LoteAnexar(t0: seq<N.Fila>, solicitudId: int, rs: seq<Candidato>, c: Candidato, ahora: int)
    ensures var t := t0 + Lote(solicitudId, |t0|, rs, ahora);
      t + [Oferta(|t| + 1, solicitudId, c, |rs| + 1, ahora)] == t0 + Lote(solicitudId, |t0|, rs + [c], ahora)
  {
    LoteExtiende(solicitudId, |t0|, rs, c, ahora);
  }

  /** The offers of a round: ranks run 1, 2, ..., k without gaps (a skipped
      candidate does not use up a rank), ids continue the table, every offer
      is pending, goes to a resolvable technician and is due 90 seconds after
      it was sent. */
  lemma LoteOfertas(e: Entorno, solicitudId: int, base: int, cs: seq<Candidato>, ahora: int)
    ensures var rs := Resolubles(e, cs);
      var l := Lote(solicitudId, base, rs, ahora);
      && |l| == |rs| <= |cs|
      && (forall i :: 0 <= i < |l| ==>
            && l[i].id == base + 1 + i
            && l[i].ordenContacto == Some(i + 1)
            && l[i].solicitudId == solicitudId
            && l[i].tecnicoId in e.tecnicos
            && l[i].estado == N.PENDIENTE
            && l[i].timeoutEn == l[i].fechaEnvio + TIMEOUT_SEGUNDOS)
  {
    var rs := Resolubles(e, cs);
    var l := Lote(solicitudId, base, rs, ahora);
    forall i | 0 <= i < |l| ensures l[i].tecnicoId in e.tecnicos {
      assert rs[i] in rs;
    }
  }

  /** A fresh round is live at the time it is sent. */
  lemma LoteVivo(solicitudId: int, base: int, rs: seq<Candidato>, ahora: int)
    ensures var l := Lote(solicitudId, base, rs, ahora);
      forall i :: 0 <= i < |l| ==>
        && l[i].solicitudId == solicitudId && l[i].id == base + 1 + i
        && l[i].ordenContacto == Some(i + 1) && Viva(l[i], ahora)
  {
  }

  /** Every candidate whose technician resolves gets an offer in the round. */
  lemma LoteCubre(e: Entorno, solicitudId: int, base: int, cs: seq<Candidato>, ahora: int, c: Candidato)
    requires c in cs && c.tecnicoId in e.tecnicos
    ensures var l := Lote(solicitudId, base, Resolubles(e, cs), ahora);
      exists i :: 0 <= i < |l| && l[i].tecnicoId == c.tecnicoId && l[i].distanciaMetros == Some(c.distanciaKm * 1000.0)
  {
    var rs := Resolubles(e, cs);
    var l := Lote(solicitudId, base, rs, ahora);
    assert c in rs;
    var i :| 0 <= i < |rs| && rs[i] == c;
    assert l[i].tecnicoId == c.tecnicoId;
  }

  // ---------------------------------------------------------------------------
  // State changes of single rows

  /** A technician's answer: new state, response time, modification time. */
  function Responder(n: N.Fila, estado: N.EstadoNotificacion, ahora: int): N.Fila
  {
    n.(estado := estado, fechaRespuesta := Some(ahora), fechaModificacion := Some(ahora))
  }

  /** A state change made by the service itself (cancel, expire). */
  function CambiarEstado(n: N.Fila, estado: N.EstadoNotificacion, ahora: int): N.Fila
  {
    n.(estado := estado, fechaModificacion := Some(ahora))
  }

  /** Acceptance as seen by the request: the offer's technician is assigned,
      the request becomes ASIGNADA and work starts now. */
  function Asignar(s: S.Fila, tecnicoId: int, ahora: int): S.Fila
  {
    s.(tecnicoId := Some(tecnicoId), estado := S.ASIGNADA, fechaInicioTrabajo := Some(ahora),
       fechaModificacion := Some(ahora))
  }

  /** The table with the rows whose identity is in `ids` moved to `estado`:
      the state the cancel and expiry loops build up one row at a time. */
  function Marcar(t: seq<N.Fila>, ids: set<int>, estado: N.EstadoNotificacion, ahora: int): (r: seq<N.Fila>)
    ensures |r| == |t|
  {
    seq(|t|, k requires 0 <= k < |t| => if k + 1 in ids then CambiarEstado(t[k], estado, ahora) else t[k])
  }

  /** Marking one more row is a single update of that row; marking a row
      twice changes nothing more. */
  lemma MarcarUno(t: seq<N.Fila>, ids: set<int>, id: int, estado: N.EstadoNotificacion, ahora: int)
    requires 1 <= id <= |t|
    ensures var m := Marcar(t, ids, estado, ahora);
      Marcar(t, ids + {id}, estado, ahora) == m[id - 1 := CambiarEstado(m[id - 1], estado, ahora)]
  {
  }

  // ---------------------------------------------------------------------------
  // Reassignment

  /** An offer that can still be answered: pending and due strictly after
      `ahora`. */
  predicate Viva(n: N.Fila, ahora: int)
  {
    n.estado == N.PENDIENTE && n.timeoutEn > ahora
  }

  function VivaEn(ahora: int): N.Fila -> bool
  {
    (n: N.Fila) => Viva(n, ahora)
  }

  /** The live offers of a request, in contact order. */
  function NoContactados(t: seq<N.Fila>, solicitudId: int, ahora: int): (r: seq<N.Fila>)
    ensures forall n :: n in r <==> n in t && n.solicitudId == solicitudId && Viva(n, ahora)
  {
    Filtrar(R.PorSolicitudOrdenadas(t, solicitudId), VivaEn(ahora))
  }

  /** Whether some offer of the request is live, read from the last row
      back: the test the reassignment check makes with `NoContactados`. */
  predicate ConOfertaViva(t: seq<N.Fila>, solicitudId: int, ahora: int)
    decreases |t|
  {
    |t| > 0
    && ((t[|t| - 1].solicitudId == solicitudId && Viva(t[|t| - 1], ahora))
        || ConOfertaViva(t[..|t| - 1], solicitudId, ahora))
  }

  /** `ConOfertaViva` holds exactly when the table holds a live offer of the
      request. */
  lemma {:induction false} ConOfertaVivaExiste(t: seq<N.Fila>, solicitudId: int, ahora: int)
    ensures ConOfertaViva(t, solicitudId, ahora) <==> exists n :: n in t && n.solicitudId == solicitudId && Viva(n, ahora)
    decreases |t|
  {
    if |t| > 0 {
      var u := t[..|t| - 1];
      ConOfertaVivaExiste(u, solicitudId, ahora);
      assert t == u + [t[|t| - 1]];
      if n :| n in t && n.solicitudId == solicitudId && Viva(n, ahora) {
        if n != t[|t| - 1] {
          assert n in u;
        }
      }
      if ConOfertaViva(u, solicitudId, ahora) {
        var n :| n in u && n.solicitudId == solicitudId && Viva(n, ahora);
        assert n in t;
      }
    }
  }

  /** The reassignment check's test: the live offers of the request are not
      empty exactly when `ConOfertaViva` holds. */
  lemma ConOfertaVivaEsNoContactados(t: seq<N.Fila>, solicitudId: int, ahora: int)
    ensures ConOfertaViva(t, solicitudId, ahora) <==> NoContactados(t, solicitudId, ahora) != []
  {
    ConOfertaVivaExiste(t, solicitudId, ahora);
    var nc := NoContactados(t, solicitudId, ahora);
    if nc != [] {
      assert nc[0] in nc;
    }
  }

  /** The rows a reassignment check appends: none while the request has a
      live offer or the requester lacks a coordinate, otherwise a full search
      round restarted at 7 km with ranks from 1 again. */
  function Reasignacion(e: Entorno, t: seq<N.Fila>, sol: S.Fila, ahora: int): (l: seq<N.Fila>)
    requires sol.usuarioId in e.usuarios
    ensures forall i :: 0 <= i < |l| ==>
      && l[i].solicitudId == sol.id && l[i].id == |t| + 1 + i
      && l[i].ordenContacto == Some(i + 1) && Viva(l[i], ahora)
  {
    var u := e.usuarios[sol.usuarioId];
    if ConOfertaViva(t, sol.id, ahora) then []
    else if u.latitud.None? || u.longitud.None? then []
    else
      var p := Punto(u.latitud.value, u.longitud.value);
      var rs := Resolubles(e, Hallados(e, p, sol.subcategoriaId, RADIO_INICIAL_KM + INCREMENTO_RADIO_KM));
      LoteVivo(sol.id, |t|, rs, ahora);
      Lote(sol.id, |t|, rs, ahora)
  }

  /** The two outcomes of a reassignment check, read off its definition. */
  lemma ReasignacionCasos(e: Entorno, t: seq<N.Fila>, sol: S.Fila, ahora: int)
    requires sol.usuarioId in e.usuarios
    ensures var u := e.usuarios[sol.usuarioId];
      NoContactados(t, sol.id, ahora) != [] || u.latitud.None? || u.longitud.None? ==>
        Reasignacion(e, t, sol, ahora) == []
    ensures var u := e.usuarios[sol.usuarioId];
      NoContactados(t, sol.id, ahora) == [] && u.latitud.Some? && u.longitud.Some? ==>
        Reasignacion(e, t, sol, ahora)
        == Lote(sol.id, |t|, Resolubles(e, Hallados(e, Punto(u.latitud.value, u.longitud.value), sol.subcategoriaId,
                                                    RADIO_INICIAL_KM + INCREMENTO_RADIO_KM)), ahora)
  {
    ConOfertaVivaEsNoContactados(t, sol.id, ahora);
  }

  /** A reassignment writes offers exactly when no offer of the request is
      live, the requester has both coordinates and the 7 km search finds a
      resolvable technician. */
  lemma ReasignacionCuando(e: Entorno, t: seq<N.Fila>, sol: S.Fila, ahora: int)
    requires sol.usuarioId in e.usuarios
    ensures var u := e.usuarios[sol.usuarioId];
      Reasignacion(e, t, sol, ahora) != [] <==>
        && (forall n :: n in t && n.solicitudId == sol.id ==> !Viva(n, ahora))
        && u.latitud.Some? && u.longitud.Some?
        && Resolubles(e, Hallados(e, Punto(u.latitud.value, u.longitud.value), sol.subcategoriaId,
                                  RADIO_INICIAL_KM + INCREMENTO_RADIO_KM)) != []
  {
    ConOfertaVivaExiste(t, sol.id, ahora);
  }

  /** A request none of whose offers is live has no uncontacted offer. */
  lemma {:induction false} SinVivas(t: seq<N.Fila>, solicitudId: int, ahora: int)
    requires forall m :: m in t && m.solicitudId == solicitudId ==> !Viva(m, ahora)
    ensures NoContactados(t, solicitudId, ahora) == []
  {
    var ordenadas := R.PorSolicitudOrdenadas(t, solicitudId);
    forall i | 0 <= i < |ordenadas| ensures !VivaEn(ahora)(ordenadas[i]) {
      assert ordenadas[i] in ordenadas;
    }
    R.VaciaSiNinguna(ordenadas, VivaEn(ahora));
  }

  /** Nothing keeps a technician who already had an offer for the request out
      of a reassignment round: a second offer to the same technician for the
      same request is written. */
  lemma ReasignacionRepiteTecnico(e: Entorno, t: seq<N.Fila>, sol: S.Fila, ahora: int, n: N.Fila)
    requires sol.usuarioId in e.usuarios
    requires e.usuarios[sol.usuarioId].latitud.Some? && e.usuarios[sol.usuarioId].longitud.Some?
    requires forall m :: m in t && m.solicitudId == sol.id ==> !Viva(m, ahora)
    requires n in t && n.solicitudId == sol.id && n.tecnicoId in e.tecnicos
    requires var u := e.usuarios[sol.usuarioId];
      var cs := e.buscar(Punto(u.latitud.value, u.longitud.value), sol.subcategoriaId,
                         RADIO_INICIAL_KM + INCREMENTO_RADIO_KM);
      cs != [] && cs[0].tecnicoId == n.tecnicoId
    ensures var l := Reasignacion(e, t, sol, ahora);
      |l| > 0 && l[0].tecnicoId == n.tecnicoId && l[0].solicitudId == n.solicitudId && l[0] != n
  {
    var u := e.usuarios[sol.usuarioId];
    var p := Punto(u.latitud.value, u.longitud.value);
    var cs := e.buscar(p, sol.subcategoriaId, RADIO_INICIAL_KM + INCREMENTO_RADIO_KM);
    assert Hallados(e, p, sol.subcategoriaId, RADIO_INICIAL_KM + INCREMENTO_RADIO_KM) == cs;
    ResolublesCabeza(e, cs);
    ConOfertaVivaExiste(t, sol.id, ahora);
    var l := Reasignacion(e, t, sol, ahora);
    assert l == Lote(sol.id, |t|, Resolubles(e, cs), ahora);
    assert l[0] == Oferta(|t| + 1, sol.id, cs[0], 1, ahora);
  }

  /** A first candidate whose technician resolves heads the resolvable ones. */
  lemma ResolublesCabeza(e: Entorno, cs: seq<Candidato>)
    requires cs != [] && cs[0].tecnicoId in e.tecnicos
    ensures Resolubles(e, cs) != [] && Resolubles(e, cs)[0] == cs[0]
  {
    assert cs == [cs[0]] + cs[1..];
    FiltrarConcat([cs[0]], cs[1..], ResolubleEn(e.tecnicos));
  }

  // ---------------------------------------------------------------------------
  // Cancellation after an acceptance

  /** The offers `cancelarOtrasNotificaciones` withdraws: pending offers of the
      request other than the accepted one. */
  predicate PorCancelar(n: N.Fila, solicitudId: int, aceptadaId: int)
  {
    n.solicitudId == solicitudId && n.estado == N.PENDIENTE && n.id != aceptadaId
  }

  /** The table after the other offers of a request are withdrawn. */
  function Cancelacion(t: seq<N.Fila>, solicitudId: int, aceptadaId: int, ahora: int): (r: seq<N.Fila>)
    ensures |r| == |t|
  {
    seq(|t|, i requires 0 <= i < |t| =>
      if PorCancelar(t[i], solicitudId, aceptadaId) then CambiarEstado(t[i], N.CANCELADA, ahora) else t[i])
  }

  /** Only the rows the by-request-and-state query returns for PENDIENTE,
      minus the accepted one, change, and each becomes CANCELADA; offers of
      other requests and offers in other states are left as they were. */
  lemma CancelacionMarco(t: seq<N.Fila>, solicitudId: int, aceptadaId: int, ahora: int)
    ensures var c := Cancelacion(t, solicitudId, aceptadaId, ahora);
      forall i :: 0 <= i < |t| ==>
        && (c[i] != t[i] <==> t[i] in R.PorSolicitudYEstado(t, solicitudId, N.PENDIENTE) && t[i].id != aceptadaId)
        && (c[i] != t[i] ==> c[i].estado == N.CANCELADA && c[i].id == t[i].id && c[i].tecnicoId == t[i].tecnicoId)
  {
    var c := Cancelacion(t, solicitudId, aceptadaId, ahora);
    forall i | 0 <= i < |t|
      ensures c[i] != t[i] <==> t[i] in R.PorSolicitudYEstado(t, solicitudId, N.PENDIENTE) && t[i].id != aceptadaId
    {
      assert t[i] in t;
    }
  }

  /** Marking exactly the offers to withdraw is the cancellation. */
  lemma CancelacionPorMarcas(t: seq<N.Fila>, ids: set<int>, solicitudId: int, aceptadaId: int, ahora: int)
    requires forall k :: 0 <= k < |t| ==> (k + 1 in ids <==> PorCancelar(t[k], solicitudId, aceptadaId))
    ensures Marcar(t, ids, N.CANCELADA, ahora) == Cancelacion(t, solicitudId, aceptadaId, ahora)
  {
  }

  /** The cancel loop's bookkeeping: the `i`-th row the pending-offer query
      returned is row `id - 1` of the table, and recording its identity
      unless it is the accepted offer keeps the record exact. */
  lemma ApuntarPendiente(t: seq<N.Fila>, pendientes: seq<N.Fila>, ids: set<int>, i: int,
                         solicitudId: int, aceptadaId: int)
    requires IdsSecuenciales(t) && pendientes == R.PorSolicitudYEstado(t, solicitudId, N.PENDIENTE)
    requires 0 <= i < |pendientes|
    requires forall id :: id in ids ==> 1 <= id <= |t| && PorCancelar(t[id - 1], solicitudId, aceptadaId)
    requires forall m :: 0 <= m < i ==> pendientes[m].id in ids || pendientes[m].id == aceptadaId
    ensures 1 <= pendientes[i].id <= |t| && t[pendientes[i].id - 1] == pendientes[i]
    ensures var ids' := if pendientes[i].id != aceptadaId then ids + {pendientes[i].id} else ids;
      && (forall id :: id in ids' ==> 1 <= id <= |t| && PorCancelar(t[id - 1], solicitudId, aceptadaId))
      && (forall m :: 0 <= m < i + 1 ==> pendientes[m].id in ids' || pendientes[m].id == aceptadaId)
  {
    var x := pendientes[i];
    assert x in pendientes;
    assert x in t && x.solicitudId == solicitudId && x.estado == N.PENDIENTE;
    var j :| 0 <= j < |t| && t[j] == x;
    assert x.id == j + 1;
  }

  /** Marking the identity of every row the pending-offer query returned
      but the accepted one, and nothing else, is the cancellation. */
  lemma MarcasDePendientes(t: seq<N.Fila>, pendientes: seq<N.Fila>, ids: set<int>,
                           solicitudId: int, aceptadaId: int, ahora: int)
    requires IdsSecuenciales(t) && pendientes == R.PorSolicitudYEstado(t, solicitudId, N.PENDIENTE)
    requires forall id :: id in ids ==> 1 <= id <= |t| && PorCancelar(t[id - 1], solicitudId, aceptadaId)
    requires forall m :: 0 <= m < |pendientes| ==> pendientes[m].id in ids || pendientes[m].id == aceptadaId
    ensures Marcar(t, ids, N.CANCELADA, ahora) == Cancelacion(t, solicitudId, aceptadaId, ahora)
  {
    forall k | 0 <= k < |t|
      ensures k + 1 in ids <==> PorCancelar(t[k], solicitudId, aceptadaId)
    {
      if PorCancelar(t[k], solicitudId, aceptadaId) {
        assert t[k] in t;
        assert t[k] in pendientes;
        var m :| 0 <= m < |pendientes| && pendientes[m] == t[k];
      }
    }
    CancelacionPorMarcas(t, ids, solicitudId, aceptadaId, ahora);
  }

  /** Row `i` holds identity `i + 1`, as IDENTITY keys in a table nothing is
      deleted from. */
  predicate IdsSecuenciales(t: seq<N.Fila>)
  {
    forall i :: 0 <= i < |t| ==> t[i].id == i + 1
  }

  /** The offers table after offer `i` is accepted: the offer records the
      answer, then the request's other pending offers are withdrawn. */
  function Aceptacion(t: seq<N.Fila>, i: int, ahora: int): (r: seq<N.Fila>)
    requires 0 <= i < |t|
    ensures |r| == |t|
  {
    Cancelacion(t[i := Responder(t[i], N.ACEPTADA, ahora)], t[i].solicitudId, t[i].id, ahora)
  }

  /** After an acceptance the accepted offer is ACEPTADA and no offer of that
      request is pending: every other pending one is cancelled. Offers of
      other requests are untouched. */
  lemma AceptacionSinPendientes(t: seq<N.Fila>, i: int, ahora: int)
    requires IdsSecuenciales(t) && 0 <= i < |t|
    ensures var c := Aceptacion(t, i, ahora);
      && c[i] == Responder(t[i], N.ACEPTADA, ahora)
      && (forall n :: n in c && n.solicitudId == t[i].solicitudId ==> n.estado != N.PENDIENTE)
      && (forall k :: 0 <= k < |t| && t[k].solicitudId != t[i].solicitudId ==> c[k] == t[k])
  {
    var t1 := t[i := Responder(t[i], N.ACEPTADA, ahora)];
    var c := Aceptacion(t, i, ahora);
    forall n | n in c && n.solicitudId == t[i].solicitudId ensures n.estado != N.PENDIENTE {
      var k :| 0 <= k < |c| && c[k] == n;
      if k != i {
        assert t1[k].id == k + 1;
      }
    }
  }

  /** The offers table after offer `i` is rejected: the offer records the
      answer, then the reassignment check for `sol` may append a new round. */
  function Rechazo(e: Entorno, t: seq<N.Fila>, i: int, sol: S.Fila, ahora: int): (r: seq<N.Fila>)
    requires 0 <= i < |t| && sol.usuarioId in e.usuarios
    ensures |r| >= |t|
  {
    var t1 := t[i := Responder(t[i], N.RECHAZADA, ahora)];
    t1 + Reasignacion(e, t1, sol, ahora)
  }

  /** The table after the expired offer at index `i` becomes TIMEOUT and the
      reassignment check runs for its request `sol`. */
  function Caducidad(e: Entorno, t: seq<N.Fila>, i: int, sol: S.Fila, ahora: int): (r: seq<N.Fila>)
    requires 0 <= i < |t| && sol.usuarioId in e.usuarios
    ensures |r| >= |t|
  {
    var t1 := t[i := CambiarEstado(t[i], N.TIMEOUT, ahora)];
    t1 + Reasignacion(e, t1, sol, ahora)
  }

  /** `Caducidad` spelled out, for callers that name the marked table. */
  lemma CaducidadEs(e: Entorno, t: seq<N.Fila>, i: int, sol: S.Fila, ahora: int, m: seq<N.Fila>)
    requires 0 <= i < |t| && sol.usuarioId in e.usuarios
    requires m == t[i := CambiarEstado(t[i], N.TIMEOUT, ahora)]
    ensures Caducidad(e, t, i, sol, ahora) == m + Reasignacion(e, m, sol, ahora)
  {
  }

  /** A rejection changes only the rejected offer among the existing rows and
      appends only live offers of the same request. */
  lemma RechazoMarco(e: Entorno, t: seq<N.Fila>, i: int, sol: S.Fila, ahora: int)
    requires 0 <= i < |t| && sol.usuarioId in e.usuarios
    ensures var r := Rechazo(e, t, i, sol, ahora);
      && r[i].estado == N.RECHAZADA && r[i].fechaRespuesta == Some(ahora)
      && (forall k :: 0 <= k < |t| && k != i ==> r[k] == t[k])
      && (forall k :: |t| <= k < |r| ==> r[k].solicitudId == sol.id && Viva(r[k], ahora))
  {
    var t1 := t[i := Responder(t[i], N.RECHAZADA, ahora)];
    AnexoVivo(t1, Reasignacion(e, t1, sol, ahora), sol.id, ahora);
  }

  /** Rows appended behind a table keep their properties at their new
      positions. */
  lemma AnexoVivo(t: seq<N.Fila>, l: seq<N.Fila>, solicitudId: int, ahora: int)
    requires forall j :: 0 <= j < |l| ==> l[j].solicitudId == solicitudId && Viva(l[j], ahora)
    ensures forall k :: 0 <= k < |t| ==> (t + l)[k] == t[k]
    ensures forall k :: |t| <= k < |t + l| ==> (t + l)[k].solicitudId == solicitudId && Viva((t + l)[k], ahora)
  {
    forall k | |t| <= k < |t + l| ensures (t + l)[k].solicitudId == solicitudId && Viva((t + l)[k], ahora) {
      assert (t + l)[k] == l[k - |t|];
    }
  }

  // ---------------------------------------------------------------------------
  // Expiry

  /** The table after the sweep's state changes: exactly the expired pending
      offers become TIMEOUT. */
  function Vencimiento(t: seq<N.Fila>, ahora: int): (r: seq<N.Fila>)
    ensures |r| == |t|
  {
    seq(|t|, i requires 0 <= i < |t| =>
      if R.Vencida(t[i], N.PENDIENTE, ahora) then CambiarEstado(t[i], N.TIMEOUT, ahora) else t[i])
  }

  /** Marking exactly the expired pending offers is the expiry. */
  lemma VencimientoPorMarcas(t: seq<N.Fila>, ids: set<int>, ahora: int)
    requires forall k :: 0 <= k < |t| ==> (k + 1 in ids <==> R.Vencida(t[k], N.PENDIENTE, ahora))
    ensures Marcar(t, ids, N.TIMEOUT, ahora) == Vencimiento(t, ahora)
  {
  }

  /** Every row the expired-offer query returns is the row of `t` at the
      position its identity gives. */
  lemma VencidasEnTabla(t: seq<N.Fila>, vencidas: seq<N.Fila>, ahora: int)
    requires IdsSecuenciales(t) && vencidas == R.Vencidas(t, N.PENDIENTE, ahora)
    ensures forall m :: 0 <= m < |vencidas| ==> 1 <= vencidas[m].id <= |t| && t[vencidas[m].id - 1] == vencidas[m]
  {
    forall m | 0 <= m < |vencidas| ensures 1 <= vencidas[m].id <= |t| && t[vencidas[m].id - 1] == vencidas[m] {
      assert vencidas[m] in vencidas;
      var j :| 0 <= j < |t| && t[j] == vencidas[m];
    }
  }

  /** Marking the identity of every row the expired-offer query returned,
      and nothing else, is the expiry. */
  lemma MarcasDeVencidas(t: seq<N.Fila>, vencidas: seq<N.Fila>, ids: set<int>, ahora: int)
    requires IdsSecuenciales(t) && vencidas == R.Vencidas(t, N.PENDIENTE, ahora)
    requires forall id :: id in ids ==> 1 <= id <= |t| && R.Vencida(t[id - 1], N.PENDIENTE, ahora)
    requires forall m :: 0 <= m < |vencidas| ==> vencidas[m].id in ids
    ensures Marcar(t, ids, N.TIMEOUT, ahora) == Vencimiento(t, ahora)
  {
    forall k | 0 <= k < |t|
      ensures k + 1 in ids <==> R.Vencida(t[k], N.PENDIENTE, ahora)
    {
      if R.Vencida(t[k], N.PENDIENTE, ahora) {
        assert t[k] in t;
        assert t[k] in vencidas;
        var m :| 0 <= m < |vencidas| && vencidas[m] == t[k];
      }
    }
    VencimientoPorMarcas(t, ids, ahora);
  }

  /** The sweep changes exactly the rows the expired-offer query returns, and
      afterwards (even with live offers appended) that query returns nothing,
      so a second sweep at the same instant finds nothing to do. */
  lemma VencimientoExacto(t: seq<N.Fila>, nuevas: seq<N.Fila>, ahora: int)
    requires forall k :: 0 <= k < |nuevas| ==> Viva(nuevas[k], ahora)
    ensures var v := Vencimiento(t, ahora);
      && (forall i :: 0 <= i < |t| ==> (v[i] != t[i] <==> t[i] in R.Vencidas(t, N.PENDIENTE, ahora)))
      && (forall i :: 0 <= i < |t| ==> v[i] != t[i] ==> v[i].estado == N.TIMEOUT)
      && R.Vencidas(v + nuevas, N.PENDIENTE, ahora) == []
  {
    var v := Vencimiento(t, ahora);
    forall i | 0 <= i < |t|
      ensures v[i] != t[i] <==> t[i] in R.Vencidas(t, N.PENDIENTE, ahora)
    {
      assert t[i] in t;
    }
    R.VaciaSiNinguna(v + nuevas, R.VencidaEn(N.PENDIENTE, ahora));
    forall k | 0 <= k < |v + nuevas| ensures !R.VencidaEn(N.PENDIENTE, ahora)((v + nuevas)[k]) {
      if k >= |v| {
        assert (v + nuevas)[k] == nuevas[k - |v|];
      }
    }
  }

  /** One step of the sweep: expiring row `j` of the first `base` rows and
      appending only live offers updates row `j` among them and keeps every
      row from `base` on live. */
  lemma PasoDeVencimiento(antes: seq<N.Fila>, despues: seq<N.Fila>, base: int, j: int, ahora: int)
    requires 0 <= j < base <= |antes| <= |despues|
    requires despues[..|antes|] == antes[j := CambiarEstado(antes[j], N.TIMEOUT, ahora)]
    requires forall k :: base <= k < |antes| ==> Viva(antes[k], ahora)
    requires forall k :: |antes| <= k < |despues| ==> Viva(despues[k], ahora)
    ensures despues[..base] == antes[..base][j := CambiarEstado(antes[j], N.TIMEOUT, ahora)]
    ensures forall k :: base <= k < |despues| ==> Viva(despues[k], ahora)
  {
    forall k | base <= k < |antes| ensures Viva(despues[k], ahora) {
      assert despues[k] == despues[..|antes|][k];
    }
    assert despues[..base] == despues[..|antes|][..base];
  }

  /** A table whose old rows are the expiry of `t0` and whose appended rows
      are all live holds no expired pending offer. */
  lemma SinVencidasTras(t0: seq<N.Fila>, t: seq<N.Fila>, ahora: int)
    requires |t| >= |t0| && t[..|t0|] == Vencimiento(t0, ahora)
    requires forall k :: |t0| <= k < |t| ==> Viva(t[k], ahora)
    ensures R.Vencidas(t, N.PENDIENTE, ahora) == []
  {
    var nuevas := t[|t0|..];
    forall k | 0 <= k < |nuevas| ensures Viva(nuevas[k], ahora) {
      assert nuevas[k] == t[|t0| + k];
    }
    VencimientoExacto(t0, nuevas, ahora);
    assert t == t[..|t0|] + nuevas;
  }

  /** The request an offer points at, if `ss` holds it. */
  function SolicitudDe(ss: seq<S.Fila>, x: N.Fila): (o: Option<S.Fila>)
    ensures o.Some? <==> 1 <= x.solicitudId <= |ss|
    ensures o.Some? ==> o.value == ss[x.solicitudId - 1]
  {
    if 1 <= x.solicitudId <= |ss| then Some(ss[x.solicitudId - 1]) else None
  }

  /** The reassignment check for the request `o`, if there is one and its
      requester exists; nothing otherwise. */
  function ReasignacionDe(e: Entorno, t: seq<N.Fila>, o: Option<S.Fila>, ahora: int): (l: seq<N.Fila>)
    ensures forall k :: 0 <= k < |l| ==> Viva(l[k], ahora)
  {
    if o.Some? && o.value.usuarioId in e.usuarios then Reasignacion(e, t, o.value, ahora) else []
  }

  /** For an existing request and requester, it is `Reasignacion`. */
  lemma ReasignacionDeEs(e: Entorno, t: seq<N.Fila>, sol: S.Fila, ahora: int)
    requires sol.usuarioId in e.usuarios
    ensures ReasignacionDe(e, t, Some(sol), ahora) == Reasignacion(e, t, sol, ahora)
  {
  }

  /** At `timeoutEn == ahora` a pending offer is neither live nor expired. */
  lemma FronteraDelPlazo(t: seq<N.Fila>, n: N.Fila, ahora: int)
    requires n in t && n.estado == N.PENDIENTE && n.timeoutEn == ahora
    ensures !Viva(n, ahora)
    ensures n !in R.Vencidas(t, N.PENDIENTE, ahora)
    ensures n !in NoContactados(t, n.solicitudId, ahora)
  {
  }

  // ---------------------------------------------------------------------------
  // The response

  /** `construirRespuesta`: the request's columns, the requester's
      coordinates, the assigned technician, and the request's offers in
      contact order. */
  function ConstruirRespuesta(e: Entorno, t: seq<N.Fila>, sol: S.Fila): (v: Vista)
    requires sol.usuarioId in e.usuarios
    ensures v.solicitudId == sol.id && v.estado == sol.estado && v.tecnicoAsignado == sol.tecnicoId
    ensures forall n :: n in v.notificaciones <==> n in t && n.solicitudId == sol.id
  {
    var u := e.usuarios[sol.usuarioId];
    Vista(sol.id, sol.estado, sol.fechaSolicitud, sol.descripcion, sol.direccionServicio,
          u.latitud, u.longitud, sol.tecnicoId, R.PorSolicitudOrdenadas(t, sol.id))
  }

  /** The offers in a response are listed lowest contact rank first, each
      once per row of the table. */
  lemma RespuestaEnOrden(e: Entorno, t: seq<N.Fila>, sol: S.Fila)
    requires sol.usuarioId in e.usuarios
    ensures var v := ConstruirRespuesta(e, t, sol);
      && Ordenada(v.notificaciones, R.OrdenContactoAntes)
      && multiset(v.notificaciones) == multiset(Filtrar(t, R.DeSolicitud(sol.id)))
  {
    R.PorSolicitudEnOrden(t, sol.id);
  }
}
