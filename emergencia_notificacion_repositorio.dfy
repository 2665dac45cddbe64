/** The queries of `EmergenciaNotificacionRepository` as functions over the
    table, a sequence of rows in insertion order. */
module NotificacionRepositorio {
  import opened Comun
  import opened Notificaciones

  /** `ORDER BY ordenContacto ASC`; a NULL rank sorts after every number. */
  predicate OrdenContactoAntes(a: Fila, b: Fila)
  {
    match a.ordenContacto
    case None => b.ordenContacto.None?
    case Some(x) => b.ordenContacto.None? || x <= b.ordenContacto.value
  }

  lemma OrdenContactoTotal()
    ensures PreordenTotal(OrdenContactoAntes)
  {
  }

  function DeSolicitud(solicitudId: int): Fila -> bool
  {
    (n: Fila) => n.solicitudId == solicitudId
  }

  /** `findBySolicitudIdOrderByOrdenContactoAsc`: the offers of one request,
      lowest contact rank first. Rows of equal rank keep table order. */
  function PorSolicitudOrdenadas(t: seq<Fila>, solicitudId: int): (r: seq<Fila>)
    ensures forall n :: n in r <==> n in t && n.solicitudId == solicitudId
  {
    var s := Filtrar(t, DeSolicitud(solicitudId));
    MultisetMismosElementos(Ordenar(s, OrdenContactoAntes), s);
    Ordenar(s, OrdenContactoAntes)
  }

  /** The offers of a request come out lowest contact rank first, each row
      of the request exactly once. */
  lemma PorSolicitudEnOrden(t: seq<Fila>, solicitudId: int)
    ensures Ordenada(PorSolicitudOrdenadas(t, solicitudId), OrdenContactoAntes)
    ensures multiset(PorSolicitudOrdenadas(t, solicitudId)) == multiset(Filtrar(t, DeSolicitud(solicitudId)))
  {
    OrdenContactoTotal();
    OrdenarOrdena(Filtrar(t, DeSolicitud(solicitudId)), OrdenContactoAntes);
  }

  function DeTecnicoEn(tecnicoId: int, estado: EstadoNotificacion): Fila -> bool
  {
    (n: Fila) => n.tecnicoId == tecnicoId && n.estado == estado
  }

  /** `findByTecnicoIdAndEstado`: the offers of one technician in one state. */
  function PorTecnicoYEstado(t: seq<Fila>, tecnicoId: int, estado: EstadoNotificacion): (r: seq<Fila>)
    ensures forall n :: n in r <==> n in t && n.tecnicoId == tecnicoId && n.estado == estado
  {
    Filtrar(t, DeTecnicoEn(tecnicoId, estado))
  }

  /** The `WHERE` clause of `findNotificacionesVencidas`: the deadline is
      strictly before `ahora`. */
  predicate Vencida(n: Fila, estado: EstadoNotificacion, ahora: int)
  {
    n.estado == estado && n.timeoutEn < ahora
  }

  function VencidaEn(estado: EstadoNotificacion, ahora: int): Fila -> bool
  {
    n => Vencida(n, estado, ahora)
  }

  /** `findNotificacionesVencidas(estado, ahora)`. */
  function Vencidas(t: seq<Fila>, estado: EstadoNotificacion, ahora: int): (r: seq<Fila>)
    ensures forall n :: n in r <==> n in t && n.estado == estado && n.timeoutEn < ahora
  {
    Filtrar(t, VencidaEn(estado, ahora))
  }

  function DeSolicitudEn(solicitudId: int, estado: EstadoNotificacion): Fila -> bool
  {
    (n: Fila) => n.solicitudId == solicitudId && n.estado == estado
  }

  /** `findBySolicitudIdAndEstado`: the offers of one request in one state. */
  function PorSolicitudYEstado(t: seq<Fila>, solicitudId: int, estado: EstadoNotificacion): (r: seq<Fila>)
    ensures forall n :: n in r <==> n in t && n.solicitudId == solicitudId && n.estado == estado
  {
    Filtrar(t, DeSolicitudEn(solicitudId, estado))
  }

  /** A pending offer whose deadline is exactly `ahora` is not expired: the
      comparison is strict. */
  lemma VencidaEstricta(t: seq<Fila>, n: Fila, ahora: int)
    requires n in t && n.estado == PENDIENTE && n.timeoutEn == ahora
    ensures n !in Vencidas(t, PENDIENTE, ahora)
    ensures n in Vencidas(t, PENDIENTE, ahora + 1)
  {
  }

  /** An empty answer means no row of the table qualifies. */
  lemma {:induction false} VaciaSiNinguna<T(!new)>(s: seq<T>, p: T -> bool)
    ensures Filtrar(s, p) == [] <==> forall i :: 0 <= i < |s| ==> !p(s[i])
  {
    if Filtrar(s, p) != [] {
      var x := Filtrar(s, p)[0];
      assert x in Filtrar(s, p);
    } else {
      forall i | 0 <= i < |s| ensures !p(s[i]) {
        assert s[i] in s;
      }
    }
  }
}
