/** The sweep of `verificarTimeouts` as a fold over the expired offers: each
    step marks one offer TIMEOUT and appends what the reassignment check for
    its request sends, on the table the steps before it left. The fold takes
    the reassignment check as a function value, so the lemmas about the fold
    hold for any check that appends only live offers; `ReasignarPor` is the
    check of the dispatch rules. */
module Barridos {
  import S = Solicitudes
  import N = Notificaciones
  import R = NotificacionRepositorio
  import opened Comun
  import opened Despacho

  /** The reassignment check `verificarTimeouts` runs after expiring the
      offer `x`, on the table `t` it has just updated, as the function value
      the sweep takes: the check for the request of `x` as stored in `ss`,
      nothing for a request outside `ss`. */
  function ReasignarPor(e: Entorno, ss: seq<S.Fila>, ahora: int): (seq<N.Fila>, N.Fila) -> seq<N.Fila>
  {
    (t: seq<N.Fila>, x: N.Fila) => ReasignacionDe(e, t, SolicitudDe(ss, x), ahora)
  }

  /** For an offer whose request and requester exist, the check on any table
      is `Reasignacion` for that request. */
  lemma ReasignarPorEn(e: Entorno, ss: seq<S.Fila>, x: N.Fila, ahora: int)
    requires 1 <= x.solicitudId <= |ss| ==> ss[x.solicitudId - 1].usuarioId in e.usuarios
    ensures 1 <= x.solicitudId <= |ss| ==>
      forall t :: ReasignarPor(e, ss, ahora)(t, x) == Reasignacion(e, t, ss[x.solicitudId - 1], ahora)
  {
    if 1 <= x.solicitudId <= |ss| {
      var sol := ss[x.solicitudId - 1];
      assert SolicitudDe(ss, x) == Some(sol);
      forall t ensures ReasignarPor(e, ss, ahora)(t, x) == Reasignacion(e, t, sol, ahora) {
        ReasignacionDeEs(e, t, sol, ahora);
      }
    }
  }

  /** Every row `reasignar` appends is a live offer. */
  ghost predicate SoloVivas(reasignar: (seq<N.Fila>, N.Fila) -> seq<N.Fila>, ahora: int)
  {
    forall t, x, k :: 0 <= k < |reasignar(t, x)| ==> Viva(reasignar(t, x)[k], ahora)
  }

  /** The reassignment check of the sweep only ever appends live offers. */
  lemma ReasignarPorVivas(e: Entorno, ss: seq<S.Fila>, ahora: int)
    ensures SoloVivas(ReasignarPor(e, ss, ahora), ahora)
  {
    var f := ReasignarPor(e, ss, ahora);
    forall t, x, k | 0 <= k < |f(t, x)| ensures Viva(f(t, x)[k], ahora) {
      assert f(t, x) == ReasignacionDe(e, t, SolicitudDe(ss, x), ahora);
    }
  }

  /** One step of `verificarTimeouts` on the current table `t`: the expired
      offer `x` becomes TIMEOUT, then `reasignar` appends the offers the
      reassignment check sends. An offer outside the table leaves `t` as it
      is. */
  function PasoDeBarrido(t: seq<N.Fila>, x: N.Fila, reasignar: (seq<N.Fila>, N.Fila) -> seq<N.Fila>, ahora: int): (r: seq<N.Fila>)
    ensures |r| >= |t|
  {
    if 1 <= x.id <= |t| then
      var m := t[x.id - 1 := CambiarEstado(t[x.id - 1], N.TIMEOUT, ahora)];
      m + reasignar(m, x)
    else t
  }

  /** The offers table once the sweep has handled the first `n` expired
      offers of `vs`, in order, starting from `t0`: each step sees the
      table the steps before it left, rows they appended included. */
  function Barrido(t0: seq<N.Fila>, vs: seq<N.Fila>, n: nat, reasignar: (seq<N.Fila>, N.Fila) -> seq<N.Fila>, ahora: int): (r: seq<N.Fila>)
    requires n <= |vs|
    ensures |r| >= |t0|
    decreases n
  {
    if n == 0 then t0
    else PasoDeBarrido(Barrido(t0, vs, n - 1, reasignar, ahora), vs[n - 1], reasignar, ahora)
  }

  /** The identities of the first `n` rows of `vs`. */
  function IdsHasta(vs: seq<N.Fila>, n: nat): set<int>
    requires n <= |vs|
  {
    if n == 0 then {} else IdsHasta(vs, n - 1) + {vs[n - 1].id}
  }

  /** Exactly the identities of the first `n` rows are collected. */
  lemma {:induction false} IdsHastaExactos(vs: seq<N.Fila>, n: nat)
    requires n <= |vs|
    ensures forall m :: 0 <= m < n ==> vs[m].id in IdsHasta(vs, n)
    ensures forall id :: id in IdsHasta(vs, n) ==> exists m :: 0 <= m < n && vs[m].id == id
    decreases n
  {
    if n > 0 {
      IdsHastaExactos(vs, n - 1);
    }
  }

  /** The sweep over the first `n` rows of `vs`, each naming a row of `t0`,
      leaves the rows of `t0` with exactly those identities marked TIMEOUT,
      and appends only live offers when `reasignar` does. */
  lemma {:induction false} BarridoMarca(t0: seq<N.Fila>, vs: seq<N.Fila>, n: nat, reasignar: (seq<N.Fila>, N.Fila) -> seq<N.Fila>, ahora: int)
    requires n <= |vs|
    requires forall m :: 0 <= m < |vs| ==> 1 <= vs[m].id <= |t0|
    requires SoloVivas(reasignar, ahora)
    ensures var t := Barrido(t0, vs, n, reasignar, ahora);
      && t[..|t0|] == Marcar(t0, IdsHasta(vs, n), N.TIMEOUT, ahora)
      && forall k :: |t0| <= k < |t| ==> Viva(t[k], ahora)
    decreases n
  {
    if n == 0 {
      assert Marcar(t0, {}, N.TIMEOUT, ahora) == t0;
    } else {
      BarridoMarca(t0, vs, n - 1, reasignar, ahora);
      var antes := Barrido(t0, vs, n - 1, reasignar, ahora);
      var x := vs[n - 1];
      var j := x.id - 1;
      var m := antes[j := CambiarEstado(antes[j], N.TIMEOUT, ahora)];
      var l := reasignar(m, x);
      var t := m + l;
      assert 1 <= x.id <= |antes|;
      assert PasoDeBarrido(antes, x, reasignar, ahora) == t;
      assert Barrido(t0, vs, n, reasignar, ahora) == t;
      forall k | |antes| <= k < |t| ensures Viva(t[k], ahora) {
        assert t[k] == l[k - |antes|];
        assert Viva(l[k - |antes|], ahora);
      }
      assert t[..|antes|] == m;
      PasoDeVencimiento(antes, t, |t0|, j, ahora);
      assert antes[j] == antes[..|t0|][j];
      MarcarUno(t0, IdsHasta(vs, n - 1), x.id, N.TIMEOUT, ahora);
      assert IdsHasta(vs, n) == IdsHasta(vs, n - 1) + {x.id};
    }
  }

  /** The whole sweep: the rows present before end up exactly as
      `Vencimiento` says, every appended row is a live offer, and the
      expired-offer query then returns nothing. */
  lemma BarridoVence(t0: seq<N.Fila>, reasignar: (seq<N.Fila>, N.Fila) -> seq<N.Fila>, ahora: int)
    requires IdsSecuenciales(t0)
    requires SoloVivas(reasignar, ahora)
    ensures var vs := R.Vencidas(t0, N.PENDIENTE, ahora);
      var t := Barrido(t0, vs, |vs|, reasignar, ahora);
      && t[..|t0|] == Vencimiento(t0, ahora)
      && (forall k :: |t0| <= k < |t| ==> Viva(t[k], ahora))
      && R.Vencidas(t, N.PENDIENTE, ahora) == []
  {
    var vs := R.Vencidas(t0, N.PENDIENTE, ahora);
    VencidasEnTabla(t0, vs, ahora);
    BarridoMarca(t0, vs, |vs|, reasignar, ahora);
    var ids := IdsHasta(vs, |vs|);
    IdsHastaExactos(vs, |vs|);
    forall id | id in ids ensures 1 <= id <= |t0| && R.Vencida(t0[id - 1], N.PENDIENTE, ahora) {
      var m :| 0 <= m < |vs| && vs[m].id == id;
      assert vs[m] in vs;
    }
    MarcasDeVencidas(t0, vs, ids, ahora);
    SinVencidasTras(t0, Barrido(t0, vs, |vs|, reasignar, ahora), ahora);
  }
}
