/** Building a list with `add` inside a loop over a table, in table order,
    with and without a step that may throw. */
module Listado {
  import opened Comun

  /** The entries of the rows of `xs` that `incluir` accepts, in order. */
  function Listar<A, B>(xs: seq<A>, incluir: A -> bool, convertir: A -> B): seq<B>
  {
    if xs == [] then []
    else
      var n := |xs| - 1;
      Listar(xs[..n], incluir, convertir) + (if incluir(xs[n]) then [convertir(xs[n])] else [])
  }

  /** One more step of the loop: the row at `k` is added when accepted. */
  lemma ListarPaso<A, B>(xs: seq<A>, k: int, incluir: A -> bool, convertir: A -> B)
    requires 0 <= k < |xs|
    ensures Listar(xs[..k + 1], incluir, convertir)
         == Listar(xs[..k], incluir, convertir) + (if incluir(xs[k]) then [convertir(xs[k])] else [])
  {
    assert xs[..k + 1][..k] == xs[..k];
  }

  /** The listing of a table grown by one row. */
  lemma ListarAlFinal<A, B>(xs: seq<A>, x: A, incluir: A -> bool, convertir: A -> B)
    ensures Listar(xs + [x], incluir, convertir)
         == Listar(xs, incluir, convertir) + (if incluir(x) then [convertir(x)] else [])
  {
    assert (xs + [x])[..|xs|] == xs;
  }

  /** Every accepted row has its entry, every entry is an accepted row's,
      and there is one entry per accepted row. */
  lemma {:induction false} ListarContenido<A(!new), B>(xs: seq<A>, incluir: A -> bool, convertir: A -> B)
    ensures forall i :: 0 <= i < |xs| && incluir(xs[i]) ==> convertir(xs[i]) in Listar(xs, incluir, convertir)
    ensures forall y :: y in Listar(xs, incluir, convertir) ==>
      exists i :: 0 <= i < |xs| && incluir(xs[i]) && y == convertir(xs[i])
    ensures |Listar(xs, incluir, convertir)| == Contar(xs, incluir)
  {
    if xs != [] {
      var n := |xs| - 1;
      var previos := xs[..n];
      assert xs == previos + [xs[n]];
      FiltrarAlFinal(previos, xs[n], incluir);
      ListarContenido(previos, incluir, convertir);
      ListarAlFinal(previos, xs[n], incluir, convertir);
      var antes := Listar(previos, incluir, convertir);
      var r := Listar(xs, incluir, convertir);
      forall i | 0 <= i < |xs| && incluir(xs[i])
        ensures convertir(xs[i]) in r
      {
        if i < n {
          assert previos[i] == xs[i];
        }
      }
      forall y | y in r
        ensures exists i :: 0 <= i < |xs| && incluir(xs[i]) && y == convertir(xs[i])
      {
        if y in antes {
          var i :| 0 <= i < n && incluir(previos[i]) && y == convertir(previos[i]);
          assert previos[i] == xs[i];
        }
      }
    }
  }

  /** Walking only the rows a filter keeps lists the same entries, when
      every accepted row passes the filter. */
  lemma {:induction false} ListarFiltrado<A(!new), B>(xs: seq<A>, filtro: A -> bool, incluir: A -> bool, convertir: A -> B)
    requires forall x :: incluir(x) ==> filtro(x)
    ensures Listar(Filtrar(xs, filtro), incluir, convertir) == Listar(xs, incluir, convertir)
  {
    if xs != [] {
      var n := |xs| - 1;
      var x := xs[n];
      assert xs == xs[..n] + [x];
      FiltrarAlFinal(xs[..n], x, filtro);
      ListarFiltrado(xs[..n], filtro, incluir, convertir);
      ListarAlFinal(xs[..n], x, incluir, convertir);
      var f := Filtrar(xs[..n], filtro);
      if filtro(x) {
        ListarAlFinal(f, x, incluir, convertir);
      } else {
        assert f + [] == f;
        assert Listar(xs[..n], incluir, convertir) + [] == Listar(xs[..n], incluir, convertir);
      }
    }
  }

  /** As `Listar`, but building an entry may fail, and the first failure
      ends the walk. */
  function ListarHastaFallo<A, B>(xs: seq<A>, incluir: A -> bool, convertir: A -> Result<B>): (r: Result<seq<B>>)
    ensures r.Failure? ==> exists i :: 0 <= i < |xs| && incluir(xs[i]) && convertir(xs[i]) == Failure(r.error)
  {
    if xs == [] then Success([])
    else
      var n := |xs| - 1;
      var previos := ListarHastaFallo(xs[..n], incluir, convertir);
      if previos.Failure? || !incluir(xs[n]) then
        assert forall i :: 0 <= i < n ==> xs[..n][i] == xs[i];
        previos
      else
        var y := convertir(xs[n]);
        if y.Failure? then Failure(y.error) else Success(previos.value + [y.value])
  }

  /** One more step of the loop: after a successful prefix, an accepted row
      adds its entry or ends the walk with its failure. */
  lemma ListarHastaFalloPaso<A, B>(xs: seq<A>, k: int, incluir: A -> bool, convertir: A -> Result<B>)
    requires 0 <= k < |xs|
    requires ListarHastaFallo(xs[..k], incluir, convertir).Success?
    ensures var antes := ListarHastaFallo(xs[..k], incluir, convertir).value;
      ListarHastaFallo(xs[..k + 1], incluir, convertir)
      == if !incluir(xs[k]) then Success(antes)
         else if convertir(xs[k]).Failure? then Failure(convertir(xs[k]).error)
         else Success(antes + [convertir(xs[k]).value])
  {
    assert xs[..k + 1][..k] == xs[..k];
  }

  /** The walk fails exactly when some accepted row's entry fails. */
  lemma {:induction false} ListarHastaFalloFalla<A, B>(xs: seq<A>, incluir: A -> bool, convertir: A -> Result<B>)
    ensures ListarHastaFallo(xs, incluir, convertir).Failure?
        <==> exists i :: 0 <= i < |xs| && incluir(xs[i]) && convertir(xs[i]).Failure?
  {
    if xs != [] {
      var n := |xs| - 1;
      var previos := xs[..n];
      ListarHastaFalloFalla(previos, incluir, convertir);
      if exists i :: 0 <= i < |xs| && incluir(xs[i]) && convertir(xs[i]).Failure? {
        var i :| 0 <= i < |xs| && incluir(xs[i]) && convertir(xs[i]).Failure?;
        if i < n {
          assert previos[i] == xs[i];
        }
      }
    }
  }

  /** Once a prefix fails, the whole walk fails the same way. */
  lemma {:induction false} ListarHastaFalloPropaga<A, B>(xs: seq<A>, k: int, incluir: A -> bool, convertir: A -> Result<B>)
    requires 0 <= k <= |xs|
    requires ListarHastaFallo(xs[..k], incluir, convertir).Failure?
    ensures ListarHastaFallo(xs, incluir, convertir) == ListarHastaFallo(xs[..k], incluir, convertir)
    decreases |xs| - k
  {
    if k < |xs| {
      assert xs[..k + 1][..k] == xs[..k];
      ListarHastaFalloPropaga(xs, k + 1, incluir, convertir);
    } else {
      assert xs[..k] == xs;
    }
  }

  /** Without a failure every accepted row's entry is built and listed,
      every listed entry is an accepted row's, one entry per accepted row. */
  lemma {:induction false} ListarHastaFalloExito<A(!new), B>(xs: seq<A>, incluir: A -> bool, convertir: A -> Result<B>)
    requires ListarHastaFallo(xs, incluir, convertir).Success?
    ensures forall i :: 0 <= i < |xs| && incluir(xs[i]) ==>
      convertir(xs[i]).Success? && convertir(xs[i]).value in ListarHastaFallo(xs, incluir, convertir).value
    ensures forall y :: y in ListarHastaFallo(xs, incluir, convertir).value ==>
      exists i :: 0 <= i < |xs| && incluir(xs[i]) && convertir(xs[i]) == Success(y)
    ensures |ListarHastaFallo(xs, incluir, convertir).value| == Contar(xs, incluir)
  {
    if xs != [] {
      var n := |xs| - 1;
      var previos := xs[..n];
      assert xs == previos + [xs[n]];
      FiltrarAlFinal(previos, xs[n], incluir);
      ListarHastaFalloExito(previos, incluir, convertir);
      ListarHastaFalloAlFinal(previos, xs[n], incluir, convertir);
      var antes := ListarHastaFallo(previos, incluir, convertir).value;
      var r := ListarHastaFallo(xs, incluir, convertir).value;
      forall i | 0 <= i < |xs| && incluir(xs[i])
        ensures convertir(xs[i]).Success? && convertir(xs[i]).value in r
      {
        if i < n {
          assert previos[i] == xs[i];
        }
      }
      forall y | y in r
        ensures exists i :: 0 <= i < |xs| && incluir(xs[i]) && convertir(xs[i]) == Success(y)
      {
        if y in antes {
          var i :| 0 <= i < n && incluir(previos[i]) && convertir(previos[i]) == Success(y);
          assert previos[i] == xs[i];
        }
      }
    }
  }

  /** The walk over a table grown by one row: the row only matters after a
      successful prefix, and only when it is accepted. */
  lemma ListarHastaFalloAlFinal<A, B>(xs: seq<A>, x: A, incluir: A -> bool, convertir: A -> Result<B>)
    ensures var p := ListarHastaFallo(xs, incluir, convertir);
      ListarHastaFallo(xs + [x], incluir, convertir)
      == if p.Failure? || !incluir(x) then p
         else if convertir(x).Failure? then Failure(convertir(x).error)
         else Success(p.value + [convertir(x).value])
  {
    assert (xs + [x])[..|xs|] == xs;
  }

  /** Walking only the rows a filter keeps gives the same result, when
      every accepted row passes the filter. */
  lemma {:induction false} ListarHastaFalloFiltrado<A(!new), B>(xs: seq<A>, filtro: A -> bool, incluir: A -> bool,
                                                              convertir: A -> Result<B>)
    requires forall x :: incluir(x) ==> filtro(x)
    ensures ListarHastaFallo(Filtrar(xs, filtro), incluir, convertir) == ListarHastaFallo(xs, incluir, convertir)
  {
    if xs != [] {
      var n := |xs| - 1;
      var x := xs[n];
      assert xs == xs[..n] + [x];
      FiltrarAlFinal(xs[..n], x, filtro);
      ListarHastaFalloFiltrado(xs[..n], filtro, incluir, convertir);
      ListarHastaFalloAlFinal(xs[..n], x, incluir, convertir);
      var f := Filtrar(xs[..n], filtro);
      if filtro(x) {
        ListarHastaFalloAlFinal(f, x, incluir, convertir);
      } else {
        assert f + [] == f;
      }
    }
  }
}
