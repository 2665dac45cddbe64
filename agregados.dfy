/** The figures a company's listing entry shows: the average price and the
    review total of its technicians in a subcategory. */
module Agregados {
  import opened Comun
  import opened Redondeo
  import opened Criterios
  import T = Tecnicos

  // ---------------------------------------------------------------------------
  // Company aggregates (`calcularPrecioPromedioEmpresa`,
  // `calcularTotalResenasEmpresa`)

  /** The exact sum of the prices of the technicians that quote. */
  function SumaPrecios(ts: seq<T.Fila>, subcategoriaId: int): real
  {
    if ts == [] then 0.0
    else (if Cotiza(ts[0], subcategoriaId) then ts[0].precioBaseHora.value else 0.0)
         + SumaPrecios(ts[1..], subcategoriaId)
  }

  /** The number of technicians that quote, as a decimal. */
  function CuentaPrecios(ts: seq<T.Fila>, subcategoriaId: int): real
  {
    if ts == [] then 0.0
    else (if Cotiza(ts[0], subcategoriaId) then 1.0 else 0.0) + CuentaPrecios(ts[1..], subcategoriaId)
  }

  lemma {:induction false} CuentaPreciosEsContar(ts: seq<T.Fila>, subcategoriaId: int)
    ensures CuentaPrecios(ts, subcategoriaId) == Contar(ts, CotizaEn(subcategoriaId)) as real
  {
    if ts != [] {
      CuentaPreciosEsContar(ts[1..], subcategoriaId);
    }
  }

  lemma {:induction false} CuentaPreciosNoNegativa(ts: seq<T.Fila>, subcategoriaId: int)
    ensures CuentaPrecios(ts, subcategoriaId) >= 0.0
  {
    if ts != [] {
      CuentaPreciosNoNegativa(ts[1..], subcategoriaId);
    }
  }

  lemma PasoAbajo(n: real, m: real, s: real, x: real, a: real)
    requires n == m + 1.0 && m * a <= s && a <= x
    ensures n * a <= s + x
  {
  }

  lemma PasoArriba(n: real, m: real, s: real, x: real, b: real)
    requires n == m + 1.0 && s <= m * b && x <= b
    ensures s + x <= n * b
  {
  }

  /** With every quoted price at least `a`, the sum is at least `a` times
      the number of quoting technicians. */
  lemma {:induction false} SumaPreciosDesde(ts: seq<T.Fila>, subcategoriaId: int, a: real)
    requires forall i :: 0 <= i < |ts| && Cotiza(ts[i], subcategoriaId) ==> a <= ts[i].precioBaseHora.value
    ensures CuentaPrecios(ts, subcategoriaId) * a <= SumaPrecios(ts, subcategoriaId)
  {
    if ts != [] {
      var resto := ts[1..];
      assert forall i :: 0 <= i < |resto| ==> resto[i] == ts[i + 1];
      SumaPreciosDesde(resto, subcategoriaId, a);
      if Cotiza(ts[0], subcategoriaId) {
        PasoAbajo(CuentaPrecios(ts, subcategoriaId), CuentaPrecios(resto, subcategoriaId),
                  SumaPrecios(resto, subcategoriaId), ts[0].precioBaseHora.value, a);
      } else {
        assert CuentaPrecios(ts, subcategoriaId) == CuentaPrecios(resto, subcategoriaId);
        assert SumaPrecios(ts, subcategoriaId) == SumaPrecios(resto, subcategoriaId);
      }
    }
  }

  /** With every quoted price at most `b`, the sum is at most `b` times the
      number of quoting technicians. */
  lemma {:induction false} SumaPreciosHasta(ts: seq<T.Fila>, subcategoriaId: int, b: real)
    requires forall i :: 0 <= i < |ts| && Cotiza(ts[i], subcategoriaId) ==> ts[i].precioBaseHora.value <= b
    ensures SumaPrecios(ts, subcategoriaId) <= CuentaPrecios(ts, subcategoriaId) * b
  {
    if ts != [] {
      var resto := ts[1..];
      assert forall i :: 0 <= i < |resto| ==> resto[i] == ts[i + 1];
      SumaPreciosHasta(resto, subcategoriaId, b);
      if Cotiza(ts[0], subcategoriaId) {
        PasoArriba(CuentaPrecios(ts, subcategoriaId), CuentaPrecios(resto, subcategoriaId),
                   SumaPrecios(resto, subcategoriaId), ts[0].precioBaseHora.value, b);
      } else {
        assert CuentaPrecios(ts, subcategoriaId) == CuentaPrecios(resto, subcategoriaId);
        assert SumaPrecios(ts, subcategoriaId) == SumaPrecios(resto, subcategoriaId);
      }
    }
  }

  /** A quotient of a sum bounded by `n * a` and `n * b` lies between `a`
      and `b`. */
  lemma Cociente(s: real, n: real, a: real, b: real)
    requires n > 0.0 && n * a <= s <= n * b
    ensures a <= s / n <= b
  {
    assert s / n * n == s;
  }

  /** The company's average hourly price: the exact mean of the quoted
      prices, rounded half up to two decimals; with no quoting technician the
      division by zero fails. */
  function PrecioPromedio(ts: seq<T.Fila>, subcategoriaId: int): (r: Result<real>)
    ensures r.Failure? ==> r.error == Arithmetic
    ensures r.Success? ==> DosDecimales(r.value)
  {
    var n := CuentaPrecios(ts, subcategoriaId);
    if n == 0.0 then Failure(Arithmetic)
    else Success(RedondearDosDecimales(SumaPrecios(ts, subcategoriaId) / n))
  }

  /** The average fails exactly when no technician quotes. */
  lemma PrecioPromedioFalla(ts: seq<T.Fila>, subcategoriaId: int)
    ensures PrecioPromedio(ts, subcategoriaId).Failure? <==> !Existe(ts, CotizaEn(subcategoriaId))
  {
    var p := CotizaEn(subcategoriaId);
    CuentaPreciosEsContar(ts, subcategoriaId);
    if Existe(ts, p) {
      ContarPositivo(ts, p, Indice(ts, p));
      assert PrecioPromedio(ts, subcategoriaId).Success?;
    } else {
      assert Filtrar(ts, p) == [] by {
        if Filtrar(ts, p) != [] {
          assert Filtrar(ts, p)[0] in Filtrar(ts, p);
        }
      }
      assert PrecioPromedio(ts, subcategoriaId).Failure?;
    }
  }

  /** The rounded quotient of a sum bounded by `c * a` and `c * b` stays
      between two-decimal bounds `a` and `b`. */
  lemma PromedioEntre(suma: real, c: real, a: real, b: real)
    requires c > 0.0 && c * a <= suma <= c * b
    requires DosDecimales(a) && DosDecimales(b)
    ensures a <= RedondearDosDecimales(suma / c) <= b
  {
    Cociente(suma, c, a, b);
    RedondearMonotono(a, suma / c);
    RedondearMonotono(suma / c, b);
    RedondearConserva(a);
    RedondearConserva(b);
  }

  /** With every quoted price between two two-decimal bounds, the average
      lies between them too; in particular equal prices average to that
      price. */
  lemma PrecioPromedioAcotado(ts: seq<T.Fila>, subcategoriaId: int, a: real, b: real)
    requires DosDecimales(a) && DosDecimales(b)
    requires forall i :: 0 <= i < |ts| && Cotiza(ts[i], subcategoriaId) ==> a <= ts[i].precioBaseHora.value <= b
    requires PrecioPromedio(ts, subcategoriaId).Success?
    ensures a <= PrecioPromedio(ts, subcategoriaId).value <= b
  {
    SumaPreciosDesde(ts, subcategoriaId, a);
    SumaPreciosHasta(ts, subcategoriaId, b);
    CuentaPreciosNoNegativa(ts, subcategoriaId);
    PromedioEntre(SumaPrecios(ts, subcategoriaId), CuentaPrecios(ts, subcategoriaId), a, b);
  }

  /** The company's review total: the sum over its active technicians in the
      subcategory of their review counts, a missing count adding 0. */
  function TotalResenas(ts: seq<T.Fila>, subcategoriaId: int): (n: int)
    ensures (forall i :: 0 <= i < |ts| && ts[i].totalResenas.Some? ==> ts[i].totalResenas.value >= 0) ==> n >= 0
  {
    if ts == [] then 0
    else
      assert forall i :: 0 <= i < |ts| - 1 ==> ts[1..][i] == ts[i + 1];
      (if Resenable(ts[0], subcategoriaId) && ts[0].totalResenas.Some? then ts[0].totalResenas.value else 0)
      + TotalResenas(ts[1..], subcategoriaId)
  }

  /** The total of two groups of technicians is the sum of their totals. */
  lemma {:induction false} TotalResenasConcat(a: seq<T.Fila>, b: seq<T.Fila>, subcategoriaId: int)
    ensures TotalResenas(a + b, subcategoriaId) == TotalResenas(a, subcategoriaId) + TotalResenas(b, subcategoriaId)
    decreases |a|
  {
    if a == [] {
      assert a + b == b;
    } else {
      assert (a + b)[1..] == a[1..] + b;
      TotalResenasConcat(a[1..], b, subcategoriaId);
    }
  }

  /** A missing review count weighs exactly as a count of zero, and whether
      the technician is available does not matter. */
  lemma TotalResenasNuloEsCero(a: seq<T.Fila>, t: T.Fila, b: seq<T.Fila>, subcategoriaId: int)
    requires t.totalResenas.None?
    ensures TotalResenas(a + [t] + b, subcategoriaId)
         == TotalResenas(a + [t.(totalResenas := Some(0))] + b, subcategoriaId)
    ensures TotalResenas(a + [t] + b, subcategoriaId)
         == TotalResenas(a + [t.(disponible := !t.disponible)] + b, subcategoriaId)
  {
    TotalResenasConcat(a + [t], b, subcategoriaId);
    TotalResenasConcat(a, [t], subcategoriaId);
    var u := t.(totalResenas := Some(0));
    TotalResenasConcat(a + [u], b, subcategoriaId);
    TotalResenasConcat(a, [u], subcategoriaId);
    var v := t.(disponible := !t.disponible);
    TotalResenasConcat(a + [v], b, subcategoriaId);
    TotalResenasConcat(a, [v], subcategoriaId);
  }

  /** A technician outside the subcategory, or inactive, adds nothing. */
  lemma TotalResenasIgnora(a: seq<T.Fila>, t: T.Fila, b: seq<T.Fila>, subcategoriaId: int)
    requires !Resenable(t, subcategoriaId)
    ensures TotalResenas(a + [t] + b, subcategoriaId) == TotalResenas(a + b, subcategoriaId)
  {
    TotalResenasConcat(a + [t], b, subcategoriaId);
    TotalResenasConcat(a, [t], subcategoriaId);
    TotalResenasConcat(a, b, subcategoriaId);
  }
}
