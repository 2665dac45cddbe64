/** The queries of `SubcategoriaRepository` as functions over the table, a
    sequence of rows in insertion order. */
module SubcategoriaRepositorio {
  import opened Comun
  import opened Subcategorias

  /** The arguments of `findSubcategoriasConFiltros`; an absent argument
      imposes nothing. */
  datatype Filtros = Filtros(
    categoriaId: Option<int>,
    urgente: Option<bool>,
    conMateriales: Option<bool>,
    boletaFactura: Option<bool>,
    garantia: Option<bool>,
    interior: Option<bool>,
    exterior: Option<bool>,
    altura: Option<bool>,
    domicilio: Option<bool>,
    atencion24h: Option<bool>,
    radioMaximo: Option<int>,
    tipoPrecio: Option<TipoPrecio>,
    ratingMinimo: Option<real>)

  /** `(:p IS NULL OR s.col = :p)` on a nullable column: a NULL column makes
      the comparison unknown, so the row only passes an absent argument. */
  predicate Igual<T(==)>(p: Option<T>, columna: Option<T>)
  {
    p.None? || columna == p
  }

  /** `(:radioMaximo IS NULL OR s.radioCobertura <= :radioMaximo)`. */
  predicate RadioHasta(p: Option<int>, columna: Option<int>)
  {
    p.None? || (columna.Some? && columna.value <= p.value)
  }

  /** `(:ratingMinimo IS NULL OR s.ratingMinimo >= :ratingMinimo)`. */
  predicate RatingDesde(p: Option<real>, columna: Option<real>)
  {
    p.None? || (columna.Some? && columna.value >= p.value)
  }

  /** The `WHERE` clause of `findSubcategoriasConFiltros`. */
  predicate CumpleFiltros(s: Fila, f: Filtros)
  {
    var c := s.caracteristicas;
    && Coincide(f.categoriaId, s.categoriaId)
    && Igual(f.urgente, c.permiteUrgente)
    && Igual(f.conMateriales, c.incluyeMateriales)
    && Igual(f.boletaFactura, c.emiteBoletaFactura)
    && Igual(f.garantia, c.ofreceGarantia)
    && Igual(f.interior, c.trabajoInterior)
    && Igual(f.exterior, c.trabajoExterior)
    && Igual(f.altura, c.trabajoEnAltura)
    && Igual(f.domicilio, c.servicioDomicilio)
    && Igual(f.atencion24h, c.atencion24_7)
    && RadioHasta(f.radioMaximo, c.radioCobertura)
    && Igual(f.tipoPrecio, c.tipoPrecio)
    && RatingDesde(f.ratingMinimo, c.ratingMinimo)
    && s.activo
  }

  function ConFiltrosEn(f: Filtros): Fila -> bool
  {
    (s: Fila) => CumpleFiltros(s, f)
  }

  /** `ORDER BY s.ordenVisualizacion ASC, s.nombre ASC`. */
  predicate OrdenYNombreAntes(a: Fila, b: Fila)
  {
    PosicionYNombreAntes(a.ordenVisualizacion, a.nombre, b.ordenVisualizacion, b.nombre)
  }

  lemma OrdenYNombreTotal()
    ensures PreordenTotal(OrdenYNombreAntes)
  {
    forall a: Fila, b: Fila ensures OrdenYNombreAntes(a, b) || OrdenYNombreAntes(b, a) {
      PosicionYNombreTotal(a.ordenVisualizacion, a.nombre, b.ordenVisualizacion, b.nombre);
    }
    forall a: Fila, b: Fila, c: Fila | OrdenYNombreAntes(a, b) && OrdenYNombreAntes(b, c)
      ensures OrdenYNombreAntes(a, c)
    {
      PosicionYNombreTransitivo(a.ordenVisualizacion, a.nombre, b.ordenVisualizacion, b.nombre,
                                c.ordenVisualizacion, c.nombre);
    }
  }

  /** `findSubcategoriasConFiltros`: exactly the rows the `WHERE` clause
      accepts, by display position and then by name. */
  function ConFiltros(t: seq<Fila>, f: Filtros): (r: seq<Fila>)
    ensures forall s :: s in r <==> s in t && CumpleFiltros(s, f)
    ensures Ordenada(r, OrdenYNombreAntes)
  {
    var filas := Filtrar(t, ConFiltrosEn(f));
    OrdenYNombreTotal();
    OrdenarOrdena(filas, OrdenYNombreAntes);
    MultisetMismosElementos(Ordenar(filas, OrdenYNombreAntes), filas);
    Ordenar(filas, OrdenYNombreAntes)
  }

  /** With no argument the filter query lists exactly the active rows; every
      row it lists is active, and one within a given radius. */
  lemma ConFiltrosSinArgumentos(t: seq<Fila>, f: Filtros)
    ensures f == Filtros(None, None, None, None, None, None, None, None, None, None, None, None, None) ==>
      forall s :: s in ConFiltros(t, f) <==> s in t && s.activo
    ensures forall s :: s in ConFiltros(t, f) ==> s.activo
    ensures forall s :: s in ConFiltros(t, f) && f.radioMaximo.Some? ==>
      s.caracteristicas.radioCobertura.Some? && s.caracteristicas.radioCobertura.value <= f.radioMaximo.value
  {
  }

  /** Dropping an argument never removes a row from the answer: an absent
      argument imposes no constraint. */
  lemma SinArgumentoNoRestringe(t: seq<Fila>, f: Filtros, s: Fila)
    requires s in ConFiltros(t, f)
    ensures s in ConFiltros(t, f.(categoriaId := None))
    ensures s in ConFiltros(t, f.(urgente := None))
    ensures s in ConFiltros(t, f.(radioMaximo := None))
    ensures s in ConFiltros(t, f.(tipoPrecio := None))
    ensures s in ConFiltros(t, f.(ratingMinimo := None))
  {
  }

  /** A row whose column is NULL fails every non-null argument on that
      column, whatever its value. */
  lemma ColumnaNulaExcluida(t: seq<Fila>, f: Filtros, s: Fila)
    requires f.urgente.Some? && s.caracteristicas.permiteUrgente.None?
    ensures s !in ConFiltros(t, f)
  {
  }

  /** The search condition of `findBySearchTerm`: the name or the
      description contains the term, ignoring case. */
  predicate CoincideTermino(s: Fila, termino: string)
  {
    ContieneSinMayusculas(s.nombre, termino) || ColumnaContiene(s.descripcion, termino)
  }

  function PorTerminoEn(termino: string, activo: bool): Fila -> bool
  {
    (s: Fila) => CoincideTermino(s, termino) && s.activo == activo
  }

  /** `findBySearchTerm(term, activo)`. */
  function PorTermino(t: seq<Fila>, termino: string, activo: bool): (r: seq<Fila>)
    ensures forall s :: s in r <==>
      (s in t && s.activo == activo && (ContieneSinMayusculas(s.nombre, termino) || ColumnaContiene(s.descripcion, termino)))
  {
    Filtrar(t, PorTerminoEn(termino, activo))
  }

  function PorTerminoYCategoriaEn(categoriaId: int, termino: string, activo: bool): Fila -> bool
  {
    (s: Fila) => s.categoriaId == categoriaId && CoincideTermino(s, termino) && s.activo == activo
  }

  /** `findBySearchTermAndCategoriaId(categoriaId, term, activo)`: the same
      search restricted to one category. */
  function PorTerminoYCategoria(t: seq<Fila>, categoriaId: int, termino: string, activo: bool): (r: seq<Fila>)
    ensures forall s :: s in r <==> s in PorTermino(t, termino, activo) && s.categoriaId == categoriaId
  {
    Filtrar(t, PorTerminoYCategoriaEn(categoriaId, termino, activo))
  }

  /** A row without a description is found by its name alone. */
  lemma SinDescripcionPorNombre(t: seq<Fila>, s: Fila, termino: string, activo: bool)
    requires s in t && s.descripcion.None? && s.activo == activo
    ensures s in PorTermino(t, termino, activo) <==> ContieneSinMayusculas(s.nombre, termino)
  {
  }

  function OtraConNombreEn(nombre: string, categoriaId: int, id: int): Fila -> bool
  {
    (s: Fila) => s.categoriaId == categoriaId && IgualSinMayusculas(s.nombre, nombre) && s.id != id
  }

  /** `existsByNombreIgnoreCaseAndCategoriaIdAndIdNot`. */
  function ExisteOtraConNombre(t: seq<Fila>, nombre: string, categoriaId: int, id: int): (b: bool)
    ensures b <==> exists i ::
      0 <= i < |t| && t[i].categoriaId == categoriaId && IgualSinMayusculas(t[i].nombre, nombre) && t[i].id != id
  {
    Existe(t, OtraConNombreEn(nombre, categoriaId, id))
  }

  function ConNombreEn(nombre: string, categoriaId: int): Fila -> bool
  {
    (s: Fila) => s.categoriaId == categoriaId && IgualSinMayusculas(s.nombre, nombre)
  }

  /** `existsByNombreIgnoreCaseAndCategoriaId`. */
  function ExisteConNombre(t: seq<Fila>, nombre: string, categoriaId: int): (b: bool)
    ensures b <==> exists i ::
      0 <= i < |t| && t[i].categoriaId == categoriaId && IgualSinMayusculas(t[i].nombre, nombre)
  {
    Existe(t, ConNombreEn(nombre, categoriaId))
  }

  /** The exclude-self check never reports the row itself: for a row of the
      table it holds exactly when another row of its category shares its
      name. */
  lemma ExcluirseASiMisma(t: seq<Fila>, k: int)
    requires Posicional(t) && 0 <= k < |t|
    ensures ExisteOtraConNombre(t, t[k].nombre, t[k].categoriaId, t[k].id) <==>
      exists i :: 0 <= i < |t| && i != k && t[i].categoriaId == t[k].categoriaId
        && IgualSinMayusculas(t[i].nombre, t[k].nombre)
  {
  }

  function DeCategoria(categoriaId: int): Fila -> bool
  {
    (s: Fila) => s.categoriaId == categoriaId
  }

  function Orden(s: Fila): Option<int>
  {
    s.ordenVisualizacion
  }

  /** `findMaxOrdenVisualizacionByCategoriaId`: the largest display position
      in the category, 0 when none of its rows has one. */
  function MaxOrden(t: seq<Fila>, categoriaId: int): (m: int)
    ensures forall s :: s in t && s.categoriaId == categoriaId && s.ordenVisualizacion.Some? ==>
      s.ordenVisualizacion.value <= m
    ensures (exists s :: s in t && s.categoriaId == categoriaId && s.ordenVisualizacion.Some?) ==>
      exists s :: s in t && s.categoriaId == categoriaId && s.ordenVisualizacion == Some(m)
    ensures (forall s :: s in t && s.categoriaId == categoriaId ==> s.ordenVisualizacion.None?) ==> m == 0
  {
    var filas := Filtrar(t, DeCategoria(categoriaId));
    var m := MaximoOCero(filas, Orden);
    assert forall s :: s in t && s.categoriaId == categoriaId ==> s in filas;
    assert forall i :: 0 <= i < |filas| ==> filas[i] in filas;
    m
  }

  /** A category with no subcategory has maximum position 0, so the first
      subcategory created in it without a position is placed at 1. */
  lemma MaxOrdenCategoriaVacia(t: seq<Fila>, categoriaId: int)
    requires forall i :: 0 <= i < |t| ==> t[i].categoriaId != categoriaId
    ensures MaxOrden(t, categoriaId) + 1 == 1
  {
  }

  function ActivaDe(categoriaId: int): Fila -> bool
  {
    (s: Fila) => s.categoriaId == categoriaId && s.activo
  }

  /** `findByCategoriaIdAndActivoTrueOrderByOrdenVisualizacionAscNombreAsc`. */
  function ActivasDeCategoria(t: seq<Fila>, categoriaId: int): (r: seq<Fila>)
    ensures forall s :: s in r <==> s in t && s.categoriaId == categoriaId && s.activo
    ensures Ordenada(r, OrdenYNombreAntes)
  {
    var filas := Filtrar(t, ActivaDe(categoriaId));
    OrdenYNombreTotal();
    OrdenarOrdena(filas, OrdenYNombreAntes);
    MultisetMismosElementos(Ordenar(filas, OrdenYNombreAntes), filas);
    Ordenar(filas, OrdenYNombreAntes)
  }
}
