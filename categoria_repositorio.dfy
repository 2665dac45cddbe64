/** The queries of `CategoriaRepository` as functions over the tables, each a
    sequence of rows in insertion order. The count of active subcategories
    reads the subcategory table. */
module CategoriaRepositorio {
  import opened Comun
  import opened Categorias
  import S = Subcategorias

  /** `ORDER BY c.ordenVisualizacion ASC, c.nombre ASC`. */
  predicate OrdenYNombreAntes(a: Fila, b: Fila)
  {
    PosicionYNombreAntes(a.ordenVisualizacion, a.nombre, b.ordenVisualizacion, b.nombre)
  }

  lemma OrdenYNombreTotal()
    ensures PreordenTotal(OrdenYNombreAntes)
  {
    forall a: Fila, b: Fila ensures OrdenYNombreAntes(a, b) || OrdenYNombreAntes(b, a) {
      PosicionYNombreTotal(a.ordenVisualizacion, a.nombre, b.ordenVisualizacion, b.nombre);
    }
    forall a: Fila, b: Fila, c: Fila | OrdenYNombreAntes(a, b) && OrdenYNombreAntes(b, c)
      ensures OrdenYNombreAntes(a, c)
    {
      PosicionYNombreTransitivo(a.ordenVisualizacion, a.nombre, b.ordenVisualizacion, b.nombre,
                                c.ordenVisualizacion, c.nombre);
    }
  }

  function Activa(): Fila -> bool
  {
    (c: Fila) => c.activo
  }

  /** `findByActivoTrueOrderByOrdenVisualizacionAscNombreAsc`. */
  function ActivasOrdenadas(t: seq<Fila>): (r: seq<Fila>)
    ensures forall c :: c in r <==> c in t && c.activo
    ensures Ordenada(r, OrdenYNombreAntes)
  {
    var filas := Filtrar(t, Activa());
    OrdenYNombreTotal();
    OrdenarOrdena(filas, OrdenYNombreAntes);
    MultisetMismosElementos(Ordenar(filas, OrdenYNombreAntes), filas);
    Ordenar(filas, OrdenYNombreAntes)
  }

  function PorTerminoEn(termino: string, activo: bool): Fila -> bool
  {
    (c: Fila) => (ContieneSinMayusculas(c.nombre, termino) || ColumnaContiene(c.descripcion, termino))
      && c.activo == activo
  }

  /** `findBySearchTerm(term, activo)`: the name or the description contains
      the term, ignoring case, and `activo` equals the argument. */
  function PorTermino(t: seq<Fila>, termino: string, activo: bool): (r: seq<Fila>)
    ensures forall c :: c in r <==>
      (c in t && c.activo == activo && (ContieneSinMayusculas(c.nombre, termino) || ColumnaContiene(c.descripcion, termino)))
  {
    Filtrar(t, PorTerminoEn(termino, activo))
  }

  function NombreActivaEn(nombre: string): Fila -> bool
  {
    (c: Fila) => ContieneSinMayusculas(c.nombre, nombre) && c.activo
  }

  /** `findByNombreContainingIgnoreCaseAndActivoTrue`: the name alone is
      searched, among active rows. */
  function PorNombreActivas(t: seq<Fila>, nombre: string): (r: seq<Fila>)
    ensures forall c :: c in r <==> c in t && c.activo && ContieneSinMayusculas(c.nombre, nombre)
  {
    Filtrar(t, NombreActivaEn(nombre))
  }

  function ConActivo(activo: bool): Fila -> bool
  {
    (c: Fila) => c.activo == activo
  }

  /** `findByActivo`. */
  function PorActivo(t: seq<Fila>, activo: bool): (r: seq<Fila>)
    ensures forall c :: c in r <==> c in t && c.activo == activo
  {
    Filtrar(t, ConActivo(activo))
  }

  function SubcategoriaActivaDe(categoriaId: int): S.Fila -> bool
  {
    (s: S.Fila) => s.categoriaId == categoriaId && s.activo
  }

  /** `countActiveSubcategoriasByCategoriaId`. */
  function ContarSubcategoriasActivas(subcategorias: seq<S.Fila>, categoriaId: int): (n: nat)
    ensures n == |Filtrar(subcategorias, SubcategoriaActivaDe(categoriaId))|
    ensures n == 0 <==> forall i :: 0 <= i < |subcategorias| ==>
      !(subcategorias[i].categoriaId == categoriaId && subcategorias[i].activo)
  {
    var filas := Filtrar(subcategorias, SubcategoriaActivaDe(categoriaId));
    assert forall i :: 0 <= i < |subcategorias| ==> subcategorias[i] in subcategorias;
    assert filas != [] ==> filas[0] in filas;
    Contar(subcategorias, SubcategoriaActivaDe(categoriaId))
  }

  function OtraConNombreEn(nombre: string, id: int): Fila -> bool
  {
    (c: Fila) => IgualSinMayusculas(c.nombre, nombre) && c.id != id
  }

  /** `existsByNombreIgnoreCaseAndIdNot`. */
  function ExisteOtraConNombre(t: seq<Fila>, nombre: string, id: int): (b: bool)
    ensures b <==> exists i :: 0 <= i < |t| && IgualSinMayusculas(t[i].nombre, nombre) && t[i].id != id
  {
    Existe(t, OtraConNombreEn(nombre, id))
  }

  function ConNombreEn(nombre: string): Fila -> bool
  {
    (c: Fila) => IgualSinMayusculas(c.nombre, nombre)
  }

  /** `existsByNombreIgnoreCase`. */
  function ExisteConNombre(t: seq<Fila>, nombre: string): (b: bool)
    ensures b <==> exists i :: 0 <= i < |t| && IgualSinMayusculas(t[i].nombre, nombre)
  {
    Existe(t, ConNombreEn(nombre))
  }

  function Orden(c: Fila): Option<int>
  {
    c.ordenVisualizacion
  }

  /** `findMaxOrdenVisualizacion`: the largest display position over every
      category, active or not, and 0 when no row has one. */
  function MaxOrden(t: seq<Fila>): (m: int)
    ensures forall c :: c in t && c.ordenVisualizacion.Some? ==> c.ordenVisualizacion.value <= m
    ensures (exists c :: c in t && c.ordenVisualizacion.Some?) ==> exists c :: c in t && c.ordenVisualizacion == Some(m)
    ensures (forall c :: c in t ==> c.ordenVisualizacion.None?) ==> m == 0
  {
    MaximoOCero(t, Orden)
  }
}
