/** The `Subcategoria` entity: a service offered inside a category, with the
    characteristic columns the filter query reads. Subcategories are never
    removed, so a row's identity is its position in the table plus one. */
module Subcategorias {
  import opened Comun

  /** The pricing scheme of a subcategory. */
  datatype TipoPrecio = FIJO | POR_HORA | NEGOCIABLE | COTIZACION

  /** The nullable characteristic columns the filter query compares. */
  datatype Caracteristicas = Caracteristicas(
    permiteUrgente: Option<bool>,
    incluyeMateriales: Option<bool>,
    emiteBoletaFactura: Option<bool>,
    ofreceGarantia: Option<bool>,
    trabajoInterior: Option<bool>,
    trabajoExterior: Option<bool>,
    trabajoEnAltura: Option<bool>,
    servicioDomicilio: Option<bool>,
    atencion24_7: Option<bool>,
    radioCobertura: Option<int>,
    tipoPrecio: Option<TipoPrecio>,
    ratingMinimo: Option<real>)

  /** A stored row of `subcategorias`; `categoriaId` is the parent category.
      The audit timestamps are not modelled. */
  datatype Fila = Fila(
    id: int,
    nombre: string,
    descripcion: Option<string>,
    activo: bool,
    ordenVisualizacion: Option<int>,
    colorHexadecimal: Option<string>,
    icono: Option<string>,
    categoriaId: int,
    caracteristicas: Caracteristicas,
    creadoPor: Option<string>,
    modificadoPor: Option<string>)

  /** Row `i` of the table has identity `i + 1`. */
  ghost predicate Posicional(t: seq<Fila>)
  {
    forall i :: 0 <= i < |t| ==> t[i].id == i + 1
  }

  /** `findById`: NotFound for an identity outside the table. */
  function Buscar(t: seq<Fila>, id: int): (r: Result<Fila>)
    requires Posicional(t)
    ensures r.Success? <==> exists i :: 0 <= i < |t| && t[i].id == id
    ensures r.Success? ==> r.value in t && r.value.id == id
    ensures r.Failure? ==> r.error == NotFound
    ensures r.Success? <==> 1 <= id <= |t|
    ensures r.Success? ==> r.value == t[id - 1]
  {
    if 1 <= id <= |t| then Success(t[id - 1]) else Failure(NotFound)
  }
}
