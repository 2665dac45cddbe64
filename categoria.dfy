/** The `Categoria` entity: a top-level group of services. Categories are
    never removed (deletion clears `activo`), so a row's identity is its
    position in the table plus one. */
module Categorias {
  import opened Comun

  /** A stored row of `categorias`. The audit timestamps are not modelled. */
  datatype Fila = Fila(
    id: int,
    nombre: string,
    descripcion: Option<string>,
    activo: bool,
    ordenVisualizacion: Option<int>,
    colorHexadecimal: Option<string>,
    icono: Option<string>,
    creadoPor: Option<string>,
    modificadoPor: Option<string>)

  /** Row `i` of the table has identity `i + 1`. */
  ghost predicate Posicional(t: seq<Fila>)
  {
    forall i :: 0 <= i < |t| ==> t[i].id == i + 1
  }

  /** `findById`: NotFound for an identity outside the table. */
  function Buscar(t: seq<Fila>, id: int): (r: Result<Fila>)
    requires Posicional(t)
    ensures r.Success? <==> exists i :: 0 <= i < |t| && t[i].id == id
    ensures r.Success? ==> r.value in t && r.value.id == id
    ensures r.Failure? ==> r.error == NotFound
    ensures r.Success? <==> 1 <= id <= |t|
    ensures r.Success? ==> r.value == t[id - 1]
  {
    if 1 <= id <= |t| then Success(t[id - 1]) else Failure(NotFound)
  }
}
