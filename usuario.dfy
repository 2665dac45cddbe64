/** The `Usuario` entity: a client, a technician or a company owner, with a
    unique e-mail. Users are deleted for good, so identities only grow and
    leave gaps. */
module Usuarios {
  import opened Comun

  /** The kinds of user. */
  datatype TipoUsuario = CLIENTE | TECNICO | EMPRESA

  /** A stored row of `usuarios`. Times are whole seconds; the coordinates
      and the audit columns are not modelled. */
  datatype Fila = Fila(
    id: int,
    nombre: string,
    apellido: Option<string>,
    email: string,
    telefono: Option<string>,
    direccion: Option<string>,
    fechaNacimiento: Option<int>,
    tipoUsuario: TipoUsuario,
    activo: bool)

  function ConId(id: int): Fila -> bool
  {
    (u: Fila) => u.id == id
  }

  /** `findById`: the row with that identity, NotFound when there is none. */
  function Buscar(t: seq<Fila>, id: int): (r: Result<Fila>)
    ensures r.Success? <==> exists i :: 0 <= i < |t| && t[i].id == id
    ensures r.Success? ==> r.value in t && r.value.id == id
    ensures r.Failure? ==> r.error == NotFound
  {
    var i := Indice(t, ConId(id));
    if i >= 0 then Success(t[i]) else Failure(NotFound)
  }
}
