/** `UsuarioService`: lists, finds and counts users, creates a user whose
    e-mail is not taken, applies partial updates that keep e-mails unique,
    and deletes users for good. The `usuarios` table is a field; identities
    are increasing but not contiguous, and `siguienteId` is the identity the
    next insert receives. */
module UsuarioServicio {
  import opened Comun
  import opened Usuarios

  /** The body of a create call (`CreateUsuarioDTO`), as the mapper copies it
      into a new user; any field may be absent from the body, but only the
      nullable columns, `tipoUsuario` and `activo` are left absent here. */
  datatype Alta = Alta(
    nombre: string,
    apellido: Option<string>,
    email: string,
    telefono: Option<string>,
    direccion: Option<string>,
    fechaNacimiento: Option<int>,
    tipoUsuario: Option<TipoUsuario>,
    activo: Option<bool>)

  /** The body of an update call: the fields `actualizarUsuario` reads, each
      of which may be absent. */
  datatype Cambios = Cambios(
    nombre: Option<string>,
    apellido: Option<string>,
    email: Option<string>,
    telefono: Option<string>,
    direccion: Option<string>,
    fechaNacimiento: Option<int>,
    activo: Option<bool>)

  /** `existsByEmail`: a user holds exactly this e-mail. */
  function ConEmail(email: string): Fila -> bool
  {
    (u: Fila) => u.email == email
  }

  /** `existsByEmailAndIdNot`: a user other than `id` holds this e-mail. */
  function OtroConEmail(email: string, id: int): Fila -> bool
  {
    (u: Fila) => u.email == email && u.id != id
  }

  function Activo(): Fila -> bool
  {
    (u: Fila) => u.activo
  }

  function Inactivo(): Fila -> bool
  {
    (u: Fila) => !u.activo
  }

  function DeTipo(tipo: TipoUsuario): Fila -> bool
  {
    (u: Fila) => u.tipoUsuario == tipo
  }

  /** The table: identities below `siguiente`, increasing along the table,
      and no e-mail held twice. */
  ghost predicate Tabla(t: seq<Fila>, siguiente: int)
  {
    && siguiente >= 1
    && (forall i :: 0 <= i < |t| ==> 1 <= t[i].id < siguiente)
    && (forall i, j :: 0 <= i < j < |t| ==> t[i].id < t[j].id)
    && (forall i, j :: 0 <= i < j < |t| ==> t[i].email != t[j].email)
  }

  /** The user `crearUsuario` stores under identity `id`: the mapped fields,
      a client unless the body names a type, and active unless the body says
      otherwise. */
  function Creado(a: Alta, id: int): (u: Fila)
    ensures u.id == id && u.email == a.email && u.nombre == a.nombre
    ensures u.tipoUsuario == if a.tipoUsuario.Some? then a.tipoUsuario.value else CLIENTE
    ensures u.apellido == a.apellido && u.telefono == a.telefono && u.direccion == a.direccion
    ensures u.fechaNacimiento == a.fechaNacimiento
    ensures u.activo <==> a.activo != Some(false)
  {
    Fila(id, a.nombre, a.apellido, a.email, a.telefono, a.direccion, a.fechaNacimiento,
         Nuevo(a.tipoUsuario, CLIENTE), Nuevo(a.activo, true))
  }

  /** The mapping and the `@PrePersist` defaults: a missing `activo` becomes
      true and a missing `tipoUsuario` becomes CLIENTE. */
  method NuevoUsuario(a: Alta, id: int) returns (u: Fila)
    ensures u == Creado(a, id)
  {
    u := Fila(id, a.nombre, a.apellido, a.email, a.telefono, a.direccion, a.fechaNacimiento, CLIENTE, true);
    if a.activo.Some? {
      u := u.(activo := a.activo.value);
    }
    if a.tipoUsuario.Some? {
      u := u.(tipoUsuario := a.tipoUsuario.value);
    }
  }

  /** The user an update stores: every present field replaces its column,
      every absent one leaves it; identity and type never change. */
  function Actualizado(u: Fila, c: Cambios): (g: Fila)
    ensures g.id == u.id && g.tipoUsuario == u.tipoUsuario
    ensures g.nombre == if c.nombre.Some? then c.nombre.value else u.nombre
    ensures g.email == if c.email.Some? then c.email.value else u.email
    ensures g.activo == if c.activo.Some? then c.activo.value else u.activo
    ensures c.apellido.Some? ==> g.apellido == c.apellido
    ensures c.apellido.None? ==> g.apellido == u.apellido
    ensures c.telefono.Some? ==> g.telefono == c.telefono
    ensures c.telefono.None? ==> g.telefono == u.telefono
    ensures c.direccion.Some? ==> g.direccion == c.direccion
    ensures c.direccion.None? ==> g.direccion == u.direccion
    ensures c.fechaNacimiento.Some? ==> g.fechaNacimiento == c.fechaNacimiento
    ensures c.fechaNacimiento.None? ==> g.fechaNacimiento == u.fechaNacimiento
  {
    Fila(u.id, Nuevo(c.nombre, u.nombre), NuevoOpcional(c.apellido, u.apellido), Nuevo(c.email, u.email),
         NuevoOpcional(c.telefono, u.telefono), NuevoOpcional(c.direccion, u.direccion),
         NuevoOpcional(c.fechaNacimiento, u.fechaNacimiento), u.tipoUsuario, Nuevo(c.activo, u.activo))
  }

  /** An update with no field stores the user unchanged, and applying an
      update twice is applying it once. */
  lemma ActualizadoVacioEIdempotente(u: Fila, c: Cambios)
    ensures Actualizado(u, Cambios(None, None, None, None, None, None, None)) == u
    ensures Actualizado(Actualizado(u, c), c) == Actualizado(u, c)
  {
  }

  /** The setter sequence of `actualizarUsuario`, applied to a loaded user. */
  method AplicarCambios(u0: Fila, c: Cambios) returns (u: Fila)
    ensures u == Actualizado(u0, c)
  {
    u := CambiarDatos(u0, c);
    u := CambiarContacto(u, c);
  }

  /** The first setters: the name, the surname and the e-mail. */
  method CambiarDatos(u0: Fila, c: Cambios) returns (u: Fila)
    ensures u == u0.(nombre := Nuevo(c.nombre, u0.nombre), apellido := NuevoOpcional(c.apellido, u0.apellido),
                     email := Nuevo(c.email, u0.email))
  {
    u := u0;
    if c.nombre.Some? {
      u := u.(nombre := c.nombre.value);
    }
    if c.apellido.Some? {
      u := u.(apellido := c.apellido);
    }
    if c.email.Some? {
      u := u.(email := c.email.value);
    }
  }

  /** The remaining setters: telephone, address, birth date and state. */
  method CambiarContacto(u0: Fila, c: Cambios) returns (u: Fila)
    ensures u == u0.(telefono := NuevoOpcional(c.telefono, u0.telefono),
                     direccion := NuevoOpcional(c.direccion, u0.direccion),
                     fechaNacimiento := NuevoOpcional(c.fechaNacimiento, u0.fechaNacimiento),
                     activo := Nuevo(c.activo, u0.activo))
  {
    u := u0;
    if c.telefono.Some? {
      u := u.(telefono := c.telefono);
    }
    if c.direccion.Some? {
      u := u.(direccion := c.direccion);
    }
    if c.fechaNacimiento.Some? {
      u := u.(fechaNacimiento := c.fechaNacimiento);
    }
    if c.activo.Some? {
      u := u.(activo := c.activo.value);
    }
  }

  /** In a valid table an e-mail names at most one user: a lookup by e-mail
      finds the row that holds it. */
  lemma EmailIdentifica(t: seq<Fila>, siguiente: int, i: int)
    requires Tabla(t, siguiente) && 0 <= i < |t|
    ensures Indice(t, ConEmail(t[i].email)) == i
  {
    assert ConEmail(t[i].email)(t[i]);
  }

  class UsuarioService {
    var usuarios: seq<Fila>
    var siguienteId: int

    ghost predicate Valid()
      reads this
    {
      Tabla(usuarios, siguienteId)
    }

    constructor ()
      ensures Valid() && usuarios == [] && siguienteId == 1
    {
      usuarios := [];
      siguienteId := 1;
    }

    /** `obtenerUsuarioPorId`: NotFound for an unknown identity. */
    function PorId(id: int): (r: Result<Fila>)
      reads this
      ensures r.Success? <==> exists i :: 0 <= i < |usuarios| && usuarios[i].id == id
      ensures r.Success? ==> r.value in usuarios && r.value.id == id
      ensures r.Failure? ==> r.error == NotFound
    {
      Buscar(usuarios, id)
    }

    /** `obtenerUsuariosActivos`: the active users, in table order. */
    function Activos(): (r: seq<Fila>)
      reads this
      ensures forall u :: u in r <==> u in usuarios && u.activo
    {
      Filtrar(usuarios, Activo())
    }

    /** `obtenerUsuariosPorTipo`. */
    function PorTipo(tipo: TipoUsuario): (r: seq<Fila>)
      reads this
      ensures forall u :: u in r <==> u in usuarios && u.tipoUsuario == tipo
    {
      Filtrar(usuarios, DeTipo(tipo))
    }

    /** `buscarUsuariosPorNombre`: the users whose name contains the term,
        ignoring case. */
    function PorNombre(nombre: string): (r: seq<Fila>)
      reads this
      ensures forall u :: u in r <==> u in usuarios && ContieneSinMayusculas(u.nombre, nombre)
    {
      Filtrar(usuarios, (u: Fila) => ContieneSinMayusculas(u.nombre, nombre))
    }

    /** `buscarUsuarioPorEmail`: NotFound when no user holds the e-mail. */
    function PorEmail(email: string): (r: Result<Fila>)
      reads this
      ensures r.Success? <==> exists i :: 0 <= i < |usuarios| && usuarios[i].email == email
      ensures r.Success? ==> r.value in usuarios && r.value.email == email
      ensures r.Failure? ==> r.error == NotFound
    {
      var i := Indice(usuarios, ConEmail(email));
      if i >= 0 then Success(usuarios[i]) else Failure(NotFound)
    }

    /** `contarUsuariosActivos`: as many as `Activos` lists. */
    function ContarActivos(): (n: nat)
      reads this
      ensures n == |Activos()|
    {
      Contar(usuarios, Activo())
    }

    /** `contarUsuariosInactivos`: the users that are not active. */
    function ContarInactivos(): (n: nat)
      reads this
      ensures n == |Filtrar(usuarios, Inactivo())|
    {
      Contar(usuarios, Inactivo())
    }

    /** `contarUsuariosPorTipo`: as many as `PorTipo` lists. */
    function ContarPorTipo(tipo: TipoUsuario): (n: nat)
      reads this
      ensures n == |PorTipo(tipo)|
    {
      Contar(usuarios, DeTipo(tipo))
    }

    /** Every user is counted once, as active or as inactive. */
    lemma ActivosMasInactivos()
      ensures ContarActivos() + ContarInactivos() == |usuarios|
    {
      ContarComplemento(usuarios, Activo(), Inactivo());
    }

    /** `crearUsuario`: an e-mail some user already holds is a business
        error and nothing is written; otherwise the user is stored under the
        next identity. */
    method Crear(a: Alta) returns (r: Result<Fila>)
      requires Valid()
      modifies this
      ensures Valid()
      ensures Existe(old(usuarios), ConEmail(a.email)) ==>
        r == Failure(Business) && usuarios == old(usuarios) && siguienteId == old(siguienteId)
      ensures !Existe(old(usuarios), ConEmail(a.email)) ==>
        && r == Success(Creado(a, old(siguienteId)))
        && usuarios == old(usuarios) + [r.value]
        && siguienteId == old(siguienteId) + 1
    {
      if Existe(usuarios, ConEmail(a.email)) {
        r := Failure(Business);
      } else {
        var u := NuevoUsuario(a, siguienteId);
        TablaConAlta(usuarios, siguienteId, u);
        usuarios := usuarios + [u];
        siguienteId := siguienteId + 1;
        r := Success(u);
      }
    }

    /** `actualizarUsuario`: NotFound for an unknown identity; an e-mail held
        by another user is a business error; in both cases nothing is
        written. Otherwise only that user changes, as `Actualizado` says. */
    method Actualizar(id: int, c: Cambios) returns (r: Result<Fila>)
      requires Valid()
      modifies this`usuarios
      ensures Valid()
      ensures var i := Indice(old(usuarios), ConId(id));
        && (i < 0 ==> r == Failure(NotFound) && usuarios == old(usuarios))
        && (0 <= i && c.email.Some? && Existe(old(usuarios), OtroConEmail(c.email.value, id)) ==>
              r == Failure(Business) && usuarios == old(usuarios))
        && (0 <= i && !(c.email.Some? && Existe(old(usuarios), OtroConEmail(c.email.value, id))) ==>
              && usuarios == old(usuarios)[i := Actualizado(old(usuarios)[i], c)]
              && r == Success(usuarios[i]))
    {
      var i := Indice(usuarios, ConId(id));
      if i < 0 {
        r := Failure(NotFound);
      } else if c.email.Some? && Existe(usuarios, OtroConEmail(c.email.value, id)) {
        r := Failure(Business);
      } else {
        var u := AplicarCambios(usuarios[i], c);
        TablaConCambio(usuarios, siguienteId, i, u, c.email);
        usuarios := usuarios[i := u];
        r := Success(u);
      }
    }

    /** `eliminarUsuario`: NotFound for an unknown identity; otherwise the
        row is removed and every other row stays, in order. */
    method Eliminar(id: int) returns (r: Result<()>)
      requires Valid()
      modifies this`usuarios
      ensures Valid()
      ensures var i := Indice(old(usuarios), ConId(id));
        && (i < 0 ==> r == Failure(NotFound) && usuarios == old(usuarios))
        && (0 <= i ==> r == Success(()) && usuarios == SinPosicion(old(usuarios), i))
      ensures forall u :: u in usuarios <==> u in old(usuarios) && u.id != id
    {
      var i := Indice(usuarios, ConId(id));
      QuitarPorId(usuarios, siguienteId, id);
      if i < 0 {
        r := Failure(NotFound);
      } else {
        usuarios := SinPosicion(usuarios, i);
        r := Success(());
      }
    }
  }

  /** Appending a user under the next identity, with an e-mail no user
      holds, keeps the table valid. */
  lemma TablaConAlta(t: seq<Fila>, siguiente: int, u: Fila)
    requires Tabla(t, siguiente) && u.id == siguiente
    requires !Existe(t, ConEmail(u.email))
    ensures Tabla(t + [u], siguiente + 1)
  {
    var v := t + [u];
    forall i, j | 0 <= i < j < |v| ensures v[i].email != v[j].email {
      if j == |t| {
        assert !ConEmail(u.email)(t[i]);
      }
    }
  }

  /** Replacing row `i` by a row with the same identity keeps the table
      valid when the e-mail is kept, or is one no other user holds. */
  lemma TablaConCambio(t: seq<Fila>, siguiente: int, i: int, g: Fila, email: Option<string>)
    requires Tabla(t, siguiente) && 0 <= i < |t| && g.id == t[i].id
    requires g.email == if email.Some? then email.value else t[i].email
    requires email.Some? ==> !Existe(t, OtroConEmail(email.value, t[i].id))
    ensures Tabla(t[i := g], siguiente)
  {
    var v := t[i := g];
    forall a, b | 0 <= a < b < |v| ensures v[a].email != v[b].email {
      if email.Some? && (a == i || b == i) {
        var k := if a == i then b else a;
        assert t[k].id != t[i].id;
        assert !OtroConEmail(email.value, t[i].id)(t[k]);
      }
    }
  }

  /** Removing a row keeps the table valid and keeps exactly the rows with
      another identity. */
  lemma TablaSinPosicion(t: seq<Fila>, siguiente: int, i: int)
    requires Tabla(t, siguiente) && 0 <= i < |t|
    ensures Tabla(SinPosicion(t, i), siguiente)
    ensures forall u :: u in SinPosicion(t, i) <==> u in t && u.id != t[i].id
  {
    SinPosicionClaves(t, i, (u: Fila) => u.id);
    var v := SinPosicion(t, i);
    forall a, b | 0 <= a < b < |v| ensures v[a].email != v[b].email {
      var a' := if a < i then a else a + 1;
      var b' := if b < i then b else b + 1;
      assert v[a] == t[a'] && v[b] == t[b'];
    }
  }

  /** Deleting by identity: without a row of that identity nothing holds
      it; otherwise removing its row keeps the table valid and keeps exactly
      the rows with another identity. */
  lemma QuitarPorId(t: seq<Fila>, siguiente: int, id: int)
    requires Tabla(t, siguiente)
    ensures Indice(t, ConId(id)) < 0 ==> forall u :: u in t ==> u.id != id
    ensures 0 <= Indice(t, ConId(id)) ==>
      && Tabla(SinPosicion(t, Indice(t, ConId(id))), siguiente)
      && forall u :: u in SinPosicion(t, Indice(t, ConId(id))) <==> u in t && u.id != id
  {
    var i := Indice(t, ConId(id));
    if i < 0 {
      forall u | u in t ensures u.id != id {
        var k :| 0 <= k < |t| && t[k] == u;
        assert !ConId(id)(t[k]);
      }
    } else {
      assert ConId(id)(t[i]);
      TablaSinPosicion(t, siguiente, i);
    }
  }
}
