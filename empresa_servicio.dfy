/** `EmpresaService`: finds companies, creates the one company of a user of
    type EMPRESA, applies partial updates that re-check the tax number only
    when it changes, and deactivates companies instead of deleting them. The
    service sees the user table, which it only reads, and the company table,
    which it changes. */
module EmpresaServicio {
  import opened Comun
  import opened Empresas
  import U = Usuarios

  /** The body of a create call: the fields `create` reads. The legal name
      (`razonSocial`) becomes the company's name and the RFC its tax number. */
  datatype Alta = Alta(
    razonSocial: string,
    rfc: Option<string>,
    descripcion: Option<string>,
    direccion: Option<string>,
    telefono: Option<string>,
    sitioWeb: Option<string>,
    activa: Option<bool>)

  /** The body of an update call (`UpdateEmpresaDTO`): the fields `update`
      reads, each of which may be absent. */
  datatype Cambios = Cambios(
    razonSocial: Option<string>,
    rfc: Option<string>,
    telefono: Option<string>,
    direccion: Option<string>,
    sitioWeb: Option<string>,
    descripcion: Option<string>,
    activa: Option<bool>)

  /** `EmpresaDTO` as `convertToDTO` fills it: the row and its owner's
      identity, name and e-mail. */
  datatype Vista = Vista(empresa: Fila, usuarioId: int, usuarioNombre: string, usuarioEmail: string)

  function DeUsuario(usuarioId: int): Fila -> bool
  {
    (e: Fila) => e.usuarioId == usuarioId
  }

  /** `findByRut`. */
  function ConRut(rut: string): Fila -> bool
  {
    (e: Fila) => e.rut == Some(rut)
  }

  function Activa(): Fila -> bool
  {
    (e: Fila) => e.activo
  }

  /** The `WHERE` clause of `findWithFilters`: a name contained ignoring
      case, an exact tax number and a state, each only when given. */
  predicate Filtra(nombre: Option<string>, rut: Option<string>, activo: Option<bool>, e: Fila)
  {
    && (nombre.Some? ==> ContieneSinMayusculas(e.nombre, nombre.value))
    && (rut.Some? ==> e.rut == rut)
    && Coincide(activo, e.activo)
  }

  function Filtro(nombre: Option<string>, rut: Option<string>, activo: Option<bool>): Fila -> bool
  {
    (e: Fila) => Filtra(nombre, rut, activo, e)
  }

  /** The tables the service sees: positional company identities, one
      company per user, no tax number held twice (the unique column allows
      many rows without one), and every company's owner present. */
  ghost predicate Tablas(empresas: seq<Fila>, usuarios: seq<U.Fila>)
  {
    && Posicional(empresas)
    && (forall i, j :: 0 <= i < j < |empresas| ==> empresas[i].usuarioId != empresas[j].usuarioId)
    && (forall i, j :: 0 <= i < j < |empresas| && empresas[i].rut.Some? ==> empresas[i].rut != empresas[j].rut)
    && (forall i :: 0 <= i < |empresas| ==> U.Buscar(usuarios, empresas[i].usuarioId).Success?)
  }

  /** `convertToDTO`, for a company whose owner is in the user table. */
  function Convertir(e: Fila, usuarios: seq<U.Fila>): (v: Vista)
    requires U.Buscar(usuarios, e.usuarioId).Success?
    ensures v.empresa == e && v.usuarioId == e.usuarioId
    ensures exists i :: 0 <= i < |usuarios| && usuarios[i].id == e.usuarioId
                        && v.usuarioNombre == usuarios[i].nombre && v.usuarioEmail == usuarios[i].email
  {
    var u := U.Buscar(usuarios, e.usuarioId).value;
    Vista(e, e.usuarioId, u.nombre, u.email)
  }

  /** The views of a list of companies, in its order. */
  function Convertidas(es: seq<Fila>, usuarios: seq<U.Fila>): (r: seq<Vista>)
    requires forall i :: 0 <= i < |es| ==> U.Buscar(usuarios, es[i].usuarioId).Success?
    ensures |r| == |es|
    ensures forall i :: 0 <= i < |es| ==> r[i] == Convertir(es[i], usuarios)
  {
    if es == [] then []
    else [Convertir(es[0], usuarios)] + Convertidas(es[1..], usuarios)
  }

  /** Every company of a sub-list of a valid table has its owner present. */
  lemma PropietariosPresentes(empresas: seq<Fila>, es: seq<Fila>, usuarios: seq<U.Fila>)
    requires Tablas(empresas, usuarios)
    requires forall e :: e in es ==> e in empresas
    ensures forall i :: 0 <= i < |es| ==> U.Buscar(usuarios, es[i].usuarioId).Success?
  {
    forall i | 0 <= i < |es| ensures U.Buscar(usuarios, es[i].usuarioId).Success? {
      assert es[i] in empresas;
      var k :| 0 <= k < |empresas| && empresas[k] == es[i];
    }
  }

  /** The views of a list are the views of its companies, and only those. */
  lemma VistasDe(es: seq<Fila>, usuarios: seq<U.Fila>)
    requires forall i :: 0 <= i < |es| ==> U.Buscar(usuarios, es[i].usuarioId).Success?
    ensures forall v :: v in Convertidas(es, usuarios) ==> v.empresa in es
    ensures forall i :: 0 <= i < |es| ==> Convertir(es[i], usuarios) in Convertidas(es, usuarios)
  {
    var r := Convertidas(es, usuarios);
    forall v | v in r ensures v.empresa in es {
      var k :| 0 <= k < |r| && r[k] == v;
    }
  }

  /** The row `create` stores under identity `id` for user `usuarioId`:
      the legal name as name, the RFC as tax number, the contact columns,
      and active unless the body says otherwise. */
  function Creada(a: Alta, id: int, usuarioId: int): (e: Fila)
    ensures e.id == id && e.usuarioId == usuarioId
    ensures e.nombre == a.razonSocial && e.rut == a.rfc
    ensures e.descripcion == a.descripcion && e.direccion == a.direccion
    ensures e.telefono == a.telefono && e.sitioWeb == a.sitioWeb
    ensures e.activo <==> a.activa != Some(false)
  {
    Fila(id, a.razonSocial, a.rfc, a.descripcion, a.direccion, a.telefono, a.sitioWeb,
         Nuevo(a.activa, true), usuarioId)
  }

  /** The setter sequence of `create` on a new company. */
  method NuevaEmpresa(a: Alta, id: int, usuarioId: int) returns (e: Fila)
    ensures e == Creada(a, id, usuarioId)
  {
    e := Fila(id, a.razonSocial, a.rfc, a.descripcion, a.direccion, a.telefono, a.sitioWeb, true, usuarioId);
    if a.activa.Some? {
      e := e.(activo := a.activa.value);
    }
  }

  /** The tax-number check of `update` applies: an RFC is given and it is
      not the company's current tax number. */
  predicate CambiaRut(e: Fila, c: Cambios)
  {
    c.rfc.Some? && c.rfc != e.rut
  }

  /** The row `update` stores: every present field replaces its column,
      every absent one leaves it; identity and owner never change. */
  function Actualizada(e: Fila, c: Cambios): (g: Fila)
    ensures g.id == e.id && g.usuarioId == e.usuarioId
    ensures g.nombre == if c.razonSocial.Some? then c.razonSocial.value else e.nombre
    ensures g.activo == if c.activa.Some? then c.activa.value else e.activo
    ensures c.rfc.Some? ==> g.rut == c.rfc
    ensures c.rfc.None? ==> g.rut == e.rut
    ensures c.telefono.Some? ==> g.telefono == c.telefono
    ensures c.telefono.None? ==> g.telefono == e.telefono
    ensures c.direccion.Some? ==> g.direccion == c.direccion
    ensures c.direccion.None? ==> g.direccion == e.direccion
    ensures c.sitioWeb.Some? ==> g.sitioWeb == c.sitioWeb
    ensures c.sitioWeb.None? ==> g.sitioWeb == e.sitioWeb
    ensures c.descripcion.Some? ==> g.descripcion == c.descripcion
    ensures c.descripcion.None? ==> g.descripcion == e.descripcion
  {
    Fila(e.id, Nuevo(c.razonSocial, e.nombre), NuevoOpcional(c.rfc, e.rut),
         NuevoOpcional(c.descripcion, e.descripcion), NuevoOpcional(c.direccion, e.direccion),
         NuevoOpcional(c.telefono, e.telefono), NuevoOpcional(c.sitioWeb, e.sitioWeb),
         Nuevo(c.activa, e.activo), e.usuarioId)
  }

  /** An update with no field stores the row unchanged, and applying an
      update twice is applying it once. */
  lemma ActualizadaVaciaEIdempotente(e: Fila, c: Cambios)
    ensures Actualizada(e, Cambios(None, None, None, None, None, None, None)) == e
    ensures Actualizada(Actualizada(e, c), c) == Actualizada(e, c)
  {
  }

  /** The setter sequence of `update`, applied to a loaded row. */
  method AplicarCambios(e0: Fila, c: Cambios) returns (e: Fila)
    ensures e == Actualizada(e0, c)
  {
    e := CambiarIdentidad(e0, c);
    e := CambiarContacto(e, c);
  }

  /** The first setters: the name and the tax number. */
  method CambiarIdentidad(e0: Fila, c: Cambios) returns (e: Fila)
    ensures e == e0.(nombre := Nuevo(c.razonSocial, e0.nombre), rut := NuevoOpcional(c.rfc, e0.rut))
  {
    e := e0;
    if c.razonSocial.Some? {
      e := e.(nombre := c.razonSocial.value);
    }
    if c.rfc.Some? {
      e := e.(rut := c.rfc);
    }
  }

  /** The remaining setters: telephone, address, web site, description and
      state. */
  method CambiarContacto(e0: Fila, c: Cambios) returns (e: Fila)
    ensures e == e0.(telefono := NuevoOpcional(c.telefono, e0.telefono),
                     direccion := NuevoOpcional(c.direccion, e0.direccion),
                     sitioWeb := NuevoOpcional(c.sitioWeb, e0.sitioWeb),
                     descripcion := NuevoOpcional(c.descripcion, e0.descripcion),
                     activo := Nuevo(c.activa, e0.activo))
  {
    e := e0;
    if c.telefono.Some? {
      e := e.(telefono := c.telefono);
    }
    if c.direccion.Some? {
      e := e.(direccion := c.direccion);
    }
    if c.sitioWeb.Some? {
      e := e.(sitioWeb := c.sitioWeb);
    }
    if c.descripcion.Some? {
      e := e.(descripcion := c.descripcion);
    }
    if c.activa.Some? {
      e := e.(activo := c.activa.value);
    }
  }

  /** The row a soft delete stores: inactive, everything else kept. */
  function Desactivada(e: Fila): (g: Fila)
    ensures !g.activo && g.(activo := e.activo) == e
  {
    e.(activo := false)
  }

  /** Deleting twice stores what deleting once does. */
  lemma DesactivadaIdempotente(e: Fila)
    ensures Desactivada(Desactivada(e)) == Desactivada(e)
  {
  }

  class EmpresaService {
    var empresas: seq<Fila>
    var usuarios: seq<U.Fila>

    ghost predicate Valid()
      reads this
    {
      Tablas(empresas, usuarios)
    }

    constructor (usuarios: seq<U.Fila>)
      ensures Valid() && empresas == [] && this.usuarios == usuarios
    {
      empresas := [];
      this.usuarios := usuarios;
    }

    /** `findAll`: every company, in table order. */
    function Todas(): (r: seq<Vista>)
      reads this
      requires Valid()
      ensures |r| == |empresas|
      ensures forall i :: 0 <= i < |r| ==> r[i].empresa == empresas[i]
    {
      Convertidas(empresas, usuarios)
    }

    /** `findById`: NotFound for an unknown identity. */
    function PorId(id: int): (r: Result<Vista>)
      reads this
      requires Valid()
      ensures r.Success? <==> 1 <= id <= |empresas|
      ensures r.Success? ==> r.value.empresa.id == id && r.value.empresa in empresas
      ensures r.Failure? ==> r.error == NotFound
    {
      match Buscar(empresas, id)
      case Success(e) => Success(Convertir(e, usuarios))
      case Failure(err) => Failure(err)
    }

    /** `findByUsuarioId`: the company of a user, NotFound when the user has
        none. */
    function PorUsuario(usuarioId: int): (r: Result<Vista>)
      reads this
      requires Valid()
      ensures r.Success? <==> exists i :: 0 <= i < |empresas| && empresas[i].usuarioId == usuarioId
      ensures r.Success? ==> r.value.empresa in empresas && r.value.usuarioId == usuarioId
      ensures r.Failure? ==> r.error == NotFound
    {
      var i := Indice(empresas, DeUsuario(usuarioId));
      if i >= 0 then Success(Convertir(empresas[i], usuarios)) else Failure(NotFound)
    }

    /** `findByActiva`: the active companies, in table order, whatever the
        argument says. */
    function PorActiva(activa: bool): (r: seq<Vista>)
      reads this
      requires Valid()
      ensures forall v :: v in r ==> v.empresa in empresas && v.empresa.activo
      ensures forall e :: e in empresas && e.activo ==> Convertir(e, usuarios) in r
    {
      var activas := Filtrar(empresas, Activa());
      PropietariosPresentes(empresas, activas, usuarios);
      VistasDe(activas, usuarios);
      Convertidas(activas, usuarios)
    }

    /** `findWithFilters` without paging: the companies `Filtra` accepts,
        in table order. */
    function ConFiltros(nombre: Option<string>, rut: Option<string>, activo: Option<bool>): (r: seq<Vista>)
      reads this
      requires Valid()
      ensures forall v :: v in r ==> v.empresa in empresas && Filtra(nombre, rut, activo, v.empresa)
      ensures forall e :: e in empresas && Filtra(nombre, rut, activo, e) ==> Convertir(e, usuarios) in r
    {
      var elegidas := Filtrar(empresas, Filtro(nombre, rut, activo));
      PropietariosPresentes(empresas, elegidas, usuarios);
      VistasDe(elegidas, usuarios);
      Convertidas(elegidas, usuarios)
    }

    /** `create`: an unknown user is NotFound; a user that is not of type
        EMPRESA, or that already has a company, is a business error; a tax
        number another company holds breaks the unique column. In these
        cases nothing is written. Otherwise the company is stored under the
        next identity and returned. */
    method Crear(a: Alta, usuarioId: int) returns (r: Result<Vista>)
      requires Valid()
      modifies this`empresas
      ensures Valid()
      ensures U.Buscar(usuarios, usuarioId).Failure? ==> r == Failure(NotFound) && empresas == old(empresas)
      ensures U.Buscar(usuarios, usuarioId).Success? && U.Buscar(usuarios, usuarioId).value.tipoUsuario != U.EMPRESA ==>
        r == Failure(Business) && empresas == old(empresas)
      ensures U.Buscar(usuarios, usuarioId).Success? && U.Buscar(usuarios, usuarioId).value.tipoUsuario == U.EMPRESA
              && Existe(old(empresas), DeUsuario(usuarioId)) ==>
        r == Failure(Business) && empresas == old(empresas)
      ensures U.Buscar(usuarios, usuarioId).Success? && U.Buscar(usuarios, usuarioId).value.tipoUsuario == U.EMPRESA
              && !Existe(old(empresas), DeUsuario(usuarioId)) && a.rfc.Some? && Existe(old(empresas), ConRut(a.rfc.value)) ==>
        r == Failure(Constraint) && empresas == old(empresas)
      ensures U.Buscar(usuarios, usuarioId).Success? && U.Buscar(usuarios, usuarioId).value.tipoUsuario == U.EMPRESA
              && !Existe(old(empresas), DeUsuario(usuarioId)) && !(a.rfc.Some? && Existe(old(empresas), ConRut(a.rfc.value))) ==>
        && empresas == old(empresas) + [Creada(a, |old(empresas)| + 1, usuarioId)]
        && r == Success(Convertir(Creada(a, |old(empresas)| + 1, usuarioId), usuarios))
      ensures r.Success? ==>
        && empresas == old(empresas) + [Creada(a, |old(empresas)| + 1, usuarioId)]
        && r.value.empresa == empresas[|empresas| - 1]
      ensures r.Failure? ==> empresas == old(empresas)
    {
      var usuario := U.Buscar(usuarios, usuarioId);
      if usuario.Failure? {
        r := Failure(NotFound);
      } else if usuario.value.tipoUsuario != U.EMPRESA {
        r := Failure(Business);
      } else if Existe(empresas, DeUsuario(usuarioId)) {
        r := Failure(Business);
      } else if a.rfc.Some? && Existe(empresas, ConRut(a.rfc.value)) {
        r := Failure(Constraint);
      } else {
        var e := NuevaEmpresa(a, |empresas| + 1, usuarioId);
        TablasConAlta(empresas, usuarios, e);
        empresas := empresas + [e];
        r := Success(Convertir(e, usuarios));
      }
    }

    /** `update`: NotFound for an unknown identity; a changed tax number that
        another company holds is a business error; in both cases nothing is
        written. Otherwise only that company changes, as `Actualizada`
        says. */
    method Actualizar(id: int, c: Cambios) returns (r: Result<Vista>)
      requires Valid()
      modifies this`empresas
      ensures Valid()
      ensures !(1 <= id <= |old(empresas)|) ==> r == Failure(NotFound) && empresas == old(empresas)
      ensures 1 <= id <= |old(empresas)| && CambiaRut(old(empresas)[id - 1], c)
              && Existe(old(empresas), ConRut(c.rfc.value)) ==>
        r == Failure(Business) && empresas == old(empresas)
      ensures 1 <= id <= |old(empresas)|
              && !(CambiaRut(old(empresas)[id - 1], c) && Existe(old(empresas), ConRut(c.rfc.value))) ==>
        && empresas == old(empresas)[id - 1 := Actualizada(old(empresas)[id - 1], c)]
        && r.Success? && r.value.empresa == empresas[id - 1]
    {
      var encontrada := Buscar(empresas, id);
      if encontrada.Failure? {
        r := Failure(NotFound);
      } else if CambiaRut(encontrada.value, c) && Existe(empresas, ConRut(c.rfc.value)) {
        r := Failure(Business);
      } else {
        var e := AplicarCambios(encontrada.value, c);
        TablasConCambio(empresas, usuarios, id - 1, e, c.rfc);
        empresas := empresas[id - 1 := e];
        r := Success(Convertir(e, usuarios));
      }
    }

    /** `delete`: NotFound for an unknown identity; otherwise the company is
        deactivated and stays in the table. */
    method Eliminar(id: int) returns (r: Result<()>)
      requires Valid()
      modifies this`empresas
      ensures Valid()
      ensures !(1 <= id <= |old(empresas)|) ==> r == Failure(NotFound) && empresas == old(empresas)
      ensures 1 <= id <= |old(empresas)| ==>
        r == Success(()) && empresas == old(empresas)[id - 1 := Desactivada(old(empresas)[id - 1])]
    {
      var encontrada := Buscar(empresas, id);
      if encontrada.Failure? {
        r := Failure(NotFound);
      } else {
        var e := Desactivada(encontrada.value);
        TablasConCambio(empresas, usuarios, id - 1, e, None);
        empresas := empresas[id - 1 := e];
        r := Success(());
      }
    }
  }

  /** `findByActiva` lists the same companies for either argument. */
  lemma PorActivaIgnoraArgumento(s: EmpresaService)
    requires s.Valid()
    ensures s.PorActiva(true) == s.PorActiva(false)
  {
  }

  /** Appending a company under the next identity, for a present user with
      no company and with a tax number no company holds, keeps the tables
      valid. */
  lemma TablasConAlta(empresas: seq<Fila>, usuarios: seq<U.Fila>, e: Fila)
    requires Tablas(empresas, usuarios) && e.id == |empresas| + 1
    requires U.Buscar(usuarios, e.usuarioId).Success?
    requires !Existe(empresas, DeUsuario(e.usuarioId))
    requires e.rut.Some? ==> !Existe(empresas, ConRut(e.rut.value))
    ensures Tablas(empresas + [e], usuarios)
  {
    var t := empresas + [e];
    forall i, j | 0 <= i < j < |t| ensures t[i].usuarioId != t[j].usuarioId {
      if j == |empresas| {
        assert !DeUsuario(e.usuarioId)(empresas[i]);
      }
    }
    forall i, j | 0 <= i < j < |t| && t[i].rut.Some? ensures t[i].rut != t[j].rut {
      if j == |empresas| && e.rut.Some? {
        assert !ConRut(e.rut.value)(empresas[i]);
      }
    }
  }

  /** Replacing row `i` by a row with the same identity and owner keeps the
      tables valid when the tax number is kept, or is one no other company
      holds. */
  lemma TablasConCambio(empresas: seq<Fila>, usuarios: seq<U.Fila>, i: int, g: Fila, rfc: Option<string>)
    requires Tablas(empresas, usuarios) && 0 <= i < |empresas|
    requires g.id == empresas[i].id && g.usuarioId == empresas[i].usuarioId
    requires g.rut == if rfc.Some? then rfc else empresas[i].rut
    requires rfc.Some? && rfc != empresas[i].rut ==> !Existe(empresas, ConRut(rfc.value))
    ensures Tablas(empresas[i := g], usuarios)
  {
    var t := empresas[i := g];
    forall a, b | 0 <= a < b < |t| && t[a].rut.Some? ensures t[a].rut != t[b].rut {
      if rfc.Some? && rfc != empresas[i].rut && (a == i || b == i) {
        var k := if a == i then b else a;
        assert !ConRut(rfc.value)(empresas[k]);
      }
    }
  }
}
