/** `ProveedorServicioService`: the providers of a subcategory. Independent
    technicians come first, then the active companies with a technician able
    to take the work; each entry carries a price, a review count and a short
    descriptive text. The tables are only read. */
module ProveedorServicio {
  import opened Comun
  import S = Subcategorias
  import T = Tecnicos
  import E = Empresas
  import U = Usuarios
  import opened Redondeo
  import opened Criterios
  import opened Agregados
  import opened InfoProveedor
  import opened Listado

  // ---------------------------------------------------------------------------
  // Listing entries (`convertTecnicoToDTO`, `convertEmpresaToDTO`)

  /** An entry of the listing; the rating average is not modelled. */
  datatype Proveedor = Proveedor(
    id: int,
    nombre: string,
    esEmpresa: bool,
    precioBase: Option<real>,
    foto: Option<string>,
    descripcion: Option<string>,
    informacionAdicional: string,
    numeroResenas: Option<int>,
    telefono: Option<string>,
    email: Option<string>,
    direccion: Option<string>,
    disponible: bool,
    subcategoriaNombre: string,
    subcategoriaId: int)

  /** The entry of an independent technician: its own price, description and
      review count, its user's e-mail as photo and e-mail, no telephone or
      address. */
  function DeTecnico(t: T.Fila, subcategoriaNombre: string): Proveedor
  {
    Proveedor(t.id, t.nombreUsuario, false, t.precioBaseHora, Some(t.emailUsuario),
              t.descripcionProfesional, InfoTecnico(t), t.totalResenas, None,
              Some(t.emailUsuario), None, t.disponible, subcategoriaNombre, t.subcategoriaId)
  }

  method ConvertirTecnico(t: T.Fila, subcategoriaNombre: string) returns (p: Proveedor)
    ensures p == DeTecnico(t, subcategoriaNombre)
    ensures !p.esEmpresa && p.id == t.id && p.precioBase == t.precioBaseHora
  {
    var info := ConstruirInfoTecnico(t);
    p := Proveedor(t.id, t.nombreUsuario, false, t.precioBaseHora, Some(t.emailUsuario),
                   t.descripcionProfesional, info, t.totalResenas, None,
                   Some(t.emailUsuario), None, t.disponible, subcategoriaNombre, t.subcategoriaId);
  }

  /** The e-mail of the owning user. */
  function Correo(usuarios: seq<U.Fila>, usuarioId: int): Option<string>
  {
    var u := U.Buscar(usuarios, usuarioId);
    if u.Success? then Some(u.value.email) else None
  }

  /** The entry of a company, given its technicians: the average price of
      those that quote, the reviews of those active in the subcategory, and
      its own contact columns. Fails when the average does. */
  function DeEmpresa(e: E.Fila, suyos: seq<T.Fila>, subcategoriaId: int, subcategoriaNombre: string,
                     correo: Option<string>): (r: Result<Proveedor>)
    ensures r.Failure? <==> PrecioPromedio(suyos, subcategoriaId).Failure?
    ensures r.Success? ==>
      r.value.esEmpresa && r.value.id == e.id
      && r.value.precioBase == Some(PrecioPromedio(suyos, subcategoriaId).value)
      && r.value.numeroResenas == Some(TotalResenas(suyos, subcategoriaId))
  {
    var precio := PrecioPromedio(suyos, subcategoriaId);
    if precio.Failure? then Failure(precio.error)
    else Success(Proveedor(e.id, e.nombre, true, Some(precio.value), None, e.descripcion,
                           InfoEmpresa(e, suyos, subcategoriaId), Some(TotalResenas(suyos, subcategoriaId)),
                           e.telefono, correo, e.direccion, e.activo, subcategoriaNombre, subcategoriaId))
  }

  method ConvertirEmpresa(e: E.Fila, suyos: seq<T.Fila>, subcategoriaId: int, subcategoriaNombre: string,
                          correo: Option<string>) returns (r: Result<Proveedor>)
    ensures r == DeEmpresa(e, suyos, subcategoriaId, subcategoriaNombre, correo)
  {
    var precio := PrecioPromedio(suyos, subcategoriaId);
    if precio.Failure? {
      return Failure(precio.error);
    }
    var info := ConstruirInfoEmpresa(e, suyos, subcategoriaId);
    r := Success(Proveedor(e.id, e.nombre, true, Some(precio.value), None, e.descripcion,
                           info, Some(TotalResenas(suyos, subcategoriaId)),
                           e.telefono, correo, e.direccion, e.activo, subcategoriaNombre, subcategoriaId));
  }

  /** The entry of company `e` within the whole technician table. */
  function Convertida(e: E.Fila, tecnicos: seq<T.Fila>, usuarios: seq<U.Fila>, subcategoriaId: int,
                      subcategoriaNombre: string): Result<Proveedor>
  {
    DeEmpresa(e, TecnicosDe(tecnicos, e.id), subcategoriaId, subcategoriaNombre, Correo(usuarios, e.usuarioId))
  }

  // ---------------------------------------------------------------------------
  // The listing

  function DeTecnicoEn(subcategoriaNombre: string): T.Fila -> Proveedor
  {
    (t: T.Fila) => DeTecnico(t, subcategoriaNombre)
  }

  function ConvertidaEn(tecnicos: seq<T.Fila>, usuarios: seq<U.Fila>, subcategoriaId: int,
                        subcategoriaNombre: string): E.Fila -> Result<Proveedor>
  {
    (e: E.Fila) => Convertida(e, tecnicos, usuarios, subcategoriaId, subcategoriaNombre)
  }

  /** A company whose entry cannot be built: it is listed, but none of its
      qualifying technicians states a price. */
  predicate SinPrecio(e: E.Fila, tecnicos: seq<T.Fila>, subcategoriaId: int)
  {
    Ofrece(e, tecnicos, subcategoriaId) && !Existe(TecnicosDe(tecnicos, e.id), CotizaEn(subcategoriaId))
  }

  /** `getProveedoresPorSubcategoria`: NotFound for an unknown subcategory;
      otherwise the independent technicians and then the listed companies,
      or the failure of a company's entry. */
  function Proveedores(subcategorias: seq<S.Fila>, tecnicos: seq<T.Fila>, empresas: seq<E.Fila>,
                       usuarios: seq<U.Fila>, subcategoriaId: int): (r: Result<seq<Proveedor>>)
    requires S.Posicional(subcategorias)
    ensures (r.Failure? && r.error == NotFound) <==> S.Buscar(subcategorias, subcategoriaId).Failure?
  {
    var s := S.Buscar(subcategorias, subcategoriaId);
    if s.Failure? then Failure(s.error)
    else
      var deEmpresas := ListarHastaFallo(empresas, OfreceEn(tecnicos, subcategoriaId),
                                         ConvertidaEn(tecnicos, usuarios, subcategoriaId, s.value.nombre));
      if deEmpresas.Failure? then Failure(deEmpresas.error)
      else Success(Listar(tecnicos, IndependienteEn(subcategoriaId), DeTecnicoEn(s.value.nombre)) + deEmpresas.value)
  }

  /** For a known subcategory the listing fails, with a division error,
      exactly when a listed company has no technician with a price. */
  lemma ProveedoresFalla(subcategorias: seq<S.Fila>, tecnicos: seq<T.Fila>, empresas: seq<E.Fila>,
                         usuarios: seq<U.Fila>, subcategoriaId: int)
    requires S.Posicional(subcategorias) && 1 <= subcategoriaId <= |subcategorias|
    ensures var r := Proveedores(subcategorias, tecnicos, empresas, usuarios, subcategoriaId);
      r.Failure? <==> exists i :: 0 <= i < |empresas| && SinPrecio(empresas[i], tecnicos, subcategoriaId)
    ensures var r := Proveedores(subcategorias, tecnicos, empresas, usuarios, subcategoriaId);
      r.Failure? ==> r.error == Arithmetic
  {
    var nombre := subcategorias[subcategoriaId - 1].nombre;
    var incluir, convertir := OfreceEn(tecnicos, subcategoriaId), ConvertidaEn(tecnicos, usuarios, subcategoriaId, nombre);
    ListarHastaFalloFalla(empresas, incluir, convertir);
    forall i | 0 <= i < |empresas| && incluir(empresas[i])
      ensures convertir(empresas[i]).Failure? <==> SinPrecio(empresas[i], tecnicos, subcategoriaId)
    {
      PrecioPromedioFalla(TecnicosDe(tecnicos, empresas[i].id), subcategoriaId);
    }
  }

  /** On success the listing is the technicians' entries followed by the
      companies' entries. */
  lemma ProveedoresPartes(subcategorias: seq<S.Fila>, tecnicos: seq<T.Fila>, empresas: seq<E.Fila>,
                          usuarios: seq<U.Fila>, subcategoriaId: int)
    requires S.Posicional(subcategorias)
    requires Proveedores(subcategorias, tecnicos, empresas, usuarios, subcategoriaId).Success?
    ensures 1 <= subcategoriaId <= |subcategorias|
    ensures var nombre := subcategorias[subcategoriaId - 1].nombre;
      var deEmpresas := ListarHastaFallo(empresas, OfreceEn(tecnicos, subcategoriaId),
                                         ConvertidaEn(tecnicos, usuarios, subcategoriaId, nombre));
      deEmpresas.Success?
      && Proveedores(subcategorias, tecnicos, empresas, usuarios, subcategoriaId).value
         == Listar(tecnicos, IndependienteEn(subcategoriaId), DeTecnicoEn(nombre)) + deEmpresas.value
  {
  }

  /** On success every independent technician and every listed company has
      its entry, one entry each. */
  lemma ProveedoresCompleto(subcategorias: seq<S.Fila>, tecnicos: seq<T.Fila>, empresas: seq<E.Fila>,
                            usuarios: seq<U.Fila>, subcategoriaId: int)
    requires S.Posicional(subcategorias)
    requires Proveedores(subcategorias, tecnicos, empresas, usuarios, subcategoriaId).Success?
    ensures 1 <= subcategoriaId <= |subcategorias|
    ensures var r := Proveedores(subcategorias, tecnicos, empresas, usuarios, subcategoriaId).value;
      var nombre := subcategorias[subcategoriaId - 1].nombre;
      forall i :: 0 <= i < |tecnicos| && Independiente(tecnicos[i], subcategoriaId) ==>
        DeTecnico(tecnicos[i], nombre) in r
    ensures var r := Proveedores(subcategorias, tecnicos, empresas, usuarios, subcategoriaId).value;
      var nombre := subcategorias[subcategoriaId - 1].nombre;
      forall i :: 0 <= i < |empresas| && Ofrece(empresas[i], tecnicos, subcategoriaId) ==>
        Convertida(empresas[i], tecnicos, usuarios, subcategoriaId, nombre).Success?
        && Convertida(empresas[i], tecnicos, usuarios, subcategoriaId, nombre).value in r
    ensures |Proveedores(subcategorias, tecnicos, empresas, usuarios, subcategoriaId).value|
         == Contar(tecnicos, IndependienteEn(subcategoriaId)) + Contar(empresas, OfreceEn(tecnicos, subcategoriaId))
  {
    ProveedoresPartes(subcategorias, tecnicos, empresas, usuarios, subcategoriaId);
    var nombre := subcategorias[subcategoriaId - 1].nombre;
    ListarContenido(tecnicos, IndependienteEn(subcategoriaId), DeTecnicoEn(nombre));
    ListarHastaFalloExito(empresas, OfreceEn(tecnicos, subcategoriaId), ConvertidaEn(tecnicos, usuarios, subcategoriaId, nombre));
  }

  /** On success every entry is an independent technician's or a listed
      company's. */
  lemma ProveedoresSoloCandidatos(subcategorias: seq<S.Fila>, tecnicos: seq<T.Fila>, empresas: seq<E.Fila>,
                                  usuarios: seq<U.Fila>, subcategoriaId: int)
    requires S.Posicional(subcategorias)
    requires Proveedores(subcategorias, tecnicos, empresas, usuarios, subcategoriaId).Success?
    ensures 1 <= subcategoriaId <= |subcategorias|
    ensures var r := Proveedores(subcategorias, tecnicos, empresas, usuarios, subcategoriaId).value;
      var nombre := subcategorias[subcategoriaId - 1].nombre;
      forall p :: p in r ==>
        (exists i :: 0 <= i < |tecnicos| && Independiente(tecnicos[i], subcategoriaId)
                     && p == DeTecnico(tecnicos[i], nombre))
        || (exists i :: 0 <= i < |empresas| && Ofrece(empresas[i], tecnicos, subcategoriaId)
                        && Convertida(empresas[i], tecnicos, usuarios, subcategoriaId, nombre) == Success(p))
  {
    ProveedoresPartes(subcategorias, tecnicos, empresas, usuarios, subcategoriaId);
    var nombre := subcategorias[subcategoriaId - 1].nombre;
    ListarContenido(tecnicos, IndependienteEn(subcategoriaId), DeTecnicoEn(nombre));
    ListarHastaFalloExito(empresas, OfreceEn(tecnicos, subcategoriaId), ConvertidaEn(tecnicos, usuarios, subcategoriaId, nombre));
  }

  /** On success the technicians come first: after a company's entry only
      companies follow. */
  lemma ProveedoresOrden(subcategorias: seq<S.Fila>, tecnicos: seq<T.Fila>, empresas: seq<E.Fila>,
                         usuarios: seq<U.Fila>, subcategoriaId: int)
    requires S.Posicional(subcategorias)
    requires Proveedores(subcategorias, tecnicos, empresas, usuarios, subcategoriaId).Success?
    ensures var r := Proveedores(subcategorias, tecnicos, empresas, usuarios, subcategoriaId).value;
      forall i, j :: 0 <= i < j < |r| && r[i].esEmpresa ==> r[j].esEmpresa
  {
    ProveedoresPartes(subcategorias, tecnicos, empresas, usuarios, subcategoriaId);
    var nombre := subcategorias[subcategoriaId - 1].nombre;
    var deTecnicos := Listar(tecnicos, IndependienteEn(subcategoriaId), DeTecnicoEn(nombre));
    var deEmpresas := ListarHastaFallo(empresas, OfreceEn(tecnicos, subcategoriaId),
                                       ConvertidaEn(tecnicos, usuarios, subcategoriaId, nombre)).value;
    ListarContenido(tecnicos, IndependienteEn(subcategoriaId), DeTecnicoEn(nombre));
    ListarHastaFalloExito(empresas, OfreceEn(tecnicos, subcategoriaId), ConvertidaEn(tecnicos, usuarios, subcategoriaId, nombre));
    forall k | 0 <= k < |deTecnicos|
      ensures !deTecnicos[k].esEmpresa
    {
      assert deTecnicos[k] in deTecnicos;
    }
    forall k | 0 <= k < |deEmpresas|
      ensures deEmpresas[k].esEmpresa
    {
      assert deEmpresas[k] in deEmpresas;
    }
    EntradasOrdenadas(deTecnicos, deEmpresas);
  }

  /** Technicians' entries followed by companies' entries keep every
      company after every technician. */
  lemma EntradasOrdenadas(deTecnicos: seq<Proveedor>, deEmpresas: seq<Proveedor>)
    requires forall k :: 0 <= k < |deTecnicos| ==> !deTecnicos[k].esEmpresa
    requires forall k :: 0 <= k < |deEmpresas| ==> deEmpresas[k].esEmpresa
    ensures var r := deTecnicos + deEmpresas;
      forall i, j :: 0 <= i < j < |r| && r[i].esEmpresa ==> r[j].esEmpresa
  {
  }

  /** The first loop of `getProveedoresPorSubcategoria`: over the
      technicians of the subcategory, adds each independent available one. */
  method ListarTecnicos(candidatos: seq<T.Fila>, subcategoriaId: int, nombre: string) returns (proveedores: seq<Proveedor>)
    requires forall k :: 0 <= k < |candidatos| ==> candidatos[k].subcategoriaId == subcategoriaId
    ensures proveedores == Listar(candidatos, IndependienteEn(subcategoriaId), DeTecnicoEn(nombre))
  {
    proveedores := [];
    var i := 0;
    while i < |candidatos|
      invariant 0 <= i <= |candidatos|
      invariant proveedores == Listar(candidatos[..i], IndependienteEn(subcategoriaId), DeTecnicoEn(nombre))
    {
      var t := candidatos[i];
      ListarPaso(candidatos, i, IndependienteEn(subcategoriaId), DeTecnicoEn(nombre));
      if t.empresaId.None? && t.disponible {
        var p := ConvertirTecnico(t, nombre);
        proveedores := proveedores + [p];
      }
      i := i + 1;
    }
    assert candidatos[..|candidatos|] == candidatos;
  }

  /** The second loop of `getProveedoresPorSubcategoria`: over the active
      companies, adds the entry of each one with a qualifying technician,
      or stops at the first entry that cannot be built. */
  method ListarEmpresas(activas: seq<E.Fila>, tecnicos: seq<T.Fila>, usuarios: seq<U.Fila>, subcategoriaId: int,
                        nombre: string) returns (r: Result<seq<Proveedor>>)
    requires forall k :: 0 <= k < |activas| ==> activas[k].activo
    ensures r == ListarHastaFallo(activas, OfreceEn(tecnicos, subcategoriaId),
                                  ConvertidaEn(tecnicos, usuarios, subcategoriaId, nombre))
  {
    var proveedores: seq<Proveedor> := [];
    var j := 0;
    while j < |activas|
      invariant 0 <= j <= |activas|
      invariant ListarHastaFallo(activas[..j], OfreceEn(tecnicos, subcategoriaId),
                                 ConvertidaEn(tecnicos, usuarios, subcategoriaId, nombre)) == Success(proveedores)
    {
      var e := activas[j];
      ListarHastaFalloPaso(activas, j, OfreceEn(tecnicos, subcategoriaId),
                           ConvertidaEn(tecnicos, usuarios, subcategoriaId, nombre));
      var suyos := Filtrar(tecnicos, DeLaEmpresa(e.id));
      assert OfreceEn(tecnicos, subcategoriaId)(e) == Existe(suyos, CalificaEn(subcategoriaId));
      if Existe(suyos, CalificaEn(subcategoriaId)) {
        var p := ConvertirEmpresa(e, suyos, subcategoriaId, nombre, Correo(usuarios, e.usuarioId));
        assert p == ConvertidaEn(tecnicos, usuarios, subcategoriaId, nombre)(e);
        if p.Failure? {
          ListarHastaFalloPropaga(activas, j + 1, OfreceEn(tecnicos, subcategoriaId),
                                  ConvertidaEn(tecnicos, usuarios, subcategoriaId, nombre));
          return Failure(p.error);
        }
        proveedores := proveedores + [p.value];
      }
      j := j + 1;
    }
    assert activas[..|activas|] == activas;
    r := Success(proveedores);
  }

  // ---------------------------------------------------------------------------
  // The service

  /** The service over the tables it reads. */
  class ProveedorServicioService {
    var subcategorias: seq<S.Fila>
    var tecnicos: seq<T.Fila>
    var empresas: seq<E.Fila>
    var usuarios: seq<U.Fila>

    ghost predicate Valid()
      reads this
    {
      S.Posicional(subcategorias)
    }

    constructor (subcategorias: seq<S.Fila>, tecnicos: seq<T.Fila>, empresas: seq<E.Fila>, usuarios: seq<U.Fila>)
      requires S.Posicional(subcategorias)
      ensures Valid()
      ensures this.subcategorias == subcategorias && this.tecnicos == tecnicos
      ensures this.empresas == empresas && this.usuarios == usuarios
    {
      this.subcategorias := subcategorias;
      this.tecnicos := tecnicos;
      this.empresas := empresas;
      this.usuarios := usuarios;
    }

    /** `getProveedoresPorSubcategoria`: checks the subcategory, walks the
        technicians of the subcategory adding the independent available ones,
        then walks the active companies adding those with a qualifying
        technician. */
    method ProveedoresPorSubcategoria(subcategoriaId: int) returns (r: Result<seq<Proveedor>>)
      requires Valid()
      ensures r == Proveedores(subcategorias, tecnicos, empresas, usuarios, subcategoriaId)
    {
      var subcategoria := S.Buscar(subcategorias, subcategoriaId);
      if subcategoria.Failure? {
        return Failure(NotFound);
      }
      var nombre := subcategoria.value.nombre;
      var candidatos := Filtrar(tecnicos, EnSubcategoria(subcategoriaId));
      var proveedores := ListarTecnicos(candidatos, subcategoriaId, nombre);
      ListarFiltrado(tecnicos, EnSubcategoria(subcategoriaId), IndependienteEn(subcategoriaId), DeTecnicoEn(nombre));
      var activas := Filtrar(empresas, EsActiva());
      ListarHastaFalloFiltrado(empresas, EsActiva(), OfreceEn(tecnicos, subcategoriaId),
                               ConvertidaEn(tecnicos, usuarios, subcategoriaId, nombre));
      var deEmpresas := ListarEmpresas(activas, tecnicos, usuarios, subcategoriaId, nombre);
      if deEmpresas.Failure? {
        return Failure(deEmpresas.error);
      }
      proveedores := proveedores + deEmpresas.value;
      r := Success(proveedores);
    }
  }
}
