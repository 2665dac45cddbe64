/** `SubcategoriaService`: lists, searches and filters subcategories,
    creates them inside an active category with a name unique there, applies
    partial updates that may move a subcategory to another active category,
    deletes them softly, and reorders the subcategories of a category. The
    service sees the category table, which it only reads, and the
    subcategory table, which it changes. */
module SubcategoriaServicio {
  import opened Comun
  import opened Subcategorias
  import opened SubcategoriaRepositorio
  import C = Categorias

  /** The body of a create call (`CreateSubcategoriaDTO`); `activo` and
      `categoriaId` are validated as non-null. */
  datatype Alta = Alta(
    nombre: string,
    descripcion: Option<string>,
    activo: bool,
    ordenVisualizacion: Option<int>,
    colorHexadecimal: Option<string>,
    icono: Option<string>,
    categoriaId: int,
    caracteristicas: Caracteristicas,
    creadoPor: Option<string>)

  /** The body of an update call (`UpdateSubcategoriaDTO`). It also carries
      the characteristic columns, which the update never reads. */
  datatype Cambios = Cambios(
    nombre: Option<string>,
    descripcion: Option<string>,
    activo: Option<bool>,
    ordenVisualizacion: Option<int>,
    colorHexadecimal: Option<string>,
    icono: Option<string>,
    categoriaId: Option<int>,
    caracteristicas: Caracteristicas,
    modificadoPor: Option<string>)

  /** `SubcategoriaDTO`: the row and the name of its category. */
  datatype Vista = Vista(subcategoria: Fila, categoriaNombre: string)

  /** The row a create call stores under identity `id`, when the largest
      display position in its category is `maxOrden`. */
  function Creada(a: Alta, id: int, maxOrden: int): (s: Fila)
    ensures s.id == id && s.nombre == a.nombre && s.activo == a.activo
    ensures s.categoriaId == a.categoriaId && s.caracteristicas == a.caracteristicas
    ensures a.ordenVisualizacion.Some? ==> s.ordenVisualizacion == a.ordenVisualizacion
    ensures a.ordenVisualizacion.None? ==> s.ordenVisualizacion == Some(maxOrden + 1)
    ensures s.creadoPor == a.creadoPor && s.modificadoPor.None?
  {
    Fila(id, a.nombre, a.descripcion, a.activo,
         if a.ordenVisualizacion.Some? then a.ordenVisualizacion else Some(maxOrden + 1),
         a.colorHexadecimal, a.icono, a.categoriaId, a.caracteristicas, a.creadoPor, None)
  }

  /** The create steps of `crearSubcategoria` on a table `t`: the mapped
      row, placed one past the largest position of its category when it
      brings none. */
  method NuevaSubcategoria(a: Alta, t: seq<Fila>) returns (s: Fila)
    ensures s == Creada(a, |t| + 1, MaxOrden(t, a.categoriaId))
  {
    s := Fila(|t| + 1, a.nombre, a.descripcion, a.activo, a.ordenVisualizacion,
              a.colorHexadecimal, a.icono, a.categoriaId, a.caracteristicas, a.creadoPor, None);
    if s.ordenVisualizacion.None? {
      var maxOrden := MaxOrden(t, a.categoriaId);
      s := s.(ordenVisualizacion := Some(maxOrden + 1));
    }
  }

  /** The update names a category other than the current one. */
  predicate Mueve(s: Fila, d: Cambios)
  {
    d.categoriaId.Some? && d.categoriaId.value != s.categoriaId
  }

  /** The category the name check of an update looks in: the one the update
      names, or else the current one. */
  function Destino(s: Fila, d: Cambios): (c: int)
    ensures d.categoriaId.None? ==> c == s.categoriaId
    ensures Mueve(s, d) ==> c == d.categoriaId.value
    ensures !Mueve(s, d) ==> c == s.categoriaId
  {
    if d.categoriaId.Some? then d.categoriaId.value else s.categoriaId
  }

  /** The row an update call stores: the category named, when there is one;
      each present field replaces its column; the name and the editor only
      when they have text; the characteristics never change. */
  function Actualizada(s: Fila, d: Cambios): (g: Fila)
    ensures g.id == s.id && g.creadoPor == s.creadoPor && g.caracteristicas == s.caracteristicas
    ensures g.categoriaId == Destino(s, d)
    ensures g.nombre == if TieneTexto(d.nombre) then d.nombre.value else s.nombre
    ensures g.modificadoPor == if TieneTexto(d.modificadoPor) then d.modificadoPor else s.modificadoPor
    ensures d.descripcion.None? ==> g.descripcion == s.descripcion
    ensures d.descripcion.Some? ==> g.descripcion == d.descripcion
    ensures g.activo == if d.activo.Some? then d.activo.value else s.activo
    ensures d.ordenVisualizacion.None? ==> g.ordenVisualizacion == s.ordenVisualizacion
    ensures d.colorHexadecimal.None? ==> g.colorHexadecimal == s.colorHexadecimal
    ensures d.icono.None? ==> g.icono == s.icono
  {
    Fila(s.id, if TieneTexto(d.nombre) then d.nombre.value else s.nombre,
         NuevoOpcional(d.descripcion, s.descripcion),
         Nuevo(d.activo, s.activo),
         NuevoOpcional(d.ordenVisualizacion, s.ordenVisualizacion),
         NuevoOpcional(d.colorHexadecimal, s.colorHexadecimal),
         NuevoOpcional(d.icono, s.icono),
         Destino(s, d),
         s.caracteristicas, s.creadoPor, NuevoConTexto(d.modificadoPor, s.modificadoPor))
  }

  /** The characteristic columns of an update call make no difference to
      what it stores; applying an update twice is applying it once. */
  lemma ActualizadaIgnoraCaracteristicas(s: Fila, d: Cambios, otras: Caracteristicas)
    ensures Actualizada(s, d.(caracteristicas := otras)) == Actualizada(s, d)
    ensures Actualizada(Actualizada(s, d), d) == Actualizada(s, d)
  {
  }

  /** The setter sequence of `actualizarSubcategoria`, applied to a loaded
      row. */
  method AplicarCambios(s0: Fila, d: Cambios) returns (s: Fila)
    ensures s == Actualizada(s0, d)
  {
    s := CambiarUbicacion(s0, d);
    s := CambiarPresentacion(s, d);
  }

  /** The first setters: the category, the name, the description and the
      state. */
  method CambiarUbicacion(s0: Fila, d: Cambios) returns (s: Fila)
    ensures s == s0.(categoriaId := Destino(s0, d),
                     nombre := if TieneTexto(d.nombre) then d.nombre.value else s0.nombre,
                     descripcion := NuevoOpcional(d.descripcion, s0.descripcion),
                     activo := Nuevo(d.activo, s0.activo))
  {
    s := s0;
    if Mueve(s, d) {
      s := s.(categoriaId := d.categoriaId.value);
    }
    if TieneTexto(d.nombre) {
      s := s.(nombre := d.nombre.value);
    }
    if d.descripcion.Some? {
      s := s.(descripcion := d.descripcion);
    }
    if d.activo.Some? {
      s := s.(activo := d.activo.value);
    }
  }

  /** The remaining setters: the position, the colour, the icon and the
      editor. */
  method CambiarPresentacion(s0: Fila, d: Cambios) returns (s: Fila)
    ensures s == s0.(ordenVisualizacion := NuevoOpcional(d.ordenVisualizacion, s0.ordenVisualizacion),
                     colorHexadecimal := NuevoOpcional(d.colorHexadecimal, s0.colorHexadecimal),
                     icono := NuevoOpcional(d.icono, s0.icono),
                     modificadoPor := NuevoConTexto(d.modificadoPor, s0.modificadoPor))
  {
    s := s0;
    if d.ordenVisualizacion.Some? {
      s := s.(ordenVisualizacion := d.ordenVisualizacion);
    }
    if d.colorHexadecimal.Some? {
      s := s.(colorHexadecimal := d.colorHexadecimal);
    }
    if d.icono.Some? {
      s := s.(icono := d.icono);
    }
    if TieneTexto(d.modificadoPor) {
      s := s.(modificadoPor := d.modificadoPor);
    }
  }

  /** The row a soft delete stores: inactive, and the editor recorded only
      when it has text. */
  function Eliminada(s: Fila, eliminadoPor: Option<string>): (g: Fila)
    ensures !g.activo
    ensures g.modificadoPor == if TieneTexto(eliminadoPor) then eliminadoPor else s.modificadoPor
    ensures g.(activo := s.activo, modificadoPor := s.modificadoPor) == s
  {
    s.(activo := false, modificadoPor := if TieneTexto(eliminadoPor) then eliminadoPor else s.modificadoPor)
  }

  /** Deleting twice stores what deleting once does. */
  lemma EliminadaIdempotente(s: Fila, eliminadoPor: Option<string>)
    ensures Eliminada(Eliminada(s, eliminadoPor), eliminadoPor) == Eliminada(s, eliminadoPor)
  {
  }

  /** The identity names a subcategory of category `categoriaId`. */
  predicate DeLaCategoria(t: seq<Fila>, categoriaId: int, id: int)
  {
    1 <= id <= |t| && t[id - 1].categoriaId == categoriaId
  }

  /** The table after the reorder loop has handled the first `n` identities
      of `ids`: the row of `ids[j]` gets position `j + 1`, one identity after
      the other. */
  function Reordenadas(t: seq<Fila>, ids: seq<int>, n: nat): (r: seq<Fila>)
    requires n <= |ids|
    requires forall j :: 0 <= j < n ==> 1 <= ids[j] <= |t|
    ensures |r| == |t|
    decreases n
  {
    if n == 0 then t
    else
      var u := Reordenadas(t, ids, n - 1);
      u[ids[n - 1] - 1 := u[ids[n - 1] - 1].(ordenVisualizacion := Some(n))]
  }

  /** A reorder changes nothing but positions. */
  lemma {:induction false} ReordenadasSoloOrden(t: seq<Fila>, ids: seq<int>, n: nat)
    requires n <= |ids|
    requires forall j :: 0 <= j < n ==> 1 <= ids[j] <= |t|
    ensures var r := Reordenadas(t, ids, n);
      forall k :: 0 <= k < |t| ==> r[k] == t[k].(ordenVisualizacion := r[k].ordenVisualizacion)
    decreases n
  {
    if n > 0 {
      ReordenadasSoloOrden(t, ids, n - 1);
    }
  }

  /** After a reorder, a listed row's position is one more than the last
      place its identity occupies in the list; an unlisted row keeps its
      own. */
  lemma {:induction false} ReordenadasUltimaGana(t: seq<Fila>, ids: seq<int>, n: nat, k: int)
    requires n <= |ids|
    requires forall j :: 0 <= j < n ==> 1 <= ids[j] <= |t|
    requires 0 <= k < |t|
    ensures var j := UltimaPosicion(ids, n, k + 1);
      Reordenadas(t, ids, n)[k].ordenVisualizacion == if j >= 0 then Some(j + 1) else t[k].ordenVisualizacion
    decreases n
  {
    if n > 0 {
      ReordenadasUltimaGana(t, ids, n - 1, k);
      var u := Reordenadas(t, ids, n - 1);
      var r := Reordenadas(t, ids, n);
      if ids[n - 1] == k + 1 {
        assert UltimaPosicion(ids, n, k + 1) == n - 1;
        assert r[k].ordenVisualizacion == Some(n);
      } else {
        assert UltimaPosicion(ids, n, k + 1) == UltimaPosicion(ids, n - 1, k + 1);
        assert r[k] == u[k];
      }
    }
  }

  /** A move that brings no name is not checked for names, so it can leave
      two subcategories of one category with the same name: here the second
      row, named like the first, moves into the first one's category. */
  lemma MoverSinNombreDuplica(s1: Fila, s2: Fila, d: Cambios)
    requires s1.categoriaId != s2.categoriaId && s1.nombre == s2.nombre
    requires d.categoriaId == Some(s1.categoriaId) && d.nombre.None?
    ensures Mueve(s2, d)
    ensures Actualizada(s2, d).categoriaId == s1.categoriaId
    ensures IgualSinMayusculas(Actualizada(s2, d).nombre, s1.nombre)
  {
  }

  class SubcategoriaService {
    var categorias: seq<C.Fila>
    var subcategorias: seq<Fila>

    ghost predicate Valid()
      reads this
    {
      Tablas(categorias, subcategorias)
    }

    constructor ()
      ensures Valid() && categorias == [] && subcategorias == []
    {
      categorias := [];
      subcategorias := [];
    }

    /** `convertirASubcategoriaDTO`: the row with its category's name. */
    function Convertir(s: Fila): (v: Vista)
      reads this
      requires 1 <= s.categoriaId <= |categorias|
      ensures v.subcategoria == s && v.categoriaNombre == categorias[s.categoriaId - 1].nombre
    {
      Vista(s, categorias[s.categoriaId - 1].nombre)
    }

    /** `obtenerSubcategorias` without paging, over its eight branches: a
        category restricts to it; a name with text searches the name, and
        the description too when a state is given, among rows in that state
        or else the active ones; without a name a state filters by it, an
        absent state keeps the active rows when a category is given and
        every row otherwise. */
    function Obtener(categoriaId: Option<int>, nombre: Option<string>, activo: Option<bool>): (r: seq<Fila>)
      reads this
      ensures forall s :: s in r <==>
        (&& s in subcategorias
         && Coincide(categoriaId, s.categoriaId)
         && if TieneTexto(nombre) then
              && (ContieneSinMayusculas(s.nombre, nombre.value)
                  || (activo.Some? && ColumnaContiene(s.descripcion, nombre.value)))
              && s.activo == (if activo.Some? then activo.value else true)
            else if categoriaId.Some? then s.activo == (if activo.Some? then activo.value else true)
            else Coincide(activo, s.activo))
    {
      if categoriaId.Some? && TieneTexto(nombre) && activo.Some? then
        PorTerminoYCategoria(subcategorias, categoriaId.value, nombre.value, activo.value)
      else if categoriaId.Some? && TieneTexto(nombre) then
        Filtrar(subcategorias, (s: Fila) => s.categoriaId == categoriaId.value
                                          && ContieneSinMayusculas(s.nombre, nombre.value) && s.activo)
      else if categoriaId.Some? && activo.Some? then
        Filtrar(subcategorias, (s: Fila) => s.categoriaId == categoriaId.value && s.activo == activo.value)
      else if categoriaId.Some? then
        Filtrar(subcategorias, ActivaDe(categoriaId.value))
      else if TieneTexto(nombre) && activo.Some? then
        PorTermino(subcategorias, nombre.value, activo.value)
      else if TieneTexto(nombre) then
        Filtrar(subcategorias, (s: Fila) => ContieneSinMayusculas(s.nombre, nombre.value) && s.activo)
      else if activo.Some? then
        Filtrar(subcategorias, (s: Fila) => s.activo == activo.value)
      else subcategorias
    }

    /** `obtenerSubcategoriasActivasPorCategoria`: NotFound for an unknown
        category; otherwise its active subcategories, ordered by position
        and then name. */
    function ActivasPorCategoria(categoriaId: int): (r: Result<seq<Fila>>)
      reads this
      requires Valid()
      ensures r.Failure? <==> !(1 <= categoriaId <= |categorias|)
      ensures r.Failure? ==> r.error == NotFound
      ensures r.Success? ==> forall s :: s in r.value <==> s in subcategorias && s.categoriaId == categoriaId && s.activo
      ensures r.Success? ==> Ordenada(r.value, OrdenYNombreAntes)
    {
      if C.Buscar(categorias, categoriaId).Failure? then Failure(NotFound)
      else Success(ActivasDeCategoria(subcategorias, categoriaId))
    }

    /** `buscarSubcategorias`: the search over name and description, within
        the category when one is given; an absent state searches the active
        rows. */
    function Buscar(categoriaId: Option<int>, termino: string, activo: Option<bool>): (r: seq<Fila>)
      reads this
      ensures forall s :: s in r <==>
        (&& s in subcategorias
         && Coincide(categoriaId, s.categoriaId)
         && s.activo == (if activo.Some? then activo.value else true)
         && (ContieneSinMayusculas(s.nombre, termino) || ColumnaContiene(s.descripcion, termino)))
    {
      var estado := if activo.Some? then activo.value else true;
      if categoriaId.Some? then PorTerminoYCategoria(subcategorias, categoriaId.value, termino, estado)
      else PorTermino(subcategorias, termino, estado)
    }

    /** `obtenerSubcategoriaPorId`: NotFound for an unknown identity. */
    function PorId(id: int): (r: Result<Vista>)
      reads this
      requires Valid()
      ensures r.Success? <==> 1 <= id <= |subcategorias|
      ensures r.Success? ==> r.value.subcategoria.id == id && r.value.subcategoria in subcategorias
      ensures r.Failure? ==> r.error == NotFound
    {
      match Subcategorias.Buscar(subcategorias, id)
      case Success(s) => Success(Convertir(s))
      case Failure(e) => Failure(e)
    }

    /** `obtenerSubcategoriasConFiltros`: the filter query, active rows only,
        ordered by position and then name. */
    function ConFiltros(f: Filtros): (r: seq<Fila>)
      reads this
      ensures forall s :: s in r <==> s in subcategorias && CumpleFiltros(s, f)
      ensures forall s :: s in r ==> s.activo
      ensures Ordenada(r, OrdenYNombreAntes)
    {
      SubcategoriaRepositorio.ConFiltros(subcategorias, f)
    }

    /** `crearSubcategoria`: an unknown category is NotFound; an inactive
        one, or a name already used in that category ignoring case, is a
        business error; in these cases nothing is written. Otherwise the
        subcategory is stored under the next identity, at the given
        position or one past the largest of its category. */
    method Crear(a: Alta) returns (r: Result<Vista>)
      requires Valid()
      modifies this`subcategorias
      ensures Valid()
      ensures !(1 <= a.categoriaId <= |categorias|) ==> r == Failure(NotFound) && subcategorias == old(subcategorias)
      ensures 1 <= a.categoriaId <= |categorias| && !categorias[a.categoriaId - 1].activo ==>
        r == Failure(Business) && subcategorias == old(subcategorias)
      ensures 1 <= a.categoriaId <= |categorias| && categorias[a.categoriaId - 1].activo
              && ExisteConNombre(old(subcategorias), a.nombre, a.categoriaId) ==>
        r == Failure(Business) && subcategorias == old(subcategorias)
      ensures 1 <= a.categoriaId <= |categorias| && categorias[a.categoriaId - 1].activo
              && !ExisteConNombre(old(subcategorias), a.nombre, a.categoriaId) ==>
        var s := Creada(a, |old(subcategorias)| + 1, MaxOrden(old(subcategorias), a.categoriaId));
        subcategorias == old(subcategorias) + [s] && r == Success(Vista(s, categorias[a.categoriaId - 1].nombre))
    {
      var categoria := C.Buscar(categorias, a.categoriaId);
      if categoria.Failure? {
        r := Failure(NotFound);
      } else if !categoria.value.activo {
        r := Failure(Business);
      } else if ExisteConNombre(subcategorias, a.nombre, a.categoriaId) {
        r := Failure(Business);
      } else {
        r := Insertar(a);
      }
    }

    /** The write of `crearSubcategoria` once its checks have passed. */
    method Insertar(a: Alta) returns (r: Result<Vista>)
      requires Valid() && 1 <= a.categoriaId <= |categorias|
      modifies this`subcategorias
      ensures Valid()
      ensures var s := Creada(a, |old(subcategorias)| + 1, MaxOrden(old(subcategorias), a.categoriaId));
        subcategorias == old(subcategorias) + [s] && r == Success(Vista(s, categorias[a.categoriaId - 1].nombre))
    {
      var s := NuevaSubcategoria(a, subcategorias);
      TablasConAlta(categorias, subcategorias, s);
      subcategorias := subcategorias + [s];
      assert s.categoriaId == a.categoriaId;
      r := Success(Convertir(s));
    }

    /** `actualizarSubcategoria`: NotFound for an unknown identity; a move to
        an unknown category is NotFound and to an inactive one a business
        error; a name with text held by another subcategory of the target
        category is a business error; in these cases nothing is written.
        Otherwise only that row changes, as `Actualizada` says. */
    method Actualizar(id: int, d: Cambios) returns (r: Result<Vista>)
      requires Valid()
      modifies this`subcategorias
      ensures Valid()
      ensures !(1 <= id <= |old(subcategorias)|) ==> r == Failure(NotFound) && subcategorias == old(subcategorias)
      ensures 1 <= id <= |old(subcategorias)| ==> Resultado(old(subcategorias), id, d, r, subcategorias)
    {
      var encontrada := Subcategorias.Buscar(subcategorias, id);
      if encontrada.Failure? {
        r := Failure(NotFound);
      } else {
        var s := encontrada.value;
        if Mueve(s, d) && C.Buscar(categorias, d.categoriaId.value).Failure? {
          r := Failure(NotFound);
        } else if Mueve(s, d) && !categorias[d.categoriaId.value - 1].activo {
          r := Failure(Business);
        } else if TieneTexto(d.nombre) && ExisteOtraConNombre(subcategorias, d.nombre.value, Destino(s, d), id) {
          r := Failure(Business);
        } else {
          var g := AplicarCambios(s, d);
          TablasConCambio(categorias, subcategorias, id - 1, g);
          subcategorias := subcategorias[id - 1 := g];
          r := Success(Convertir(g));
        }
      }
    }

    /** The outcome of an update of the known row `id` of `t`, leaving the
        table `u`: the move checks, the name check in the target category,
        and otherwise the row replaced by `Actualizada`. */
    ghost predicate Resultado(t: seq<Fila>, id: int, d: Cambios, r: Result<Vista>, u: seq<Fila>)
      reads this
      requires 1 <= id <= |t|
    {
      var s := t[id - 1];
      if Mueve(s, d) && !(1 <= d.categoriaId.value <= |categorias|) then r == Failure(NotFound) && u == t
      else if Mueve(s, d) && !categorias[d.categoriaId.value - 1].activo then r == Failure(Business) && u == t
      else if TieneTexto(d.nombre) && ExisteOtraConNombre(t, d.nombre.value, Destino(s, d), id) then
        r == Failure(Business) && u == t
      else
        && u == t[id - 1 := Actualizada(s, d)]
        && 1 <= Destino(s, d) <= |categorias|
        && r == Success(Vista(u[id - 1], categorias[Destino(s, d) - 1].nombre))
    }

    /** `eliminarSubcategoria`: NotFound for an unknown identity; otherwise
        only that row changes, as `Eliminada` says. */
    method Eliminar(id: int, eliminadoPor: Option<string>) returns (r: Result<()>)
      requires Valid()
      modifies this`subcategorias
      ensures Valid()
      ensures !(1 <= id <= |old(subcategorias)|) ==> r == Failure(NotFound) && subcategorias == old(subcategorias)
      ensures 1 <= id <= |old(subcategorias)| ==>
        r == Success(()) && subcategorias == old(subcategorias)[id - 1 := Eliminada(old(subcategorias)[id - 1], eliminadoPor)]
    {
      var encontrada := Subcategorias.Buscar(subcategorias, id);
      if encontrada.Failure? {
        r := Failure(NotFound);
      } else {
        var s := encontrada.value;
        s := s.(activo := false);
        if TieneTexto(eliminadoPor) {
          s := s.(modificadoPor := eliminadoPor);
        }
        TablasConCambio(categorias, subcategorias, id - 1, s);
        subcategorias := subcategorias[id - 1 := s];
        r := Success(());
      }
    }

    /** `reordenarSubcategorias`: NotFound for an unknown category; then it
        walks the list, giving the row of the identity at place `i` the
        position `i + 1`. The first identity that is unknown is NotFound, the
        first that belongs to another category a business error, and, the
        call being one transaction, nothing is written; otherwise the table
        becomes `Reordenadas`. */
    method Reordenar(categoriaId: int, ids: seq<int>) returns (r: Result<()>)
      requires Valid()
      modifies this`subcategorias
      ensures Valid()
      ensures !(1 <= categoriaId <= |categorias|) ==> r == Failure(NotFound) && subcategorias == old(subcategorias)
      ensures 1 <= categoriaId <= |categorias| && (forall j :: 0 <= j < |ids| ==> DeLaCategoria(old(subcategorias), categoriaId, ids[j])) ==>
        r == Success(()) && subcategorias == Reordenadas(old(subcategorias), ids, |ids|)
      ensures r.Failure? ==> subcategorias == old(subcategorias)
      ensures 1 <= categoriaId <= |categorias| && r.Failure? ==>
        exists j :: 0 <= j < |ids| && (forall i :: 0 <= i < j ==> DeLaCategoria(old(subcategorias), categoriaId, ids[i]))
          && !DeLaCategoria(old(subcategorias), categoriaId, ids[j])
          && r.error == if 1 <= ids[j] <= |old(subcategorias)| then Business else NotFound
    {
      if C.Buscar(categorias, categoriaId).Failure? {
        r := Failure(NotFound);
        return;
      }
      var t, n := RecorrerOrden(subcategorias, categoriaId, ids);
      if n < |ids| {
        r := Failure(if 1 <= ids[n] <= |subcategorias| then Business else NotFound);
      } else {
        TablasReordenadas(categorias, subcategorias, ids);
        subcategorias := t;
        r := Success(());
      }
    }
  }

  /** The loop of `reordenarSubcategorias` over a table `t0`: it stops at
      the first identity that is not a subcategory of `categoriaId`, having
      given every earlier one its position. */
  method RecorrerOrden(t0: seq<Fila>, categoriaId: int, ids: seq<int>) returns (t: seq<Fila>, n: int)
    ensures 0 <= n <= |ids|
    ensures forall j :: 0 <= j < n ==> 1 <= ids[j] <= |t0| && DeLaCategoria(t0, categoriaId, ids[j])
    ensures n < |ids| ==> !DeLaCategoria(t0, categoriaId, ids[n])
    ensures t == Reordenadas(t0, ids, n)
  {
    t := t0;
    n := 0;
    while n < |ids| && DeLaCategoria(t0, categoriaId, ids[n])
      invariant 0 <= n <= |ids|
      invariant forall j :: 0 <= j < n ==> DeLaCategoria(t0, categoriaId, ids[j])
      invariant t == Reordenadas(t0, ids, n)
    {
      t := t[ids[n] - 1 := t[ids[n] - 1].(ordenVisualizacion := Some(n + 1))];
      n := n + 1;
    }
  }

  /** Identities are positions and every subcategory's category exists.
      Names are not unique within a category: see `MoverSinNombreDuplica`. */
  ghost predicate Tablas(categorias: seq<C.Fila>, subcategorias: seq<Fila>)
  {
    && C.Posicional(categorias)
    && Posicional(subcategorias)
    && (forall i :: 0 <= i < |subcategorias| ==> 1 <= subcategorias[i].categoriaId <= |categorias|)
  }

  /** Appending a row under the next identity, in an existing category,
      keeps the tables valid. */
  lemma TablasConAlta(categorias: seq<C.Fila>, subcategorias: seq<Fila>, s: Fila)
    requires Tablas(categorias, subcategorias)
    requires s.id == |subcategorias| + 1 && 1 <= s.categoriaId <= |categorias|
    ensures Tablas(categorias, subcategorias + [s])
  {
  }

  /** Replacing row `k` by a row with the same identity, in an existing
      category, keeps the tables valid. */
  lemma TablasConCambio(categorias: seq<C.Fila>, subcategorias: seq<Fila>, k: int, s: Fila)
    requires Tablas(categorias, subcategorias) && 0 <= k < |subcategorias|
    requires s.id == subcategorias[k].id && 1 <= s.categoriaId <= |categorias|
    ensures Tablas(categorias, subcategorias[k := s])
  {
  }

  /** A reorder changes positions only, so it keeps the tables valid. */
  lemma TablasReordenadas(categorias: seq<C.Fila>, subcategorias: seq<Fila>, ids: seq<int>)
    requires Tablas(categorias, subcategorias)
    requires forall j :: 0 <= j < |ids| ==> 1 <= ids[j] <= |subcategorias|
    ensures Tablas(categorias, Reordenadas(subcategorias, ids, |ids|))
  {
    var r := Reordenadas(subcategorias, ids, |ids|);
    ReordenadasSoloOrden(subcategorias, ids, |ids|);
    assert forall k :: 0 <= k < |subcategorias| ==> r[k].id == subcategorias[k].id && r[k].categoriaId == subcategorias[k].categoriaId;
  }
}
