/** `CategoriaService`: lists and searches categories, creates them with a
    unique name and a display position, applies partial updates, deletes
    them softly while no active subcategory remains, and reorders them. The
    service sees the category table, which it changes, and the subcategory
    table, which it only reads. */
module CategoriaServicio {
  import opened Comun
  import opened Categorias
  import opened CategoriaRepositorio
  import S = Subcategorias

  /** The body of a create call (`CreateCategoriaDTO`); `activo` is
      validated as non-null. */
  datatype Alta = Alta(
    nombre: string,
    descripcion: Option<string>,
    activo: bool,
    ordenVisualizacion: Option<int>,
    colorHexadecimal: Option<string>,
    icono: Option<string>,
    creadoPor: Option<string>)

  /** The body of an update call (`UpdateCategoriaDTO`). */
  datatype Cambios = Cambios(
    nombre: Option<string>,
    descripcion: Option<string>,
    activo: Option<bool>,
    ordenVisualizacion: Option<int>,
    colorHexadecimal: Option<string>,
    icono: Option<string>,
    modificadoPor: Option<string>)

  /** `CategoriaDTO`: the row and its number of active subcategories. */
  datatype Vista = Vista(categoria: Fila, totalSubcategorias: nat)

  /** The row a create call stores under identity `id`, when the largest
      display position in the table is `maxOrden`. */
  function Creada(a: Alta, id: int, maxOrden: int): (c: Fila)
    ensures c.id == id && c.nombre == a.nombre && c.activo == a.activo
    ensures a.ordenVisualizacion.Some? ==> c.ordenVisualizacion == a.ordenVisualizacion
    ensures a.ordenVisualizacion.None? ==> c.ordenVisualizacion == Some(maxOrden + 1)
    ensures c.creadoPor == a.creadoPor && c.modificadoPor.None?
  {
    Fila(id, a.nombre, a.descripcion, a.activo,
         if a.ordenVisualizacion.Some? then a.ordenVisualizacion else Some(maxOrden + 1),
         a.colorHexadecimal, a.icono, a.creadoPor, None)
  }

  /** The row an update call stores: each present field replaces its column;
      the name and the editor only when they have text. */
  function Actualizada(c: Fila, d: Cambios): (g: Fila)
    ensures g.id == c.id && g.creadoPor == c.creadoPor
    ensures g.nombre == if TieneTexto(d.nombre) then d.nombre.value else c.nombre
    ensures g.modificadoPor == if TieneTexto(d.modificadoPor) then d.modificadoPor else c.modificadoPor
    ensures d.descripcion.None? ==> g.descripcion == c.descripcion
    ensures d.descripcion.Some? ==> g.descripcion == d.descripcion
    ensures g.activo == if d.activo.Some? then d.activo.value else c.activo
    ensures d.ordenVisualizacion.None? ==> g.ordenVisualizacion == c.ordenVisualizacion
    ensures d.colorHexadecimal.None? ==> g.colorHexadecimal == c.colorHexadecimal
    ensures d.icono.None? ==> g.icono == c.icono
  {
    Fila(c.id, if TieneTexto(d.nombre) then d.nombre.value else c.nombre,
         NuevoOpcional(d.descripcion, c.descripcion), Nuevo(d.activo, c.activo),
         NuevoOpcional(d.ordenVisualizacion, c.ordenVisualizacion),
         NuevoOpcional(d.colorHexadecimal, c.colorHexadecimal), NuevoOpcional(d.icono, c.icono),
         c.creadoPor, NuevoConTexto(d.modificadoPor, c.modificadoPor))
  }

  /** An update whose fields are all absent or blank stores the row as it
      was; applying an update twice is applying it once. */
  lemma ActualizadaSinCambiosEIdempotente(c: Fila, d: Cambios)
    ensures (&& !TieneTexto(d.nombre) && !TieneTexto(d.modificadoPor) && d.descripcion.None? && d.activo.None?
             && d.ordenVisualizacion.None? && d.colorHexadecimal.None? && d.icono.None?) ==>
      Actualizada(c, d) == c
    ensures Actualizada(Actualizada(c, d), d) == Actualizada(c, d)
  {
  }

  /** The setter sequence of `actualizarCategoria`, applied to a loaded
      row. */
  method AplicarCambios(c0: Fila, d: Cambios) returns (c: Fila)
    ensures c == Actualizada(c0, d)
  {
    c := CambiarDatos(c0, d);
    c := CambiarPresentacion(c, d);
  }

  /** The first setters: the name, the description and the state. */
  method CambiarDatos(c0: Fila, d: Cambios) returns (c: Fila)
    ensures c == c0.(nombre := if TieneTexto(d.nombre) then d.nombre.value else c0.nombre,
                     descripcion := NuevoOpcional(d.descripcion, c0.descripcion),
                     activo := Nuevo(d.activo, c0.activo))
  {
    c := c0;
    if TieneTexto(d.nombre) {
      c := c.(nombre := d.nombre.value);
    }
    if d.descripcion.Some? {
      c := c.(descripcion := d.descripcion);
    }
    if d.activo.Some? {
      c := c.(activo := d.activo.value);
    }
  }

  /** The remaining setters: the position, the colour, the icon and the
      editor. */
  method CambiarPresentacion(c0: Fila, d: Cambios) returns (c: Fila)
    ensures c == c0.(ordenVisualizacion := NuevoOpcional(d.ordenVisualizacion, c0.ordenVisualizacion),
                     colorHexadecimal := NuevoOpcional(d.colorHexadecimal, c0.colorHexadecimal),
                     icono := NuevoOpcional(d.icono, c0.icono),
                     modificadoPor := NuevoConTexto(d.modificadoPor, c0.modificadoPor))
  {
    c := c0;
    if d.ordenVisualizacion.Some? {
      c := c.(ordenVisualizacion := d.ordenVisualizacion);
    }
    if d.colorHexadecimal.Some? {
      c := c.(colorHexadecimal := d.colorHexadecimal);
    }
    if d.icono.Some? {
      c := c.(icono := d.icono);
    }
    if TieneTexto(d.modificadoPor) {
      c := c.(modificadoPor := d.modificadoPor);
    }
  }

  /** The create steps of `crearCategoria` on a table `t`: the mapped row,
      placed one past the largest position when it brings none. */
  method NuevaCategoria(a: Alta, t: seq<Fila>) returns (c: Fila)
    ensures c == Creada(a, |t| + 1, MaxOrden(t))
  {
    c := Fila(|t| + 1, a.nombre, a.descripcion, a.activo, a.ordenVisualizacion,
              a.colorHexadecimal, a.icono, a.creadoPor, None);
    if c.ordenVisualizacion.None? {
      var maxOrden := MaxOrden(t);
      c := c.(ordenVisualizacion := Some(maxOrden + 1));
    }
  }

  /** The row a soft delete stores: inactive, and the editor recorded only
      when it has text. */
  function Eliminada(c: Fila, eliminadoPor: Option<string>): (g: Fila)
    ensures !g.activo
    ensures g.modificadoPor == if TieneTexto(eliminadoPor) then eliminadoPor else c.modificadoPor
    ensures g.(activo := c.activo, modificadoPor := c.modificadoPor) == c
  {
    c.(activo := false, modificadoPor := if TieneTexto(eliminadoPor) then eliminadoPor else c.modificadoPor)
  }

  /** Deleting twice stores what deleting once does. */
  lemma EliminadaIdempotente(c: Fila, eliminadoPor: Option<string>)
    ensures Eliminada(Eliminada(c, eliminadoPor), eliminadoPor) == Eliminada(c, eliminadoPor)
  {
  }

  /** The table after the reorder loop has handled the first `n` identities
      of `ids`: the row of `ids[j]` gets position `j + 1`, one identity after
      the other. */
  function Reordenadas(t: seq<Fila>, ids: seq<int>, n: nat): (r: seq<Fila>)
    requires n <= |ids|
    requires forall j :: 0 <= j < n ==> 1 <= ids[j] <= |t|
    ensures |r| == |t|
    decreases n
  {
    if n == 0 then t
    else
      var u := Reordenadas(t, ids, n - 1);
      u[ids[n - 1] - 1 := u[ids[n - 1] - 1].(ordenVisualizacion := Some(n))]
  }

  /** A reorder changes nothing but positions. */
  lemma {:induction false} ReordenadasSoloOrden(t: seq<Fila>, ids: seq<int>, n: nat)
    requires n <= |ids|
    requires forall j :: 0 <= j < n ==> 1 <= ids[j] <= |t|
    ensures var r := Reordenadas(t, ids, n);
      forall k :: 0 <= k < |t| ==> r[k] == t[k].(ordenVisualizacion := r[k].ordenVisualizacion)
    decreases n
  {
    if n > 0 {
      ReordenadasSoloOrden(t, ids, n - 1);
    }
  }

  /** After a reorder, a listed row's position is one more than the last
      place its identity occupies in the list; an unlisted row keeps its
      own. */
  lemma {:induction false} ReordenadasUltimaGana(t: seq<Fila>, ids: seq<int>, n: nat, k: int)
    requires n <= |ids|
    requires forall j :: 0 <= j < n ==> 1 <= ids[j] <= |t|
    requires 0 <= k < |t|
    ensures var j := UltimaPosicion(ids, n, k + 1);
      Reordenadas(t, ids, n)[k].ordenVisualizacion == if j >= 0 then Some(j + 1) else t[k].ordenVisualizacion
    decreases n
  {
    if n > 0 {
      ReordenadasUltimaGana(t, ids, n - 1, k);
      var u := Reordenadas(t, ids, n - 1);
      var r := Reordenadas(t, ids, n);
      if ids[n - 1] == k + 1 {
        assert UltimaPosicion(ids, n, k + 1) == n - 1;
        assert r[k].ordenVisualizacion == Some(n);
      } else {
        assert UltimaPosicion(ids, n, k + 1) == UltimaPosicion(ids, n - 1, k + 1);
        assert r[k] == u[k];
      }
    }
  }

  class CategoriaService {
    var categorias: seq<Fila>
    var subcategorias: seq<S.Fila>

    ghost predicate Valid()
      reads this
    {
      Tablas(categorias, subcategorias)
    }

    constructor ()
      ensures Valid() && categorias == [] && subcategorias == []
    {
      categorias := [];
      subcategorias := [];
    }

    /** `convertirACategoriaDTO`. */
    function Convertir(c: Fila): (v: Vista)
      reads this
      ensures v.categoria == c
      ensures v.totalSubcategorias == |Filtrar(subcategorias, SubcategoriaActivaDe(c.id))|
    {
      Vista(c, ContarSubcategoriasActivas(subcategorias, c.id))
    }

    /** `obtenerCategorias` without paging: a name with text and a state use
        the search over name and description; a name alone searches the
        name among active rows; a state alone filters by it; neither lists
        every row. */
    function Obtener(nombre: Option<string>, activo: Option<bool>): (r: seq<Fila>)
      reads this
      ensures forall c :: c in r <==> (c in categorias &&
        if TieneTexto(nombre) then
          && (ContieneSinMayusculas(c.nombre, nombre.value)
              || (activo.Some? && ColumnaContiene(c.descripcion, nombre.value)))
          && c.activo == (if activo.Some? then activo.value else true)
        else Coincide(activo, c.activo))
    {
      if TieneTexto(nombre) && activo.Some? then PorTermino(categorias, nombre.value, activo.value)
      else if TieneTexto(nombre) then PorNombreActivas(categorias, nombre.value)
      else if activo.Some? then PorActivo(categorias, activo.value)
      else categorias
    }

    /** `obtenerCategoriasActivas`. */
    function Activas(): (r: seq<Fila>)
      reads this
      ensures forall c :: c in r <==> c in categorias && c.activo
      ensures Ordenada(r, OrdenYNombreAntes)
    {
      ActivasOrdenadas(categorias)
    }

    /** `buscarCategorias`: an absent state searches the active rows. */
    function BuscarPorTermino(termino: string, activo: Option<bool>): (r: seq<Fila>)
      reads this
      ensures forall c :: c in r <==>
        (&& c in categorias
         && c.activo == (if activo.Some? then activo.value else true)
         && (ContieneSinMayusculas(c.nombre, termino) || ColumnaContiene(c.descripcion, termino)))
    {
      PorTermino(categorias, termino, if activo.Some? then activo.value else true)
    }

    /** `obtenerCategoriaPorId`: NotFound for an unknown identity. */
    function PorId(id: int): (r: Result<Vista>)
      reads this
      requires Valid()
      ensures r.Success? <==> 1 <= id <= |categorias|
      ensures r.Success? ==> r.value.categoria.id == id && r.value.categoria in categorias
      ensures r.Failure? ==> r.error == NotFound
    {
      match Buscar(categorias, id)
      case Success(c) => Success(Convertir(c))
      case Failure(e) => Failure(e)
    }

    /** `obtenerCategoriaConSubcategorias`: the category and its active
        subcategories, in table order; their number is the view's total. */
    function ConSubcategorias(id: int): (r: Result<(Vista, seq<S.Fila>)>)
      reads this
      requires Valid()
      ensures r.Failure? <==> !(1 <= id <= |categorias|)
      ensures r.Failure? ==> r.error == NotFound
      ensures r.Success? ==> r.value.0.categoria.id == id
      ensures r.Success? ==> forall s :: s in r.value.1 <==> s in subcategorias && s.categoriaId == id && s.activo
      ensures r.Success? ==> |r.value.1| == r.value.0.totalSubcategorias
    {
      match Buscar(categorias, id)
      case Success(c) => Success((Convertir(c), Filtrar(subcategorias, SubcategoriaActivaDe(id))))
      case Failure(e) => Failure(e)
    }

    /** `crearCategoria`: a name already used, ignoring case and whether or
        not that category is active, is a business error and nothing is
        written; otherwise the category is stored under the next identity,
        at the given position or one past the largest. */
    method Crear(a: Alta) returns (r: Result<Vista>)
      requires Valid()
      modifies this`categorias
      ensures Valid()
      ensures ExisteConNombre(old(categorias), a.nombre) ==>
        r == Failure(Business) && categorias == old(categorias)
      ensures !ExisteConNombre(old(categorias), a.nombre) ==>
        && categorias == old(categorias) + [Creada(a, |old(categorias)| + 1, MaxOrden(old(categorias)))]
        && r == Success(Convertir(categorias[|categorias| - 1]))
    {
      if ExisteConNombre(categorias, a.nombre) {
        r := Failure(Business);
      } else {
        var c := NuevaCategoria(a, categorias);
        TablasConAlta(categorias, subcategorias, c);
        categorias := categorias + [c];
        r := Success(Convertir(c));
      }
    }

    /** `actualizarCategoria`: NotFound for an unknown identity; a name with
        text held by another category is a business error; in both cases
        nothing is written. Otherwise only that row changes, as
        `Actualizada` says. */
    method Actualizar(id: int, d: Cambios) returns (r: Result<Vista>)
      requires Valid()
      modifies this`categorias
      ensures Valid()
      ensures !(1 <= id <= |old(categorias)|) ==> r == Failure(NotFound) && categorias == old(categorias)
      ensures 1 <= id <= |old(categorias)| && TieneTexto(d.nombre) && ExisteOtraConNombre(old(categorias), d.nombre.value, id) ==>
        r == Failure(Business) && categorias == old(categorias)
      ensures 1 <= id <= |old(categorias)| && !(TieneTexto(d.nombre) && ExisteOtraConNombre(old(categorias), d.nombre.value, id)) ==>
        && categorias == old(categorias)[id - 1 := Actualizada(old(categorias)[id - 1], d)]
        && r == Success(Convertir(categorias[id - 1]))
    {
      var encontrada := Buscar(categorias, id);
      if encontrada.Failure? {
        r := Failure(NotFound);
      } else if TieneTexto(d.nombre) && ExisteOtraConNombre(categorias, d.nombre.value, id) {
        r := Failure(Business);
      } else {
        var c := AplicarCambios(encontrada.value, d);
        TablasConCambio(categorias, subcategorias, id - 1, c, d.nombre);
        categorias := categorias[id - 1 := c];
        r := Success(Convertir(c));
      }
    }

    /** `eliminarCategoria`: NotFound for an unknown identity; a business
        error while the category has an active subcategory; otherwise only
        that row changes, as `Eliminada` says. */
    method Eliminar(id: int, eliminadoPor: Option<string>) returns (r: Result<()>)
      requires Valid()
      modifies this`categorias
      ensures Valid()
      ensures !(1 <= id <= |old(categorias)|) ==> r == Failure(NotFound) && categorias == old(categorias)
      ensures 1 <= id <= |old(categorias)| && ContarSubcategoriasActivas(subcategorias, id) > 0 ==>
        r == Failure(Business) && categorias == old(categorias)
      ensures 1 <= id <= |old(categorias)| && ContarSubcategoriasActivas(subcategorias, id) == 0 ==>
        r == Success(()) && categorias == old(categorias)[id - 1 := Eliminada(old(categorias)[id - 1], eliminadoPor)]
    {
      var encontrada := Buscar(categorias, id);
      if encontrada.Failure? {
        r := Failure(NotFound);
      } else if ContarSubcategoriasActivas(subcategorias, id) > 0 {
        r := Failure(Business);
      } else {
        Desactivar(encontrada.value, eliminadoPor);
        r := Success(());
      }
    }

    /** The soft delete of `eliminarCategoria` on the stored row `c`. */
    method Desactivar(c: Fila, eliminadoPor: Option<string>)
      requires Valid() && 1 <= c.id <= |categorias| && categorias[c.id - 1] == c
      modifies this`categorias
      ensures Valid()
      ensures categorias == old(categorias)[c.id - 1 := Eliminada(c, eliminadoPor)]
    {
      var g := c.(activo := false);
      if TieneTexto(eliminadoPor) {
        g := g.(modificadoPor := eliminadoPor);
      }
      assert g == Eliminada(c, eliminadoPor);
      TablasConCambio(categorias, subcategorias, c.id - 1, g, None);
      categorias := categorias[c.id - 1 := g];
    }

    /** `reordenarCategorias`: walks the list, giving the row of the identity
        at place `i` the position `i + 1`. The first unknown identity is
        NotFound and, the call being one transaction, nothing is written;
        otherwise the table becomes `Reordenadas`. */
    method Reordenar(ids: seq<int>) returns (r: Result<()>)
      requires Valid()
      modifies this`categorias
      ensures Valid()
      ensures (forall j :: 0 <= j < |ids| ==> 1 <= ids[j] <= |old(categorias)|) ==>
        r == Success(()) && categorias == Reordenadas(old(categorias), ids, |ids|)
      ensures !(forall j :: 0 <= j < |ids| ==> 1 <= ids[j] <= |old(categorias)|) ==>
        r == Failure(NotFound) && categorias == old(categorias)
    {
      var t, n := RecorrerOrden(categorias, ids);
      if n < |ids| {
        r := Failure(NotFound);
      } else {
        TablasReordenadas(categorias, subcategorias, ids);
        categorias := t;
        r := Success(());
      }
    }
  }

  /** The loop of `reordenarCategorias` over a table `t0`: it stops at the
      first unknown identity, having given every earlier one its
      position. */
  method RecorrerOrden(t0: seq<Fila>, ids: seq<int>) returns (t: seq<Fila>, n: int)
    ensures 0 <= n <= |ids|
    ensures forall j :: 0 <= j < n ==> 1 <= ids[j] <= |t0|
    ensures n < |ids| ==> !(1 <= ids[n] <= |t0|)
    ensures t == Reordenadas(t0, ids, n)
  {
    t := t0;
    n := 0;
    while n < |ids| && 1 <= ids[n] <= |t0|
      invariant 0 <= n <= |ids|
      invariant forall j :: 0 <= j < n ==> 1 <= ids[j] <= |t0|
      invariant t == Reordenadas(t0, ids, n)
    {
      t := t[ids[n] - 1 := t[ids[n] - 1].(ordenVisualizacion := Some(n + 1))];
      n := n + 1;
    }
  }

  /** Identities are positions, every subcategory's parent exists, and no
      two categories have names equal ignoring case. */
  ghost predicate Tablas(categorias: seq<Fila>, subcategorias: seq<S.Fila>)
  {
    && Posicional(categorias)
    && S.Posicional(subcategorias)
    && (forall i :: 0 <= i < |subcategorias| ==> 1 <= subcategorias[i].categoriaId <= |categorias|)
    && (forall i, j :: 0 <= i < j < |categorias| ==> !IgualSinMayusculas(categorias[i].nombre, categorias[j].nombre))
  }

  /** Appending a category under the next identity, with a name no category
      holds, keeps the tables valid. */
  lemma TablasConAlta(categorias: seq<Fila>, subcategorias: seq<S.Fila>, c: Fila)
    requires Tablas(categorias, subcategorias)
    requires c.id == |categorias| + 1 && !ExisteConNombre(categorias, c.nombre)
    ensures Tablas(categorias + [c], subcategorias)
  {
    var u := categorias + [c];
    forall i, j | 0 <= i < j < |u| ensures !IgualSinMayusculas(u[i].nombre, u[j].nombre) {
      if j == |categorias| {
        assert !ConNombreEn(c.nombre)(categorias[i]);
      }
    }
  }

  /** Replacing row `k` by a row with the same identity keeps the tables
      valid when the name is kept, or is one no other category holds. */
  lemma TablasConCambio(categorias: seq<Fila>, subcategorias: seq<S.Fila>, k: int, c: Fila, nombre: Option<string>)
    requires Tablas(categorias, subcategorias) && 0 <= k < |categorias| && c.id == categorias[k].id
    requires c.nombre == if TieneTexto(nombre) then nombre.value else categorias[k].nombre
    requires TieneTexto(nombre) ==> !ExisteOtraConNombre(categorias, nombre.value, categorias[k].id)
    ensures Tablas(categorias[k := c], subcategorias)
  {
    var u := categorias[k := c];
    forall i, j | 0 <= i < j < |u| ensures !IgualSinMayusculas(u[i].nombre, u[j].nombre) {
      if TieneTexto(nombre) && (i == k || j == k) {
        var o := if i == k then j else i;
        assert categorias[o].id != categorias[k].id;
        assert !OtraConNombreEn(nombre.value, categorias[k].id)(categorias[o]);
      }
    }
  }

  /** A reorder changes positions only, so it keeps the tables valid. */
  lemma TablasReordenadas(categorias: seq<Fila>, subcategorias: seq<S.Fila>, ids: seq<int>)
    requires Tablas(categorias, subcategorias)
    requires forall j :: 0 <= j < |ids| ==> 1 <= ids[j] <= |categorias|
    ensures Tablas(Reordenadas(categorias, ids, |ids|), subcategorias)
  {
    var r := Reordenadas(categorias, ids, |ids|);
    ReordenadasSoloOrden(categorias, ids, |ids|);
    assert forall k :: 0 <= k < |categorias| ==> r[k].id == categorias[k].id && r[k].nombre == categorias[k].nombre;
  }
}
