/** `SuscripcionService`: lists subscription plans, validates a price range,
    creates plans with their defaults, applies partial updates, deletes plans
    and switches them on and off. The `suscripciones` table is a field; plans
    are deleted for real, so identities are increasing but not contiguous and
    `siguienteId` is the identity the next insert receives. */
module SuscripcionServicio {
  import opened Comun
  import opened Redondeo
  import opened Suscripciones

  /** The body of a create call: the fields `mapCreateDTOToEntity` reads.
      `nombre`, `precioOriginal` and `duracionDias` fill non-null columns. */
  datatype Alta = Alta(
    nombre: string,
    descripcion: Option<string>,
    precioOriginal: real,
    porcentajeDescuento: Option<real>,
    duracionDias: int,
    numeroSolicitudesIncluidas: Option<int>,
    soportePrioritario: Option<bool>,
    destacado: Option<bool>,
    activo: Option<bool>,
    ordenVisualizacion: Option<int>,
    colorHexadecimal: Option<string>,
    icono: Option<string>,
    creadoPor: Option<string>)

  /** The body of an update call (`UpdateSuscripcionDTO`): every field may be
      absent. */
  datatype Cambios = Cambios(
    nombre: Option<string>,
    descripcion: Option<string>,
    precioOriginal: Option<real>,
    porcentajeDescuento: Option<real>,
    duracionDias: Option<int>,
    numeroSolicitudesIncluidas: Option<int>,
    soportePrioritario: Option<bool>,
    destacado: Option<bool>,
    activo: Option<bool>,
    ordenVisualizacion: Option<int>,
    colorHexadecimal: Option<string>,
    icono: Option<string>,
    modificadoPor: Option<string>)

  /** The bean-validation bounds of `UpdateSuscripcionDTO`: a positive
      original price of at most 8 integer digits and 2 decimals, and a
      percentage between 0 and 100 with at most 2 decimals. */
  predicate CambiosValidos(c: Cambios)
  {
    && (c.precioOriginal.Some? ==>
          0.0 < c.precioOriginal.value < 100000000.0 && DosDecimales(c.precioOriginal.value))
    && (c.porcentajeDescuento.Some? ==>
          0.0 <= c.porcentajeDescuento.value <= 100.0 && DosDecimales(c.porcentajeDescuento.value))
  }

  /** What every stored plan satisfies: its final price is the one the
      price rule gives, rounded to the two decimals of its column, and the
      two flags the create mapping always fills are present. */
  predicate Coherente(f: Fila)
  {
    && f.precioFinal == RedondearDosDecimales(PrecioFinal(f.precioOriginal, f.porcentajeDescuento))
    && f.soportePrioritario.Some? && f.destacado.Some?
  }

  /** The entity a create call saves under identity `id`, once the create
      hook has run: the response carries it with the exact final price, the
      table keeps `Almacenada` of it. */
  function Creada(a: Alta, id: int, ahora: int): (f: Fila)
    ensures f.precioFinal == PrecioFinal(f.precioOriginal, f.porcentajeDescuento)
    ensures Coherente(Almacenada(f))
    ensures f.id == id && f.nombre == a.nombre && f.precioOriginal == a.precioOriginal
    ensures f.porcentajeDescuento == Some(if a.porcentajeDescuento.Some? then a.porcentajeDescuento.value else 0.0)
    ensures a.porcentajeDescuento.None? ==> f.precioFinal == a.precioOriginal
    ensures f.soportePrioritario == Some(a.soportePrioritario == Some(true))
    ensures f.destacado == Some(a.destacado == Some(true))
    ensures f.activo == (a.activo != Some(false))
    ensures f.fechaCreacion == ahora && f.fechaModificacion == Some(ahora) && f.modificadoPor.None?
  {
    var pct := if a.porcentajeDescuento.Some? then a.porcentajeDescuento.value else 0.0;
    Fila(id, a.nombre, a.descripcion, a.precioOriginal, Some(pct),
         PrecioFinal(a.precioOriginal, Some(pct)), a.duracionDias, a.numeroSolicitudesIncluidas,
         Some(a.soportePrioritario == Some(true)), Some(a.destacado == Some(true)),
         a.activo != Some(false), a.ordenVisualizacion, a.colorHexadecimal, a.icono,
         ahora, Some(ahora), a.creadoPor, None)
  }

  /** The entity after `mapUpdateDTOToEntity`: each present field replaces
      its column, the name only when it has text; the final price and the
      modification time are still the stored ones. This is what the update
      call answers with, because the update hook runs only when the
      transaction commits, after the response is built. */
  function Mapeada(f: Fila, c: Cambios): (g: Fila)
    ensures g.id == f.id && g.fechaCreacion == f.fechaCreacion && g.creadoPor == f.creadoPor
    ensures g.precioFinal == f.precioFinal && g.fechaModificacion == f.fechaModificacion
    ensures g.nombre == if TieneTexto(c.nombre) then c.nombre.value else f.nombre
    ensures c.descripcion.None? ==> g.descripcion == f.descripcion
    ensures c.precioOriginal.None? ==> g.precioOriginal == f.precioOriginal
    ensures c.porcentajeDescuento.None? ==> g.porcentajeDescuento == f.porcentajeDescuento
    ensures c.duracionDias.None? ==> g.duracionDias == f.duracionDias
    ensures c.numeroSolicitudesIncluidas.None? ==> g.numeroSolicitudesIncluidas == f.numeroSolicitudesIncluidas
    ensures c.soportePrioritario.None? ==> g.soportePrioritario == f.soportePrioritario
    ensures c.destacado.None? ==> g.destacado == f.destacado
    ensures c.activo.None? ==> g.activo == f.activo
    ensures c.ordenVisualizacion.None? ==> g.ordenVisualizacion == f.ordenVisualizacion
    ensures c.colorHexadecimal.None? ==> g.colorHexadecimal == f.colorHexadecimal
    ensures c.icono.None? ==> g.icono == f.icono
    ensures c.modificadoPor.None? ==> g.modificadoPor == f.modificadoPor
  {
    f.(nombre := if TieneTexto(c.nombre) then c.nombre.value else f.nombre,
       descripcion := NuevoOpcional(c.descripcion, f.descripcion),
       precioOriginal := Nuevo(c.precioOriginal, f.precioOriginal),
       porcentajeDescuento := NuevoOpcional(c.porcentajeDescuento, f.porcentajeDescuento),
       duracionDias := Nuevo(c.duracionDias, f.duracionDias),
       numeroSolicitudesIncluidas := NuevoOpcional(c.numeroSolicitudesIncluidas, f.numeroSolicitudesIncluidas),
       soportePrioritario := NuevoOpcional(c.soportePrioritario, f.soportePrioritario),
       destacado := NuevoOpcional(c.destacado, f.destacado),
       activo := Nuevo(c.activo, f.activo),
       ordenVisualizacion := NuevoOpcional(c.ordenVisualizacion, f.ordenVisualizacion),
       colorHexadecimal := NuevoOpcional(c.colorHexadecimal, f.colorHexadecimal),
       icono := NuevoOpcional(c.icono, f.icono),
       modificadoPor := NuevoOpcional(c.modificadoPor, f.modificadoPor))
  }

  /** The row an update call stores: the mapped entity once the update hook
      has refreshed the modification time and recomputed the final price,
      which the table rounds to two decimals. */
  function Actualizada(f: Fila, c: Cambios, ahora: int): (g: Fila)
    ensures var m := Mapeada(f, c);
      g.(precioFinal := m.precioFinal, fechaModificacion := m.fechaModificacion) == m
    ensures g.fechaModificacion == Some(ahora)
    ensures g.precioFinal == RedondearDosDecimales(PrecioFinal(g.precioOriginal, g.porcentajeDescuento))
    ensures Coherente(f) ==> Coherente(g)
    ensures Coherente(f) && c.precioOriginal.None? && c.porcentajeDescuento.None? ==> g.precioFinal == f.precioFinal
  {
    var m := Mapeada(f, c);
    Almacenada(m.(precioFinal := PrecioFinal(m.precioOriginal, m.porcentajeDescuento), fechaModificacion := Some(ahora)))
  }

  /** An update with no field present changes nothing but the modification
      time of a coherent row, and applying the same update twice is the same
      as applying it once. */
  lemma ActualizacionVaciaEIdempotente(f: Fila, c: Cambios, ahora: int)
    requires Coherente(f)
    ensures c == Cambios(None, None, None, None, None, None, None, None, None, None, None, None, None) ==>
      Actualizada(f, c, ahora) == f.(fechaModificacion := Some(ahora))
    ensures Actualizada(Actualizada(f, c, ahora), c, ahora) == Actualizada(f, c, ahora)
  {
  }

  /** The original price and percentage of a plan are within the bounds the
      update body is validated against. */
  predicate PrecioEnRango(f: Fila)
  {
    && 0.0 <= f.precioOriginal < 100000000.0 && DosDecimales(f.precioOriginal)
    && (f.porcentajeDescuento.Some? ==>
          0.0 <= f.porcentajeDescuento.value <= 100.0 && DosDecimales(f.porcentajeDescuento.value))
  }

  /** A stored plan whose price is in range has a final price between 0 and
      its original price: rounding to two decimals cannot push it past an
      original price that has two decimals. */
  lemma FinalAcotado(f: Fila)
    requires Coherente(f) && PrecioEnRango(f)
    ensures 0.0 <= f.precioFinal <= f.precioOriginal
  {
    var exacto := PrecioFinal(f.precioOriginal, f.porcentajeDescuento);
    PrecioFinalAcotado(f.precioOriginal, f.porcentajeDescuento);
    RedondearMonotono(0.0, exacto);
    RedondearMonotono(exacto, f.precioOriginal);
    RedondearConserva(0.0);
    RedondearConserva(f.precioOriginal);
  }

  /** An update body that passed validation keeps a plan's price within
      bounds, so its final price stays between 0 and its original price. */
  lemma ActualizadaEnRango(f: Fila, c: Cambios, ahora: int)
    requires Coherente(f) && PrecioEnRango(f) && CambiosValidos(c)
    ensures PrecioEnRango(Actualizada(f, c, ahora))
    ensures 0.0 <= Actualizada(f, c, ahora).precioFinal <= Actualizada(f, c, ahora).precioOriginal
  {
    FinalAcotado(Actualizada(f, c, ahora));
  }

  /** The row `toggleActivoSuscripcion` stores. */
  function Alternada(f: Fila, ahora: int): (g: Fila)
    ensures g.activo != f.activo
  {
    f.(activo := !f.activo, fechaModificacion := Some(ahora))
  }

  /** Toggling twice restores the plan, apart from its modification time. */
  lemma AlternarDosVeces(f: Fila, t1: int, t2: int)
    ensures Alternada(Alternada(f, t1), t2) == f.(fechaModificacion := Some(t2))
  {
  }

  /** With every stored price in range, every final price lies between 0
      and its original price. */
  lemma PreciosAcotados(t: seq<Fila>)
    requires forall i :: 0 <= i < |t| ==> Coherente(t[i]) && PrecioEnRango(t[i])
    ensures forall i :: 0 <= i < |t| ==> 0.0 <= t[i].precioFinal <= t[i].precioOriginal
  {
    forall i | 0 <= i < |t| ensures 0.0 <= t[i].precioFinal <= t[i].precioOriginal {
      FinalAcotado(t[i]);
    }
  }

  // ---------------------------------------------------------------------------
  // The entity steps of the service

  /** `mapCreateDTOToEntity`: copies the create body onto a new entity,
      making a missing percentage 0, a missing support or featured flag
      false and a missing `activo` true. */
  method MapearAlta(a: Alta, s: Suscripcion)
    modifies s`nombre, s`descripcion, s`precioOriginal, s`duracionDias, s`numeroSolicitudesIncluidas
    modifies s`ordenVisualizacion, s`colorHexadecimal, s`icono, s`creadoPor
    modifies s`porcentajeDescuento, s`soportePrioritario, s`destacado, s`activo
    ensures s.nombre == Some(a.nombre) && s.descripcion == a.descripcion
    ensures s.precioOriginal == Some(a.precioOriginal) && s.duracionDias == Some(a.duracionDias)
    ensures s.numeroSolicitudesIncluidas == a.numeroSolicitudesIncluidas
    ensures s.ordenVisualizacion == a.ordenVisualizacion && s.colorHexadecimal == a.colorHexadecimal
    ensures s.icono == a.icono && s.creadoPor == a.creadoPor
    ensures s.porcentajeDescuento == Some(if a.porcentajeDescuento.Some? then a.porcentajeDescuento.value else 0.0)
    ensures s.soportePrioritario == Some(if a.soportePrioritario.Some? then a.soportePrioritario.value else false)
    ensures s.destacado == Some(if a.destacado.Some? then a.destacado.value else false)
    ensures s.activo == Some(if a.activo.Some? then a.activo.value else true)
  {
    CopiarAlta(a, s);
    CompletarAlta(a, s);
  }

  /** The fields the create mapping copies as they come. */
  method CopiarAlta(a: Alta, s: Suscripcion)
    modifies s`nombre, s`descripcion, s`precioOriginal, s`duracionDias, s`numeroSolicitudesIncluidas
    modifies s`ordenVisualizacion, s`colorHexadecimal, s`icono, s`creadoPor
    ensures s.nombre == Some(a.nombre) && s.descripcion == a.descripcion
    ensures s.precioOriginal == Some(a.precioOriginal) && s.duracionDias == Some(a.duracionDias)
    ensures s.numeroSolicitudesIncluidas == a.numeroSolicitudesIncluidas
    ensures s.ordenVisualizacion == a.ordenVisualizacion && s.colorHexadecimal == a.colorHexadecimal
    ensures s.icono == a.icono && s.creadoPor == a.creadoPor
  {
    s.nombre := Some(a.nombre);
    s.descripcion := a.descripcion;
    s.precioOriginal := Some(a.precioOriginal);
    s.duracionDias := Some(a.duracionDias);
    s.numeroSolicitudesIncluidas := a.numeroSolicitudesIncluidas;
    s.ordenVisualizacion := a.ordenVisualizacion;
    s.colorHexadecimal := a.colorHexadecimal;
    s.icono := a.icono;
    s.creadoPor := a.creadoPor;
  }

  /** The fields the create mapping fills with a default when absent. */
  method CompletarAlta(a: Alta, s: Suscripcion)
    modifies s`porcentajeDescuento, s`soportePrioritario, s`destacado, s`activo
    ensures s.porcentajeDescuento == Some(if a.porcentajeDescuento.Some? then a.porcentajeDescuento.value else 0.0)
    ensures s.soportePrioritario == Some(if a.soportePrioritario.Some? then a.soportePrioritario.value else false)
    ensures s.destacado == Some(if a.destacado.Some? then a.destacado.value else false)
    ensures s.activo == Some(if a.activo.Some? then a.activo.value else true)
  {
    s.porcentajeDescuento := Some(if a.porcentajeDescuento.Some? then a.porcentajeDescuento.value else 0.0);
    s.soportePrioritario := Some(if a.soportePrioritario.Some? then a.soportePrioritario.value else false);
    s.destacado := Some(if a.destacado.Some? then a.destacado.value else false);
    s.activo := Some(if a.activo.Some? then a.activo.value else true);
  }

  /** `mapUpdateDTOToEntity`: sets each field the update body carries, the
      name only when it is not blank; every other field keeps its value. */
  method MapearCambios(c: Cambios, s: Suscripcion)
    modifies s`nombre, s`descripcion, s`colorHexadecimal, s`icono, s`modificadoPor
    modifies s`precioOriginal, s`porcentajeDescuento, s`duracionDias, s`numeroSolicitudesIncluidas
    modifies s`soportePrioritario, s`destacado, s`activo, s`ordenVisualizacion
    ensures s.nombre == if TieneTexto(c.nombre) then c.nombre else old(s.nombre)
    ensures s.descripcion == NuevoOpcional(c.descripcion, old(s.descripcion))
    ensures s.colorHexadecimal == NuevoOpcional(c.colorHexadecimal, old(s.colorHexadecimal))
    ensures s.icono == NuevoOpcional(c.icono, old(s.icono))
    ensures s.modificadoPor == NuevoOpcional(c.modificadoPor, old(s.modificadoPor))
    ensures s.precioOriginal == NuevoOpcional(c.precioOriginal, old(s.precioOriginal))
    ensures s.porcentajeDescuento == NuevoOpcional(c.porcentajeDescuento, old(s.porcentajeDescuento))
    ensures s.duracionDias == NuevoOpcional(c.duracionDias, old(s.duracionDias))
    ensures s.numeroSolicitudesIncluidas == NuevoOpcional(c.numeroSolicitudesIncluidas, old(s.numeroSolicitudesIncluidas))
    ensures s.soportePrioritario == NuevoOpcional(c.soportePrioritario, old(s.soportePrioritario))
    ensures s.destacado == NuevoOpcional(c.destacado, old(s.destacado))
    ensures s.activo == NuevoOpcional(c.activo, old(s.activo))
    ensures s.ordenVisualizacion == NuevoOpcional(c.ordenVisualizacion, old(s.ordenVisualizacion))
  {
    CambiarTextos(c, s);
    CambiarPrecio(c, s);
    CambiarBanderas(c, s);
  }

  method CambiarTextos(c: Cambios, s: Suscripcion)
    modifies s`nombre, s`descripcion, s`colorHexadecimal, s`icono, s`modificadoPor
    ensures s.nombre == if TieneTexto(c.nombre) then c.nombre else old(s.nombre)
    ensures s.descripcion == NuevoOpcional(c.descripcion, old(s.descripcion))
    ensures s.colorHexadecimal == NuevoOpcional(c.colorHexadecimal, old(s.colorHexadecimal))
    ensures s.icono == NuevoOpcional(c.icono, old(s.icono))
    ensures s.modificadoPor == NuevoOpcional(c.modificadoPor, old(s.modificadoPor))
  {
    if c.nombre.Some? && !EnBlanco(c.nombre.value) {
      s.nombre := c.nombre;
    }
    if c.descripcion.Some? {
      s.descripcion := c.descripcion;
    }
    if c.colorHexadecimal.Some? {
      s.colorHexadecimal := c.colorHexadecimal;
    }
    if c.icono.Some? {
      s.icono := c.icono;
    }
    if c.modificadoPor.Some? {
      s.modificadoPor := c.modificadoPor;
    }
  }

  method CambiarPrecio(c: Cambios, s: Suscripcion)
    modifies s`precioOriginal, s`porcentajeDescuento, s`duracionDias, s`numeroSolicitudesIncluidas
    ensures s.precioOriginal == NuevoOpcional(c.precioOriginal, old(s.precioOriginal))
    ensures s.porcentajeDescuento == NuevoOpcional(c.porcentajeDescuento, old(s.porcentajeDescuento))
    ensures s.duracionDias == NuevoOpcional(c.duracionDias, old(s.duracionDias))
    ensures s.numeroSolicitudesIncluidas == NuevoOpcional(c.numeroSolicitudesIncluidas, old(s.numeroSolicitudesIncluidas))
  {
    if c.precioOriginal.Some? {
      s.precioOriginal := c.precioOriginal;
    }
    if c.porcentajeDescuento.Some? {
      s.porcentajeDescuento := c.porcentajeDescuento;
    }
    if c.duracionDias.Some? {
      s.duracionDias := c.duracionDias;
    }
    if c.numeroSolicitudesIncluidas.Some? {
      s.numeroSolicitudesIncluidas := c.numeroSolicitudesIncluidas;
    }
  }

  method CambiarBanderas(c: Cambios, s: Suscripcion)
    modifies s`soportePrioritario, s`destacado, s`activo, s`ordenVisualizacion
    ensures s.soportePrioritario == NuevoOpcional(c.soportePrioritario, old(s.soportePrioritario))
    ensures s.destacado == NuevoOpcional(c.destacado, old(s.destacado))
    ensures s.activo == NuevoOpcional(c.activo, old(s.activo))
    ensures s.ordenVisualizacion == NuevoOpcional(c.ordenVisualizacion, old(s.ordenVisualizacion))
  {
    if c.soportePrioritario.Some? {
      s.soportePrioritario := c.soportePrioritario;
    }
    if c.destacado.Some? {
      s.destacado := c.destacado;
    }
    if c.activo.Some? {
      s.activo := c.activo;
    }
    if c.ordenVisualizacion.Some? {
      s.ordenVisualizacion := c.ordenVisualizacion;
    }
  }

  /** A new entity, mapped from the create body and saved under `id`. */
  method NuevaSuscripcion(a: Alta, id: int, ahora: int) returns (f: Fila)
    ensures f == Creada(a, id, ahora)
  {
    var s := new Suscripcion();
    MapearAlta(a, s);
    s.OnCreate(ahora);
    f := s.ComoFila(id);
  }

  /** The managed entity of a stored plan with the update body mapped onto
      it. */
  method CargarConCambios(f: Fila, c: Cambios) returns (s: Suscripcion)
    ensures fresh(s) && s.Persistible() && s.ComoFila(f.id) == Mapeada(f, c)
  {
    s := new Suscripcion.Cargar(f);
    MapearCambios(c, s);
  }

  /** A stored plan loaded and given the update body: the entity as the
      response reads it, then the row the update hook leaves for the table
      at commit. */
  method ConCambios(f: Fila, c: Cambios, ahora: int) returns (respuesta: Fila, g: Fila)
    ensures respuesta == Mapeada(f, c)
    ensures g == Actualizada(f, c, ahora)
  {
    var s := CargarConCambios(f, c);
    respuesta := s.ComoFila(f.id);
    s.OnUpdate(ahora);
    g := Almacenada(s.ComoFila(f.id));
    assert s.ComoFila(f.id)
        == respuesta.(precioFinal := PrecioFinal(respuesta.precioOriginal, respuesta.porcentajeDescuento),
                      fechaModificacion := Some(ahora));
  }

  /** A stored plan loaded and switched on or off: the entity as the
      response reads it, then the row stored at commit; on a coherent row
      the recomputed and rounded final price is the one it already had. */
  method ConActivoAlternado(f: Fila, ahora: int) returns (respuesta: Fila, g: Fila)
    requires Coherente(f)
    ensures respuesta == f.(activo := !f.activo)
    ensures g == Alternada(f, ahora)
  {
    var s := new Suscripcion.Cargar(f);
    s.activo := Some(!s.activo.value);
    respuesta := s.ComoFila(f.id);
    s.OnUpdate(ahora);
    g := Almacenada(s.ComoFila(f.id));
  }

  // ---------------------------------------------------------------------------
  // Query predicates and orderings

  function ConId(id: int): Fila -> bool
  {
    (f: Fila) => f.id == id
  }

  function MismoNombre(nombre: string): Fila -> bool
  {
    (f: Fila) => IgualSinMayusculas(f.nombre, nombre)
  }

  function OtroConNombre(nombre: string, id: int): Fila -> bool
  {
    (f: Fila) => IgualSinMayusculas(f.nombre, nombre) && f.id != id
  }

  function Activa(): Fila -> bool
  {
    (f: Fila) => f.activo
  }

  function DestacadaActiva(): Fila -> bool
  {
    (f: Fila) => f.destacado == Some(true) && f.activo
  }

  function EnRango(min: real, max: real): Fila -> bool
  {
    (f: Fila) => f.activo && min <= f.precioFinal <= max
  }

  function ConDescuentoActiva(): Fila -> bool
  {
    (f: Fila) => f.activo && HayDescuento(f.porcentajeDescuento)
  }

  /** `ORDER BY ordenVisualizacion ASC`, a NULL position after every number. */
  predicate OrdenAntes(a: Fila, b: Fila)
  {
    match a.ordenVisualizacion
    case None => b.ordenVisualizacion.None?
    case Some(x) => b.ordenVisualizacion.None? || x <= b.ordenVisualizacion.value
  }

  /** `ORDER BY precioFinal ASC`. */
  predicate PrecioAntes(a: Fila, b: Fila)
  {
    a.precioFinal <= b.precioFinal
  }

  /** `ORDER BY porcentajeDescuento DESC`, a NULL percentage last. */
  predicate DescuentoAntes(a: Fila, b: Fila)
  {
    match a.porcentajeDescuento
    case None => b.porcentajeDescuento.None?
    case Some(x) => b.porcentajeDescuento.None? || x >= b.porcentajeDescuento.value
  }

  lemma OrdenesTotales()
    ensures PreordenTotal(OrdenAntes) && PreordenTotal(PrecioAntes) && PreordenTotal(DescuentoAntes)
  {
  }

  // ---------------------------------------------------------------------------
  // The service

  /** Identities are positive, increasing in insertion order and below the
      next one; every plan is coherent; no two plans have names that are
      equal ignoring case. */
  ghost predicate Tabla(t: seq<Fila>, siguiente: int)
  {
    && siguiente >= 1
    && (forall i :: 0 <= i < |t| ==> 1 <= t[i].id < siguiente)
    && (forall i, j :: 0 <= i < j < |t| ==> t[i].id < t[j].id)
    && (forall i :: 0 <= i < |t| ==> Coherente(t[i]))
    && (forall i, j :: 0 <= i < j < |t| ==> !IgualSinMayusculas(t[i].nombre, t[j].nombre))
  }

  class SuscripcionService {
    var suscripciones: seq<Fila>
    var siguienteId: int

    ghost predicate Valid()
      reads this
    {
      Tabla(suscripciones, siguienteId)
    }

    constructor ()
      ensures Valid() && suscripciones == [] && siguienteId == 1
    {
      suscripciones := [];
      siguienteId := 1;
    }

    /** `getSuscripcionesActivas`: the active plans, by display position. */
    function Activas(): (r: seq<Fila>)
      reads this
      ensures forall f :: f in r <==> f in suscripciones && f.activo
      ensures Ordenada(r, OrdenAntes)
    {
      OrdenesTotales();
      OrdenarOrdena(Filtrar(suscripciones, Activa()), OrdenAntes);
      MultisetMismosElementos(Ordenar(Filtrar(suscripciones, Activa()), OrdenAntes), Filtrar(suscripciones, Activa()));
      Ordenar(Filtrar(suscripciones, Activa()), OrdenAntes)
    }

    /** `getSuscripcionesDestacadas`: the active featured plans, by display
        position. */
    function Destacadas(): (r: seq<Fila>)
      reads this
      ensures forall f :: f in r <==> f in suscripciones && f.activo && f.destacado == Some(true)
      ensures Ordenada(r, OrdenAntes)
    {
      OrdenesTotales();
      OrdenarOrdena(Filtrar(suscripciones, DestacadaActiva()), OrdenAntes);
      MultisetMismosElementos(Ordenar(Filtrar(suscripciones, DestacadaActiva()), OrdenAntes),
                              Filtrar(suscripciones, DestacadaActiva()));
      Ordenar(Filtrar(suscripciones, DestacadaActiva()), OrdenAntes)
    }

    /** `getSuscripcionById`: NotFound for an unknown identity. */
    function PorId(id: int): (r: Result<Fila>)
      reads this
      ensures r.Success? <==> exists i :: 0 <= i < |suscripciones| && suscripciones[i].id == id
      ensures r.Success? ==> r.value in suscripciones && r.value.id == id
      ensures r.Failure? ==> r.error == NotFound
    {
      var i := Indice(suscripciones, ConId(id));
      if i >= 0 then Success(suscripciones[i]) else Failure(NotFound)
    }

    /** `getSuscripcionesPorRangoPrecio`: a negative bound, or a minimum above
        the maximum, is a business error; otherwise the active plans whose
        final price lies in the closed range, cheapest first. */
    function PorRangoPrecio(min: real, max: real): (r: Result<seq<Fila>>)
      reads this
      ensures r.Failure? <==> min < 0.0 || max < 0.0 || min > max
      ensures r.Failure? ==> r.error == Business
      ensures r.Success? ==> forall f :: f in r.value <==> f in suscripciones && f.activo && min <= f.precioFinal <= max
      ensures r.Success? ==> Ordenada(r.value, PrecioAntes)
    {
      if min < 0.0 || max < 0.0 then Failure(Business)
      else if min > max then Failure(Business)
      else
        OrdenesTotales();
        OrdenarOrdena(Filtrar(suscripciones, EnRango(min, max)), PrecioAntes);
        MultisetMismosElementos(Ordenar(Filtrar(suscripciones, EnRango(min, max)), PrecioAntes),
                                Filtrar(suscripciones, EnRango(min, max)));
        Success(Ordenar(Filtrar(suscripciones, EnRango(min, max)), PrecioAntes))
    }

    /** `getSuscripcionesConDescuento`: the active plans with a discount
        above zero, largest discount first. */
    function ConDescuento(): (r: seq<Fila>)
      reads this
      ensures forall f :: f in r <==> f in suscripciones && f.activo && HayDescuento(f.porcentajeDescuento)
      ensures Ordenada(r, DescuentoAntes)
    {
      OrdenesTotales();
      OrdenarOrdena(Filtrar(suscripciones, ConDescuentoActiva()), DescuentoAntes);
      MultisetMismosElementos(Ordenar(Filtrar(suscripciones, ConDescuentoActiva()), DescuentoAntes),
                              Filtrar(suscripciones, ConDescuentoActiva()));
      Ordenar(Filtrar(suscripciones, ConDescuentoActiva()), DescuentoAntes)
    }

    /** `contarSuscripcionesActivas`: as many as `Activas` lists. */
    function ContarActivas(): (n: nat)
      reads this
      ensures n == |Activas()|
    {
      Contar(suscripciones, Activa())
    }

    /** `createSuscripcion`: a name already used, ignoring case, is a
        business error and nothing is written; otherwise the plan is stored
        under the next identity with its defaults and computed price, rounded
        to two decimals in the table and exact in the response. */
    method Crear(a: Alta, ahora: int) returns (r: Result<Fila>)
      requires Valid()
      modifies this
      ensures Valid()
      ensures Existe(old(suscripciones), MismoNombre(a.nombre)) ==>
        r == Failure(Business) && suscripciones == old(suscripciones) && siguienteId == old(siguienteId)
      ensures !Existe(old(suscripciones), MismoNombre(a.nombre)) ==>
        && r == Success(Creada(a, old(siguienteId), ahora))
        && suscripciones == old(suscripciones) + [Almacenada(r.value)]
        && siguienteId == old(siguienteId) + 1
    {
      if Existe(suscripciones, MismoNombre(a.nombre)) {
        r := Failure(Business);
      } else {
        var f := NuevaSuscripcion(a, siguienteId, ahora);
        TablaConAlta(suscripciones, siguienteId, Almacenada(f));
        suscripciones := suscripciones + [Almacenada(f)];
        siguienteId := siguienteId + 1;
        r := Success(f);
      }
    }

    /** `updateSuscripcion`: NotFound for an unknown identity; a non-blank
        name held by another plan, ignoring case, is a business error; in
        both cases nothing is written. Otherwise only that plan changes, as
        `Actualizada` says, and the response is the mapped entity before the
        update hook, as `Mapeada` says. */
    method Actualizar(id: int, c: Cambios, ahora: int) returns (r: Result<Fila>)
      requires Valid()
      modifies this`suscripciones
      ensures Valid()
      ensures var i := Indice(old(suscripciones), ConId(id));
        && (i < 0 ==> r == Failure(NotFound) && suscripciones == old(suscripciones))
        && (0 <= i && TieneTexto(c.nombre) && Existe(old(suscripciones), OtroConNombre(c.nombre.value, id)) ==>
              r == Failure(Business) && suscripciones == old(suscripciones))
        && (0 <= i && !(TieneTexto(c.nombre) && Existe(old(suscripciones), OtroConNombre(c.nombre.value, id))) ==>
              && suscripciones == old(suscripciones)[i := Actualizada(old(suscripciones)[i], c, ahora)]
              && r == Success(Mapeada(old(suscripciones)[i], c)))
    {
      var i := Indice(suscripciones, ConId(id));
      if i < 0 {
        r := Failure(NotFound);
      } else if TieneTexto(c.nombre) && Existe(suscripciones, OtroConNombre(c.nombre.value, id)) {
        r := Failure(Business);
      } else {
        var respuesta, g := ConCambios(suscripciones[i], c, ahora);
        TablaConCambio(suscripciones, siguienteId, i, g, c.nombre);
        suscripciones := suscripciones[i := g];
        r := Success(respuesta);
      }
    }

    /** `deleteSuscripcion`: NotFound for an unknown identity; otherwise the
        row is removed and every other row stays, in order. */
    method Eliminar(id: int) returns (r: Result<()>)
      requires Valid()
      modifies this`suscripciones
      ensures Valid()
      ensures var i := Indice(old(suscripciones), ConId(id));
        && (i < 0 ==> r == Failure(NotFound) && suscripciones == old(suscripciones))
        && (0 <= i ==> r == Success(()) && suscripciones == SinPosicion(old(suscripciones), i))
      ensures forall f :: f in suscripciones <==> f in old(suscripciones) && f.id != id
    {
      var i := Indice(suscripciones, ConId(id));
      QuitarPorId(suscripciones, siguienteId, id);
      if i < 0 {
        r := Failure(NotFound);
      } else {
        suscripciones := SinPosicion(suscripciones, i);
        r := Success(());
      }
    }

    /** `toggleActivoSuscripcion`: NotFound for an unknown identity;
        otherwise only that plan changes, with `activo` negated and a new
        modification time; the response is the entity before the update hook,
        with only `activo` negated. */
    method AlternarActivo(id: int, ahora: int) returns (r: Result<Fila>)
      requires Valid()
      modifies this`suscripciones
      ensures Valid()
      ensures var i := Indice(old(suscripciones), ConId(id));
        && (i < 0 ==> r == Failure(NotFound) && suscripciones == old(suscripciones))
        && (0 <= i ==> suscripciones == old(suscripciones)[i := Alternada(old(suscripciones)[i], ahora)]
                       && r == Success(old(suscripciones)[i].(activo := !old(suscripciones)[i].activo)))
    {
      var i := Indice(suscripciones, ConId(id));
      if i < 0 {
        r := Failure(NotFound);
      } else {
        var respuesta, g := ConActivoAlternado(suscripciones[i], ahora);
        TablaConCambio(suscripciones, siguienteId, i, g, None);
        suscripciones := suscripciones[i := g];
        r := Success(respuesta);
      }
    }
  }

  /** Appending a coherent plan under the next identity, with a name no
      plan holds, keeps the table valid. */
  lemma TablaConAlta(t: seq<Fila>, siguiente: int, f: Fila)
    requires Tabla(t, siguiente) && f.id == siguiente && Coherente(f)
    requires !Existe(t, MismoNombre(f.nombre))
    ensures Tabla(t + [f], siguiente + 1)
  {
    var u := t + [f];
    forall i, j | 0 <= i < j < |u| ensures !IgualSinMayusculas(u[i].nombre, u[j].nombre) {
      if j == |t| {
        assert !MismoNombre(f.nombre)(t[i]);
      }
    }
  }

  /** Replacing row `i` by a coherent row with the same identity keeps the
      table valid when the name is kept, or is a name no other plan holds. */
  lemma TablaConCambio(t: seq<Fila>, siguiente: int, i: int, g: Fila, nombre: Option<string>)
    requires Tabla(t, siguiente) && 0 <= i < |t| && g.id == t[i].id && Coherente(g)
    requires g.nombre == if TieneTexto(nombre) then nombre.value else t[i].nombre
    requires TieneTexto(nombre) ==> !Existe(t, OtroConNombre(nombre.value, t[i].id))
    ensures Tabla(t[i := g], siguiente)
  {
    var u := t[i := g];
    forall a, b | 0 <= a < b < |u| ensures !IgualSinMayusculas(u[a].nombre, u[b].nombre) {
      if TieneTexto(nombre) && (a == i || b == i) {
        var k := if a == i then b else a;
        assert t[k].id != t[i].id;
        assert !OtroConNombre(nombre.value, t[i].id)(t[k]);
      }
    }
  }

  /** Removing a row keeps the table valid and keeps exactly the rows with
      another identity. */
  lemma TablaSinPosicion(t: seq<Fila>, siguiente: int, i: int)
    requires Tabla(t, siguiente) && 0 <= i < |t|
    ensures Tabla(SinPosicion(t, i), siguiente)
    ensures forall f :: f in SinPosicion(t, i) <==> f in t && f.id != t[i].id
  {
    SinPosicionClaves(t, i, (f: Fila) => f.id);
    var u := SinPosicion(t, i);
    forall a, b | 0 <= a < b < |u| ensures !IgualSinMayusculas(u[a].nombre, u[b].nombre) {
      var a' := if a < i then a else a + 1;
      var b' := if b < i then b else b + 1;
      assert u[a] == t[a'] && u[b] == t[b'];
    }
  }

  /** Deleting by identity: without a row of that identity nothing holds
      it; otherwise removing its row keeps the table valid and keeps exactly
      the rows with another identity. */
  lemma QuitarPorId(t: seq<Fila>, siguiente: int, id: int)
    requires Tabla(t, siguiente)
    ensures Indice(t, ConId(id)) < 0 ==> forall f :: f in t ==> f.id != id
    ensures 0 <= Indice(t, ConId(id)) ==>
      && Tabla(SinPosicion(t, Indice(t, ConId(id))), siguiente)
      && forall f :: f in SinPosicion(t, Indice(t, ConId(id))) <==> f in t && f.id != id
  {
    var i := Indice(t, ConId(id));
    if i < 0 {
      forall f | f in t ensures f.id != id {
        var k :| 0 <= k < |t| && t[k] == f;
        assert !ConId(id)(t[k]);
      }
    } else {
      assert ConId(id)(t[i]);
      TablaSinPosicion(t, siguiente, i);
    }
  }
}
