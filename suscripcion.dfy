/** The `Suscripcion` entity (a subscription plan): its columns, its field
    defaults, the final-price rule, the JPA lifecycle hooks that apply it and
    the two-decimal scale of the stored final price. Prices are exact
    decimals, modelled as `real`; times are whole seconds. */
module Suscripciones {
  import opened Comun
  import opened Redondeo

  /** A stored row of `suscripciones`: the non-null columns are plain values,
      the nullable ones are `Option`s. */
  datatype Fila = Fila(
    id: int,
    nombre: string,
    descripcion: Option<string>,
    precioOriginal: real,
    porcentajeDescuento: Option<real>,
    precioFinal: real,
    duracionDias: int,
    numeroSolicitudesIncluidas: Option<int>,
    soportePrioritario: Option<bool>,
    destacado: Option<bool>,
    activo: bool,
    ordenVisualizacion: Option<int>,
    colorHexadecimal: Option<string>,
    icono: Option<string>,
    fechaCreacion: int,
    fechaModificacion: Option<int>,
    creadoPor: Option<string>,
    modificadoPor: Option<string>)

  /** A percentage that counts as a discount: present and above zero. */
  predicate HayDescuento(porcentaje: Option<real>)
  {
    porcentaje.Some? && porcentaje.value > 0.0
  }

  /** The price `calcularPrecioFinal` gives a plan of original price
      `original`: the original price less `porcentaje` percent of it when
      there is a discount, the original price otherwise. */
  function PrecioFinal(original: real, porcentaje: Option<real>): (p: real)
    ensures !HayDescuento(porcentaje) ==> p == original
    ensures HayDescuento(porcentaje) ==> p == original * (100.0 - porcentaje.value) / 100.0
  {
    if HayDescuento(porcentaje) then original - original * porcentaje.value / 100.0
    else original
  }

  /** With a percentage between 0 and 100 and a non-negative original price,
      the final price lies between 0 and the original price; a full discount
      makes it 0. */
  lemma PrecioFinalAcotado(original: real, porcentaje: Option<real>)
    requires original >= 0.0
    requires porcentaje.Some? ==> 0.0 <= porcentaje.value <= 100.0
    ensures 0.0 <= PrecioFinal(original, porcentaje) <= original
    ensures porcentaje == Some(100.0) ==> PrecioFinal(original, porcentaje) == 0.0
  {
    if HayDescuento(porcentaje) {
      var d := porcentaje.value;
      assert 0.0 <= original * (100.0 - d) by {
        assert 100.0 - d >= 0.0;
      }
      assert original * (100.0 - d) <= original * 100.0 by {
        assert original * d >= 0.0;
      }
    }
  }

  /** A larger discount never gives a higher price. */
  lemma PrecioFinalMonotono(original: real, menor: real, mayor: real)
    requires original >= 0.0 && 0.0 <= menor <= mayor
    ensures PrecioFinal(original, Some(mayor)) <= PrecioFinal(original, Some(menor))
  {
    assert original * menor <= original * mayor by {
      assert original * (mayor - menor) >= 0.0;
    }
  }

  /** The row as the table keeps it: `precio_final` is a DECIMAL(10,2)
      column, so the final price is stored rounded to two decimals, halves
      away from zero; every other column is kept as given. */
  function Almacenada(f: Fila): (g: Fila)
    ensures DosDecimales(g.precioFinal)
    ensures f.precioFinal - 0.005 <= g.precioFinal <= f.precioFinal + 0.005
    ensures g.(precioFinal := f.precioFinal) == f
  {
    f.(precioFinal := RedondearDosDecimales(f.precioFinal))
  }

  /** A final price that already has two decimals is stored as it is, so
      storing a stored row again changes nothing. */
  lemma AlmacenadaConserva(f: Fila)
    ensures DosDecimales(f.precioFinal) ==> Almacenada(f) == f
    ensures Almacenada(Almacenada(f)) == Almacenada(f)
  {
    RedondearConserva(RedondearDosDecimales(f.precioFinal));
    if DosDecimales(f.precioFinal) {
      RedondearConserva(f.precioFinal);
    }
  }

  /** The entity object; every Java field may be null until it is set. */
  class Suscripcion {
    var id: Option<int>
    var nombre: Option<string>
    var descripcion: Option<string>
    var precioOriginal: Option<real>
    var porcentajeDescuento: Option<real>
    var precioFinal: Option<real>
    var duracionDias: Option<int>
    var numeroSolicitudesIncluidas: Option<int>
    var soportePrioritario: Option<bool>
    var destacado: Option<bool>
    var activo: Option<bool>
    var ordenVisualizacion: Option<int>
    var colorHexadecimal: Option<string>
    var icono: Option<string>
    var fechaCreacion: Option<int>
    var fechaModificacion: Option<int>
    var creadoPor: Option<string>
    var modificadoPor: Option<string>

    /** `new Suscripcion()`: no priority support, not featured, active. */
    constructor ()
      ensures soportePrioritario == Some(false) && destacado == Some(false) && activo == Some(true)
      ensures id.None? && nombre.None? && descripcion.None? && precioOriginal.None?
      ensures porcentajeDescuento.None? && precioFinal.None? && duracionDias.None?
      ensures numeroSolicitudesIncluidas.None? && ordenVisualizacion.None?
      ensures colorHexadecimal.None? && icono.None? && fechaCreacion.None?
      ensures fechaModificacion.None? && creadoPor.None? && modificadoPor.None?
    {
      id := None;
      nombre := None;
      descripcion := None;
      precioOriginal := None;
      porcentajeDescuento := None;
      precioFinal := None;
      duracionDias := None;
      numeroSolicitudesIncluidas := None;
      soportePrioritario := Some(false);
      destacado := Some(false);
      activo := Some(true);
      ordenVisualizacion := None;
      colorHexadecimal := None;
      icono := None;
      fechaCreacion := None;
      fechaModificacion := None;
      creadoPor := None;
      modificadoPor := None;
    }

    /** The managed object of a stored row. */
    constructor Cargar(f: Fila)
      ensures Persistible() && ComoFila(f.id) == f
      ensures id == Some(f.id)
    {
      id := Some(f.id);
      nombre := Some(f.nombre);
      descripcion := f.descripcion;
      precioOriginal := Some(f.precioOriginal);
      porcentajeDescuento := f.porcentajeDescuento;
      precioFinal := Some(f.precioFinal);
      duracionDias := Some(f.duracionDias);
      numeroSolicitudesIncluidas := f.numeroSolicitudesIncluidas;
      soportePrioritario := f.soportePrioritario;
      destacado := f.destacado;
      activo := Some(f.activo);
      ordenVisualizacion := f.ordenVisualizacion;
      colorHexadecimal := f.colorHexadecimal;
      icono := f.icono;
      fechaCreacion := Some(f.fechaCreacion);
      fechaModificacion := f.fechaModificacion;
      creadoPor := f.creadoPor;
      modificadoPor := f.modificadoPor;
    }

    /** Every `nullable = false` column holds a value. */
    predicate Persistible()
      reads this
    {
      nombre.Some? && precioOriginal.Some? && precioFinal.Some? && duracionDias.Some?
        && activo.Some? && fechaCreacion.Some?
    }

    /** The row the object is written as, under the given identity. */
    function ComoFila(nuevoId: int): Fila
      reads this
      requires Persistible()
    {
      Fila(nuevoId, nombre.value, descripcion, precioOriginal.value, porcentajeDescuento,
           precioFinal.value, duracionDias.value, numeroSolicitudesIncluidas,
           soportePrioritario, destacado, activo.value, ordenVisualizacion,
           colorHexadecimal, icono, fechaCreacion.value, fechaModificacion,
           creadoPor, modificadoPor)
    }

    /** `calcularPrecioFinal`: with an original price the final price becomes
        `PrecioFinal` of it; without one the final price is left as it is. */
    method CalcularPrecioFinal()
      modifies this`precioFinal
      ensures precioOriginal.Some? ==> precioFinal == Some(PrecioFinal(precioOriginal.value, porcentajeDescuento))
      ensures precioOriginal.None? ==> precioFinal == old(precioFinal)
    {
      if precioOriginal.Some? {
        if porcentajeDescuento.Some? && porcentajeDescuento.value > 0.0 {
          var descuento := precioOriginal.value * porcentajeDescuento.value / 100.0;
          precioFinal := Some(precioOriginal.value - descuento);
          assert precioFinal.value == PrecioFinal(precioOriginal.value, porcentajeDescuento);
        } else {
          precioFinal := precioOriginal;
        }
      }
    }

    /** `@PrePersist`: stamps creation and modification time, makes a missing
        `activo`, `soportePrioritario` or `destacado` true, false and false,
        and computes the final price. */
    method OnCreate(ahora: int)
      modifies this`fechaCreacion, this`fechaModificacion, this`activo
      modifies this`soportePrioritario, this`destacado, this`precioFinal
      ensures fechaCreacion == Some(ahora) && fechaModificacion == Some(ahora)
      ensures activo == if old(activo).None? then Some(true) else old(activo)
      ensures soportePrioritario == if old(soportePrioritario).None? then Some(false) else old(soportePrioritario)
      ensures destacado == if old(destacado).None? then Some(false) else old(destacado)
      ensures precioOriginal.Some? ==> precioFinal == Some(PrecioFinal(precioOriginal.value, porcentajeDescuento))
      ensures precioOriginal.None? ==> precioFinal == old(precioFinal)
    {
      fechaCreacion := Some(ahora);
      fechaModificacion := Some(ahora);
      if activo.None? {
        activo := Some(true);
      }
      if soportePrioritario.None? {
        soportePrioritario := Some(false);
      }
      if destacado.None? {
        destacado := Some(false);
      }
      CalcularPrecioFinal();
    }

    /** `@PreUpdate`: refreshes the modification time and recomputes the
        final price. */
    method OnUpdate(ahora: int)
      modifies this`fechaModificacion, this`precioFinal
      ensures fechaModificacion == Some(ahora)
      ensures precioOriginal.Some? ==> precioFinal == Some(PrecioFinal(precioOriginal.value, porcentajeDescuento))
      ensures precioOriginal.None? ==> precioFinal == old(precioFinal)
    {
      fechaModificacion := Some(ahora);
      CalcularPrecioFinal();
    }
  }
}
