/** Which technicians and companies take part in a subcategory's listing. */
module Criterios {
  import opened Comun
  import T = Tecnicos
  import E = Empresas

  // ---------------------------------------------------------------------------
  // Which technicians count

  /** A technician that can take work in the subcategory: it offers it and
      is active and available. */
  predicate Califica(t: T.Fila, subcategoriaId: int)
  {
    t.subcategoriaId == subcategoriaId && t.activo && t.disponible
  }

  function CalificaEn(subcategoriaId: int): T.Fila -> bool
  {
    (t: T.Fila) => Califica(t, subcategoriaId)
  }

  /** A qualifying technician that states an hourly price. */
  predicate Cotiza(t: T.Fila, subcategoriaId: int)
  {
    Califica(t, subcategoriaId) && t.precioBaseHora.Some?
  }

  function CotizaEn(subcategoriaId: int): T.Fila -> bool
  {
    (t: T.Fila) => Cotiza(t, subcategoriaId)
  }

  /** A technician whose reviews count for its company: it offers the
      subcategory and is active, available or not. */
  predicate Resenable(t: T.Fila, subcategoriaId: int)
  {
    t.subcategoriaId == subcategoriaId && t.activo
  }

  /** An independent technician listed for the subcategory: it offers it,
      belongs to no company and is available; `activo` is not looked at. */
  predicate Independiente(t: T.Fila, subcategoriaId: int)
  {
    t.subcategoriaId == subcategoriaId && t.empresaId.None? && t.disponible
  }

  function IndependienteEn(subcategoriaId: int): T.Fila -> bool
  {
    (t: T.Fila) => Independiente(t, subcategoriaId)
  }

  /** `findBySubcategoriaId`. */
  function EnSubcategoria(subcategoriaId: int): T.Fila -> bool
  {
    (t: T.Fila) => t.subcategoriaId == subcategoriaId
  }

  function DeLaEmpresa(empresaId: int): T.Fila -> bool
  {
    (t: T.Fila) => t.empresaId == Some(empresaId)
  }

  /** `empresa.getTecnicos()`: the technicians whose company is `empresaId`. */
  function TecnicosDe(tecnicos: seq<T.Fila>, empresaId: int): seq<T.Fila>
  {
    Filtrar(tecnicos, DeLaEmpresa(empresaId))
  }

  /** A company listed for the subcategory: it is active and one of its
      technicians qualifies. */
  predicate Ofrece(e: E.Fila, tecnicos: seq<T.Fila>, subcategoriaId: int)
  {
    e.activo && Existe(TecnicosDe(tecnicos, e.id), CalificaEn(subcategoriaId))
  }

  function OfreceEn(tecnicos: seq<T.Fila>, subcategoriaId: int): E.Fila -> bool
  {
    (e: E.Fila) => Ofrece(e, tecnicos, subcategoriaId)
  }

  function EsActiva(): E.Fila -> bool
  {
    (e: E.Fila) => e.activo
  }
}
