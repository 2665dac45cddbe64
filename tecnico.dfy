/** The `Tecnico` entity as the provider listing reads it: a technician
    offers one subcategory, may belong to a company, and carries the counters
    and optional details its listing shows. */
module Tecnicos {
  import opened Comun

  /** A stored row of `tecnicos`. `nombreUsuario` and `emailUsuario` are read
      through the technician's user (a non-null join column); the rating,
      the verification flag and the audit columns are not modelled.
      `totalResenas` and `totalTrabajosCompletados` are `Integer` fields the
      code reads as nullable. Prices carry two decimals (`scale = 2`). */
  datatype Fila = Fila(
    id: int,
    nombreUsuario: string,
    emailUsuario: string,
    descripcionProfesional: Option<string>,
    totalResenas: Option<int>,
    totalTrabajosCompletados: Option<int>,
    precioBaseHora: Option<real>,
    disponible: bool,
    certificados: Option<string>,
    anosExperiencia: Option<int>,
    radioCobertura: Option<int>,
    activo: bool,
    empresaId: Option<int>,
    subcategoriaId: int)
}
