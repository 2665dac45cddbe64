# ServicioAgil service core in Dafny

ServicioAgil is the back end of a marketplace for home-service technicians.
This project models its service layer and proves properties of it.

- **Emergency dispatch** (`EmergenciaService`). A client's emergency becomes
  a request that is PENDIENTE, URGENTE and has no technician. The service
  asks a proximity query for technicians around the client, first within
  5 km. While nothing is found, it widens the radius by 2 km as long as the
  radius is below 50 km, so the last radius tried is 51 km. A non-empty
  round stores one PENDIENTE offer per technician it can resolve, ranked
  1, 2, … with no gaps, each expiring 90 seconds after it is sent.
  - An acceptance assigns the request to the offer's technician and cancels
    the request's other pending offers.
  - A rejection starts a new round at 7 km, but only when no live offer
    remains.
  - A periodic sweep moves expired offers to TIMEOUT and applies the same
    check.
- **Catalogue.** Categories and subcategories are created, updated,
  soft-deleted and reordered. They are searched through the repositories'
  JPQL queries.
- **Subscription plans.** Plans compute their final price from a discount
  percentage. They are listed, created, partially updated, deleted and
  toggled.
- **Provider listing.** For a subcategory, the service lists the
  independent technicians and then the companies. Each company entry
  carries an average price rounded half-up to two decimals and a review
  total.
- **Companies and users.** These have uniqueness checks (one company per
  user, unique tax numbers, unique e-mails), partial updates and
  deletes. Companies are deleted softly and users for good.

## How the model is built

- **Tables.** Each table is a sequence of rows held in a field of its
  service class. Mutating methods carry `modifies` clauses. Their `ensures`
  give the new table in terms of specification functions: `Despacho`,
  `CategoriaServicio.Actualizada` and so on. Lemmas state what those
  functions promise.
- **Identities.** Tables that are never hard-deleted use identities equal
  to position + 1. The subscription and user tables are hard-deleted, so
  they keep increasing identities and a next-identity counter.
- **Entities with lifecycle hooks.** `EmergenciaNotificacion`, `Solicitud`
  and `Suscripcion` are classes with nullable fields. Their `@PrePersist`
  and `@PreUpdate` hooks are methods.
- **Inputs from the environment.** The current time is an integer
  parameter `ahora`, in seconds. The proximity query is a read-only
  function in the service's `entorno`. Prices are exact decimals, modelled
  as `real`, as `BigDecimal` computes them. The one rounding the database
  applies that a property depends on is modelled: a subscription's final
  price is stored with the two decimals of its column.
- **Errors.** They are `Result` failures: NotFound, Business, Arithmetic
  and Constraint. A failed transactional call writes nothing.

## Model

| member | source | states |
|---|---|---|
| Comun.Minusculas | src/main/java/com/servicioagil/repository/CategoriaRepository.java:54 | `LOWER` keeps the length and lower-cases each ASCII capital, leaving every other character as it is |
| Comun.EspaciosUnicode | src/main/java/com/servicioagil/service/CategoriaService.java:161-168 | blankness follows `Character.isWhitespace`: the Unicode space, line and paragraph separators count as blank and the non-breaking spaces U+00A0, U+2007 and U+202F do not, so any name holding a non-breaking space has text |
| Comun.ContieneSiOcurre | src/main/java/com/servicioagil/repository/CategoriaRepository.java:41-44 | `LIKE '%term%'` holds if and only if the term occurs in the column as a contiguous block, at some position |
| Comun.MaximoOCero | src/main/java/com/servicioagil/repository/CategoriaRepository.java:61-62 | `COALESCE(MAX(col), 0)`: at least every value present and equal to one of them, or 0 when no row has a value |
| Comun.ContarComplemento | src/main/java/com/servicioagil/repository/UsuarioRepository.java:35-39 | the rows counted by a condition and by its negation add up to the whole table |
| Comun.SinPosicionClaves | src/main/java/com/servicioagil/service/UsuarioService.java:144 | a hard delete of one row, in a table whose identities increase, leaves exactly the rows with another identity, still increasing |
| Comun.PosicionYNombreTotal | src/main/java/com/servicioagil/repository/SubcategoriaRepository.java:114 | `ORDER BY ordenVisualizacion ASC, nombre ASC`, a NULL position last, compares any two rows |
| Comun.PosicionYNombreTransitivo | src/main/java/com/servicioagil/repository/SubcategoriaRepository.java:114 | that order is transitive |
| Comun.Ordenar | src/main/java/com/servicioagil/repository/CategoriaRepository.java:25 | a sorted listing has the same rows, with the same multiplicities |
| Comun.OrdenarOrdena | src/main/java/com/servicioagil/repository/CategoriaRepository.java:25 | under a total, transitive order, the listing is sorted |
| Despacho.TituloEmergencia | src/main/java/com/servicioagil/service/EmergenciaService.java:68 | the title is the prefix `EMERGENCIA: ` followed by the subcategory name, and nothing else |
| Despacho.SondeosAcotados | src/main/java/com/servicioagil/service/EmergenciaService.java:90-111 | from an odd radius of at most 51 the widening search probes r, r+2, r+4, … and never goes past 51 km; every probe but the last returned nothing, the result is the last probe's answer, and an empty result means the last probe was at 51 km or more |
| Despacho.BusquedaInicial | src/main/java/com/servicioagil/service/EmergenciaService.java:44-47 | the first search of an emergency, from 5 km, makes at most 24 probes, all between 5 and 51 km |
| Despacho.BusquedaReasignacion | src/main/java/com/servicioagil/service/EmergenciaService.java:209-211 | a reassignment search, which restarts at 7 km, makes at most 23 probes |
| Despacho.Resolubles | src/main/java/com/servicioagil/service/EmergenciaService.java:114-118 | the candidates kept are exactly those whose technician the lookup by id finds, in the answer's order |
| Despacho.LoteExtiende | src/main/java/com/servicioagil/service/EmergenciaService.java:114-134 | one more resolvable candidate adds exactly one row to a round, the one with the next rank and the next id |
| Despacho.LoteOfertas | src/main/java/com/servicioagil/service/EmergenciaService.java:113-134 | the offers of a round have ranks 1, 2, …, k with no gaps (a skipped candidate does not use up a rank); their ids continue the table; each is PENDIENTE, goes to a resolvable technician, is due 90 seconds after it is sent and records the distance in metres |
| Despacho.LoteCubre | src/main/java/com/servicioagil/service/EmergenciaService.java:114-134 | every candidate whose technician resolves gets an offer in the round |
| Despacho.Marcar | src/main/java/com/servicioagil/service/EmergenciaService.java:225-231 | the table the cancel and expiry loops build up, with the marked rows moved to the given state; it keeps the table's length (how it relates to the loops is proved in `MarcarUno`, `CancelacionPorMarcas` and `VencimientoPorMarcas`) |
| Despacho.MarcarUno | src/main/java/com/servicioagil/service/EmergenciaService.java:225-231 | marking one more id is a single update of that row, and marking a row twice changes nothing more |
| Despacho.NoContactados | src/main/java/com/servicioagil/service/EmergenciaService.java:197-203 | the offers kept are exactly the request's offers that are still PENDIENTE and due strictly after now |
| Despacho.Reasignacion | src/main/java/com/servicioagil/service/EmergenciaService.java:192-215 | every row a reassignment appends belongs to the request, continues the table's ids, is ranked 1, 2, … afresh and is live (when it appends anything is proved in `ReasignacionCuando`) |
| Despacho.ReasignacionCuando | src/main/java/com/servicioagil/service/EmergenciaService.java:205-214 | a reassignment writes offers if and only if no offer of the request is live, the requester has both coordinates and the 7 km search finds a resolvable technician |
| Despacho.ConOfertaVivaExiste | src/main/java/com/servicioagil/service/EmergenciaService.java:200-205 | the check for a live offer of the request holds if and only if some offer of the request in the table is live |
| Despacho.ConOfertaVivaEsNoContactados | src/main/java/com/servicioagil/service/EmergenciaService.java:200-205 | the check for a live offer holds if and only if the uncontacted list of `buscarSiguienteTecnico` is non-empty |
| Despacho.SolicitudDe | src/main/java/com/servicioagil/service/EmergenciaService.java:251 | the request an offer points at is found if and only if its id is in the table, and it is the row at id - 1 |
| Despacho.ReasignacionDe | src/main/java/com/servicioagil/service/EmergenciaService.java:251 | the reassignment for a request that may be missing appends only live offers |
| Despacho.Caducidad | src/main/java/com/servicioagil/service/EmergenciaService.java:245-251 | the table after one sweep step, TIMEOUT on the expired offer then the reassignment for its request, is never shorter than before |
| Despacho.SinVivas | src/main/java/com/servicioagil/service/EmergenciaService.java:197-205 | a request none of whose offers is live has no uncontacted offer, so the reassignment search runs |
| Despacho.ReasignacionRepiteTecnico | src/main/java/com/servicioagil/service/EmergenciaService.java:192-215 | nothing keeps out a technician who already had an offer for the request: a second offer to the same technician for the same request gets written |
| Despacho.Cancelacion | src/main/java/com/servicioagil/service/EmergenciaService.java:221-234 | the table after the withdrawal keeps its length (which rows change is proved in `CancelacionMarco`) |
| Despacho.CancelacionMarco | src/main/java/com/servicioagil/service/EmergenciaService.java:221-234 | only rows that the by-request-and-state query returns for PENDIENTE, minus the accepted one, change; offers of other requests and offers in other states stay as they were |
| Despacho.CancelacionPorMarcas | src/main/java/com/servicioagil/service/EmergenciaService.java:225-231 | marking exactly the offers to withdraw gives the cancellation |
| Despacho.ApuntarPendiente | src/main/java/com/servicioagil/service/EmergenciaService.java:225-231 | the i-th row the pending-offer query returned is table row id-1, and recording its id (unless it is the accepted offer) keeps the loop's record of marked rows exact |
| Despacho.MarcasDePendientes | src/main/java/com/servicioagil/service/EmergenciaService.java:221-234 | marking the id of every row the pending query returned except the accepted one, and nothing else, is the cancellation |
| Despacho.Aceptacion | src/main/java/com/servicioagil/service/EmergenciaService.java:152-168 | the table after an acceptance keeps its length (its content is proved in `AceptacionSinPendientes`) |
| Despacho.AceptacionSinPendientes | src/main/java/com/servicioagil/service/EmergenciaService.java:152-168 | after an acceptance, the accepted offer is ACEPTADA; no offer of that request is still PENDIENTE; offers of other requests are untouched |
| Despacho.Rechazo | src/main/java/com/servicioagil/service/EmergenciaService.java:170-178 | the table after a rejection only grows (its content is proved in `RechazoMarco`) |
| Despacho.RechazoMarco | src/main/java/com/servicioagil/service/EmergenciaService.java:170-178 | among existing rows a rejection changes only the rejected offer, which becomes RECHAZADA; it appends only live offers of the same request |
| Despacho.Vencimiento | src/main/java/com/servicioagil/service/EmergenciaService.java:240-253 | the table after the sweep keeps its length (which rows change is proved in `VencimientoExacto`) |
| Despacho.VencimientoPorMarcas | src/main/java/com/servicioagil/service/EmergenciaService.java:244-254 | marking exactly the expired pending offers gives the expiry |
| Despacho.MarcasDeVencidas | src/main/java/com/servicioagil/service/EmergenciaService.java:240-255 | marking the id of every row the expired-offer query returned, and nothing else, is the expiry |
| Despacho.VencimientoExacto | src/main/java/com/servicioagil/service/EmergenciaService.java:240-255 | the sweep changes exactly the rows the expired-offer query returns; afterwards, even with live offers appended, that query returns nothing, so a second sweep at the same instant finds nothing |
| Despacho.PasoDeVencimiento | src/main/java/com/servicioagil/service/EmergenciaService.java:244-254 | one sweep step changes one row among the old rows, and every row appended from then on is live |
| Barridos.ReasignarPorEn | src/main/java/com/servicioagil/service/EmergenciaService.java:251 | for an offer whose request and requester exist, the check the sweep runs is `Reasignacion` for that request, on every table |
| Barridos.ReasignarPorVivas | src/main/java/com/servicioagil/service/EmergenciaService.java:251 | the reassignment check the sweep runs only appends live offers |
| Barridos.PasoDeBarrido | src/main/java/com/servicioagil/service/EmergenciaService.java:244-252 | one step of the sweep never shortens the table |
| Barridos.Barrido | src/main/java/com/servicioagil/service/EmergenciaService.java:244-252 | the sweep over the first n expired offers never shortens the table |
| Barridos.IdsHastaExactos | src/main/java/com/servicioagil/service/EmergenciaService.java:244 | the ids collected from the first n expired offers are exactly theirs |
| Barridos.BarridoMarca | src/main/java/com/servicioagil/service/EmergenciaService.java:244-252 | after the first n steps, each on the table the steps before left, the old rows are exactly the old table with those n offers marked TIMEOUT, and every appended row is live |
| Barridos.BarridoVence | src/main/java/com/servicioagil/service/EmergenciaService.java:240-253 | the whole sweep leaves the old rows as `Vencimiento` says, appends only live offers and leaves no expired pending offer |
| Despacho.FronteraDelPlazo | src/main/java/com/servicioagil/repository/EmergenciaNotificacionRepository.java:21 | a pending offer whose deadline is exactly now is neither live (which needs `isAfter`) nor expired (which needs `<`) |
| Despacho.ConstruirRespuesta | src/main/java/com/servicioagil/service/EmergenciaService.java:276-322 | the response carries the request's id, state and assigned technician, and an offer is in it if and only if it is one of the request's offers |
| Despacho.RespuestaEnOrden | src/main/java/com/servicioagil/service/EmergenciaService.java:277-278 | the offers in a response come lowest contact rank first, each row of the request exactly once |
| Notificaciones.EmergenciaNotificacion.constructor | src/main/java/com/servicioagil/entity/EmergenciaNotificacion.java:42-43 | a new offer object is PENDIENTE and every other field is unset |
| Notificaciones.EmergenciaNotificacion.Cargar | src/main/java/com/servicioagil/entity/EmergenciaNotificacion.java:27-64 | loading a stored row gives an object that is written back as the same row |
| Notificaciones.EmergenciaNotificacion.OnCreate | src/main/java/com/servicioagil/entity/EmergenciaNotificacion.java:66-78 | stamps creation, modification and send time; makes a missing state PENDIENTE and a missing deadline now + 90 s; leaves every other field alone |
| Notificaciones.EmergenciaNotificacion.OnUpdate | src/main/java/com/servicioagil/entity/EmergenciaNotificacion.java:80-83 | refreshes the modification time and nothing else |
| NotificacionRepositorio.OrdenContactoTotal | src/main/java/com/servicioagil/repository/EmergenciaNotificacionRepository.java:17 | the ordering by contact rank, with NULL last, is total |
| NotificacionRepositorio.PorSolicitudOrdenadas | src/main/java/com/servicioagil/repository/EmergenciaNotificacionRepository.java:17 | an offer is in the answer if and only if it belongs to the request |
| NotificacionRepositorio.PorSolicitudEnOrden | src/main/java/com/servicioagil/repository/EmergenciaNotificacionRepository.java:17 | the answer is sorted by contact rank, NULL last, and is a permutation of the request's offers |
| NotificacionRepositorio.PorTecnicoYEstado | src/main/java/com/servicioagil/repository/EmergenciaNotificacionRepository.java:19 | a row is in the answer if and only if it is the technician's and in the given state |
| NotificacionRepositorio.Vencidas | src/main/java/com/servicioagil/repository/EmergenciaNotificacionRepository.java:21-25 | a row is in the answer if and only if it is in the given state and its deadline is strictly before `ahora` |
| NotificacionRepositorio.PorSolicitudYEstado | src/main/java/com/servicioagil/repository/EmergenciaNotificacionRepository.java:27 | a row is in the answer if and only if it belongs to the request and is in the given state |
| NotificacionRepositorio.VencidaEstricta | src/main/java/com/servicioagil/repository/EmergenciaNotificacionRepository.java:21 | a pending offer due exactly at `ahora` is not returned |
| NotificacionRepositorio.VaciaSiNinguna | src/main/java/com/servicioagil/repository/EmergenciaNotificacionRepository.java:21-25 | an empty answer means that no row of the table qualifies |
| Solicitudes.Solicitud.constructor | src/main/java/com/servicioagil/entity/Solicitud.java:61-75 | a new request object is PENDIENTE, NORMAL and not urgent, and has no technician |
| Solicitudes.Solicitud.Cargar | src/main/java/com/servicioagil/entity/Solicitud.java:32-111 | loading a stored row gives an object that is written back as the same row |
| Solicitudes.Solicitud.OnCreate | src/main/java/com/servicioagil/entity/Solicitud.java:113-127 | stamps creation and modification time; overwrites the request time whatever the caller set; fills a missing state, priority or urgency with PENDIENTE, NORMAL and false |
| Solicitudes.Solicitud.OnUpdate | src/main/java/com/servicioagil/entity/Solicitud.java:129-132 | refreshes the modification time and nothing else |
| Emergencias.NuevaOferta | src/main/java/com/servicioagil/service/EmergenciaService.java:121-130 | the saved offer row of a round is the round's specification row `Oferta` |
| Emergencias.BorradorSolicitud | src/main/java/com/servicioagil/service/EmergenciaService.java:65-75 | the request entity gets the requester, subcategory, title, description, address and notes, and is PENDIENTE, URGENTE, urgent and without a technician |
| Emergencias.NuevaSolicitud | src/main/java/com/servicioagil/service/EmergenciaService.java:65-77 | the saved request keeps URGENTE and urgent (the persist hook fills only missing values); the hook stamps the times |
| Emergencias.ConEstado | src/main/java/com/servicioagil/service/EmergenciaService.java:227-228 | a stored offer given a new state and saved is `CambiarEstado` of it |
| Emergencias.ConRespuesta | src/main/java/com/servicioagil/service/EmergenciaService.java:154-155 | a stored offer given an answer and saved is `Responder` of it |
| Emergencias.ConAsignacion | src/main/java/com/servicioagil/service/EmergenciaService.java:158-163 | a stored request assigned a technician and saved is `Asignar` of it |
| Emergencias.EmergenciaService.constructor | src/main/java/com/servicioagil/service/EmergenciaService.java:36-47 | the service starts from the given tables and environment |
| Emergencias.EmergenciaService.GuardarOferta | src/main/java/com/servicioagil/service/EmergenciaService.java:132 | a new offer is appended under the next id, and the invariant is kept |
| Emergencias.EmergenciaService.GuardarEstado | src/main/java/com/servicioagil/service/EmergenciaService.java:227-228 | the one offer is updated in place; nothing else changes |
| Emergencias.EmergenciaService.GuardarRespuesta | src/main/java/com/servicioagil/service/EmergenciaService.java:154-164 | the one offer records the answer in place; nothing else changes |
| Emergencias.EmergenciaService.GuardarAsignacion | src/main/java/com/servicioagil/service/EmergenciaService.java:158-163 | the one request is assigned in place; nothing else changes |
| Emergencias.EmergenciaService.GuardarSolicitud | src/main/java/com/servicioagil/service/EmergenciaService.java:64-77 | the emergency request, titled after its subcategory, is appended under the next id |
| Emergencias.EmergenciaService.CrearEmergencia | src/main/java/com/servicioagil/service/EmergenciaService.java:53-84 | an unknown user or subcategory gives NotFound and writes nothing; otherwise exactly one urgent PENDIENTE request without a technician is appended, followed by the offers of a search from 5 km, and the response describes that request |
| Emergencias.EmergenciaService.BuscarYNotificarTecnicos | src/main/java/com/servicioagil/service/EmergenciaService.java:90-137 | appends exactly the round `Lote` of the resolvable candidates of the first non-empty answer of the widening search (terminating by the radius bound), and nothing else |
| Emergencias.EmergenciaService.NotificarTecnicos | src/main/java/com/servicioagil/service/EmergenciaService.java:113-136 | the loop over a non-empty answer appends exactly the round of its resolvable candidates, ranks counted only for resolved ones |
| Emergencias.EmergenciaService.NotificarUno | src/main/java/com/servicioagil/service/EmergenciaService.java:114-130 | one pass of the loop takes the table from the round of the first i candidates to the round of the first i + 1, and the next rank counts only candidates whose technician resolved |
| Emergencias.EmergenciaService.ProcesarRespuestaTecnico | src/main/java/com/servicioagil/service/EmergenciaService.java:143-186 | an unknown offer gives NotFound and changes nothing; an acceptance assigns the offer's own technician to the request and is `Aceptacion`; a rejection leaves the requests alone and is `Rechazo`; the response is that of the offer's request |
| Emergencias.EmergenciaService.Contestar | src/main/java/com/servicioagil/service/EmergenciaService.java:151-185 | once the offer is found, acceptance and rejection end in the same states as above |
| Emergencias.EmergenciaService.AceptarOferta | src/main/java/com/servicioagil/service/EmergenciaService.java:152-168 | the request gets the offer's technician and becomes ASIGNADA; the offers become `Aceptacion` |
| Emergencias.EmergenciaService.RechazarOferta | src/main/java/com/servicioagil/service/EmergenciaService.java:170-178 | the requests are untouched; the offers become `Rechazo` |
| Emergencias.EmergenciaService.BuscarSiguienteTecnico | src/main/java/com/servicioagil/service/EmergenciaService.java:192-215 | appends exactly the reassignment rows, all of them live, and changes no existing row |
| Emergencias.EmergenciaService.CancelarOtrasNotificaciones | src/main/java/com/servicioagil/service/EmergenciaService.java:221-234 | the loop leaves the table equal to `Cancelacion` |
| Emergencias.EmergenciaService.CancelarUna | src/main/java/com/servicioagil/service/EmergenciaService.java:225-229 | one pass of the loop keeps the table equal to the pending offers marked so far as CANCELADA, every marked offer is one to withdraw, and the first i + 1 pending offers are now marked or are the accepted one |
| Emergencias.EmergenciaService.Vencer | src/main/java/com/servicioagil/service/EmergenciaService.java:244-252 | one iteration leaves the table as `Caducidad` says: that offer becomes TIMEOUT and exactly the offers `Reasignacion` sends for its request, on the table as just updated, are appended |
| Emergencias.EmergenciaService.VencerUna | src/main/java/com/servicioagil/service/EmergenciaService.java:244-252 | with any reassignment check that appends only live offers and agrees with `Reasignacion` on this offer's request, one iteration takes the table from `Barrido` after i steps to `Barrido` after i + 1 |
| Emergencias.EmergenciaService.VencerSiguiente | src/main/java/com/servicioagil/service/EmergenciaService.java:244-252 | iteration i of the loop takes the table from `Barrido` after i steps to `Barrido` after i + 1, with the dispatch rules' reassignment check |
| Emergencias.EmergenciaService.VerificarTimeouts | src/main/java/com/servicioagil/service/EmergenciaService.java:238-253 | the table ends as the fold `Barrido` of the expired offers, each step marking one offer TIMEOUT and appending what the reassignment check sends for its request; so the old rows end up exactly as `Vencimiento` says, every appended row is live, and no expired pending offer is left |
| Emergencias.EmergenciaService.ObtenerEstadoEmergencia | src/main/java/com/servicioagil/service/EmergenciaService.java:258-263 | succeeds if and only if the request exists, and then answers for that request |
| Emergencias.EmergenciaService.ObtenerNotificacionesPendientes | src/main/java/com/servicioagil/service/EmergenciaService.java:268-271 | a row is returned if and only if it is a PENDIENTE offer of that technician |
| Categorias.Buscar | src/main/java/com/servicioagil/service/CategoriaService.java:91-96 | `findById` succeeds if and only if some row has the id, and returns that row; otherwise it is NotFound |
| CategoriaRepositorio.OrdenYNombreTotal | src/main/java/com/servicioagil/repository/CategoriaRepository.java:25 | ordering by display position and then by name is a total preorder |
| CategoriaRepositorio.ActivasOrdenadas | src/main/java/com/servicioagil/repository/CategoriaRepository.java:25 | returns exactly the active rows, sorted by position and then by name |
| CategoriaRepositorio.PorTermino | src/main/java/com/servicioagil/repository/CategoriaRepository.java:41-47 | a row is returned if and only if its name or its description contains the term ignoring case and its `activo` equals the argument |
| CategoriaRepositorio.PorNombreActivas | src/main/java/com/servicioagil/repository/CategoriaRepository.java:31 | a row is returned if and only if it is active and its name contains the term ignoring case |
| CategoriaRepositorio.PorActivo | src/main/java/com/servicioagil/repository/CategoriaRepository.java:34 | a row is returned if and only if its `activo` equals the argument |
| CategoriaRepositorio.ContarSubcategoriasActivas | src/main/java/com/servicioagil/repository/CategoriaRepository.java:50-51 | the count is the number of active subcategories of the category, and it is 0 if and only if the category has none |
| CategoriaRepositorio.ExisteOtraConNombre | src/main/java/com/servicioagil/repository/CategoriaRepository.java:54-55 | true if and only if a row with a different id has the name, ignoring case |
| CategoriaRepositorio.ExisteConNombre | src/main/java/com/servicioagil/repository/CategoriaRepository.java:58 | true if and only if some row has the name, ignoring case |
| CategoriaRepositorio.MaxOrden | src/main/java/com/servicioagil/repository/CategoriaRepository.java:61-62 | an upper bound of every category's position that some category attains, active or not; 0 when no row has a position |
| CategoriaServicio.Creada | src/main/java/com/servicioagil/service/CategoriaService.java:137-143 | the stored category keeps the given name, state and author, and has no editor; it keeps a given position, and without one it is placed one past the largest |
| CategoriaServicio.Actualizada | src/main/java/com/servicioagil/service/CategoriaService.java:166-187 | the id and the author stay; the name and the editor change only to a value with text; the description, state, position, colour and icon change only when given |
| CategoriaServicio.ActualizadaSinCambiosEIdempotente | src/main/java/com/servicioagil/service/CategoriaService.java:166-187 | an update with every field absent or blank leaves the row as it was, and applying an update twice is the same as applying it once |
| CategoriaServicio.AplicarCambios | src/main/java/com/servicioagil/service/CategoriaService.java:166-187 | running the setter sequence gives `Actualizada` |
| CategoriaServicio.CambiarDatos | src/main/java/com/servicioagil/service/CategoriaService.java:167-175 | the name, description and state setters change only those three columns |
| CategoriaServicio.CambiarPresentacion | src/main/java/com/servicioagil/service/CategoriaService.java:176-187 | the position, colour, icon and editor setters change only those four columns |
| CategoriaServicio.NuevaCategoria | src/main/java/com/servicioagil/service/CategoriaService.java:137-145 | the mapped category is `Creada` under the next id, with the table's largest position |
| CategoriaServicio.Eliminada | src/main/java/com/servicioagil/service/CategoriaService.java:210-213 | the soft-deleted row is inactive, records the deleter only when the name has text, and is otherwise unchanged |
| CategoriaServicio.EliminadaIdempotente | src/main/java/com/servicioagil/service/CategoriaService.java:210-213 | deleting twice stores the same row as deleting once |
| CategoriaServicio.ReordenadasSoloOrden | src/main/java/com/servicioagil/service/CategoriaService.java:225-232 | a reorder changes nothing but positions |
| CategoriaServicio.ReordenadasUltimaGana | src/main/java/com/servicioagil/service/CategoriaService.java:225-232 | after a reorder, a listed row's position is one more than the last place its id occupies in the list, and an unlisted row keeps its own |
| CategoriaServicio.CategoriaService.constructor | src/main/java/com/servicioagil/service/CategoriaService.java:31-34 | the service starts with empty tables, which satisfy the invariant |
| CategoriaServicio.CategoriaService.Convertir | src/main/java/com/servicioagil/service/CategoriaService.java:240-248 | the view holds the category and the number of its active subcategories |
| CategoriaServicio.CategoriaService.Obtener | src/main/java/com/servicioagil/service/CategoriaService.java:40-59 | a name with text and a state search name or description with that state; a name alone searches the name among active rows; a state alone filters by it; with neither, every row is listed (membership stated as an if-and-only-if) |
| CategoriaServicio.CategoriaService.Activas | src/main/java/com/servicioagil/service/CategoriaService.java:65-71 | exactly the active categories, sorted by position and then by name |
| CategoriaServicio.CategoriaService.BuscarPorTermino | src/main/java/com/servicioagil/service/CategoriaService.java:77-86 | a category is returned if and only if its name or description contains the term ignoring case and its state is the given one, or active when none is given |
| CategoriaServicio.CategoriaService.PorId | src/main/java/com/servicioagil/service/CategoriaService.java:91-97 | succeeds if and only if the id is known, with that category; otherwise NotFound |
| CategoriaServicio.CategoriaService.ConSubcategorias | src/main/java/com/servicioagil/service/CategoriaService.java:103-124 | NotFound if and only if the id is unknown; otherwise the category with exactly its active subcategories, whose number is the view's total |
| CategoriaServicio.CategoriaService.Crear | src/main/java/com/servicioagil/service/CategoriaService.java:129-149 | a name already used, ignoring case and active or not, gives a business error and writes nothing; otherwise exactly `Creada` is appended under the next id |
| CategoriaServicio.CategoriaService.Actualizar | src/main/java/com/servicioagil/service/CategoriaService.java:154-193 | an unknown id gives NotFound; a name with text held by another category gives a business error; neither writes anything; otherwise only that row changes, to `Actualizada` |
| CategoriaServicio.CategoriaService.Eliminar | src/main/java/com/servicioagil/service/CategoriaService.java:198-217 | an unknown id gives NotFound; a category with an active subcategory gives a business error; neither writes anything; otherwise only that row changes, to `Eliminada` |
| CategoriaServicio.CategoriaService.Desactivar | src/main/java/com/servicioagil/service/CategoriaService.java:210-215 | for a stored category, only its row changes, to `Eliminada`: inactive, with the deleter recorded when the name has text; the tables stay valid |
| CategoriaServicio.CategoriaService.Reordenar | src/main/java/com/servicioagil/service/CategoriaService.java:222-235 | if every listed id is known the table becomes `Reordenadas`; otherwise NotFound and nothing is written, the call being one transaction |
| CategoriaServicio.RecorrerOrden | src/main/java/com/servicioagil/service/CategoriaService.java:225-232 | the loop stops at the first unknown id, having reordered exactly the ids before it (the table is `Reordenadas` of that prefix) |
| CategoriaServicio.TablasConAlta | src/main/java/com/servicioagil/service/CategoriaService.java:133-145 | appending under the next id a category whose name no category holds keeps the table invariant (positional ids, parents exist, names distinct ignoring case) |
| CategoriaServicio.TablasConCambio | src/main/java/com/servicioagil/service/CategoriaService.java:161-189 | replacing a row with one of the same id keeps the invariant when the name is kept or held by no other category |
| CategoriaServicio.TablasReordenadas | src/main/java/com/servicioagil/service/CategoriaService.java:225-232 | a reorder keeps the invariant |
| Subcategorias.Buscar | src/main/java/com/servicioagil/service/SubcategoriaService.java:115-120 | `findById` succeeds if and only if some row has the id, and returns that row; otherwise it is NotFound |
| SubcategoriaRepositorio.OrdenYNombreTotal | src/main/java/com/servicioagil/repository/SubcategoriaRepository.java:114 | ordering by display position and then by name is a total preorder |
| SubcategoriaRepositorio.ConFiltros | src/main/java/com/servicioagil/repository/SubcategoriaRepository.java:99-129 | a row is returned if and only if the `WHERE` clause accepts it, and the answer is sorted by position and then by name |
| SubcategoriaRepositorio.ConFiltrosSinArgumentos | src/main/java/com/servicioagil/repository/SubcategoriaRepository.java:99-114 | with no argument the query lists exactly the active rows; every row it lists is active, and within the radius when one is given |
| SubcategoriaRepositorio.SinArgumentoNoRestringe | src/main/java/com/servicioagil/repository/SubcategoriaRepository.java:100-112 | dropping an argument never removes a row from the answer |
| SubcategoriaRepositorio.ColumnaNulaExcluida | src/main/java/com/servicioagil/repository/SubcategoriaRepository.java:101 | a row whose column is NULL fails every non-null argument on that column |
| SubcategoriaRepositorio.PorTermino | src/main/java/com/servicioagil/repository/SubcategoriaRepository.java:49-55 | a row is returned if and only if its name or description contains the term ignoring case and its `activo` equals the argument |
| SubcategoriaRepositorio.PorTerminoYCategoria | src/main/java/com/servicioagil/repository/SubcategoriaRepository.java:58-65 | the same search, restricted to rows of the category |
| SubcategoriaRepositorio.SinDescripcionPorNombre | src/main/java/com/servicioagil/repository/SubcategoriaRepository.java:49-52 | a row without a description is found if and only if its name contains the term |
| SubcategoriaRepositorio.ExisteOtraConNombre | src/main/java/com/servicioagil/repository/SubcategoriaRepository.java:70-74 | true if and only if a row of the category with another id has the name, ignoring case |
| SubcategoriaRepositorio.ExisteConNombre | src/main/java/com/servicioagil/repository/SubcategoriaRepository.java:77 | true if and only if a row of the category has the name, ignoring case |
| SubcategoriaRepositorio.ExcluirseASiMisma | src/main/java/com/servicioagil/repository/SubcategoriaRepository.java:70-74 | for a row of the table the exclude-self check holds exactly when another row of its category shares its name |
| SubcategoriaRepositorio.MaxOrden | src/main/java/com/servicioagil/repository/SubcategoriaRepository.java:80-81 | an upper bound of the positions in the category that some row of the category attains, active or not; 0 when none of its rows has one |
| SubcategoriaRepositorio.MaxOrdenCategoriaVacia | src/main/java/com/servicioagil/repository/SubcategoriaRepository.java:80-81 | in a category with no subcategory the first one created without a position is placed at 1 |
| SubcategoriaRepositorio.ActivasDeCategoria | src/main/java/com/servicioagil/repository/SubcategoriaRepository.java:25 | exactly the active rows of the category, sorted by position and then by name |
| SubcategoriaServicio.Creada | src/main/java/com/servicioagil/service/SubcategoriaService.java:144-151 | the stored subcategory keeps the given name, state, category, characteristics and author, and has no editor; it keeps a given position, and without one it is placed one past the largest in its category |
| SubcategoriaServicio.NuevaSubcategoria | src/main/java/com/servicioagil/service/SubcategoriaService.java:144-153 | the mapped subcategory is `Creada` under the next id, with its category's largest position |
| SubcategoriaServicio.Destino | src/main/java/com/servicioagil/service/SubcategoriaService.java:169-182 | the category an update's name check looks in is the named one when given, the current one otherwise |
| SubcategoriaServicio.Actualizada | src/main/java/com/servicioagil/service/SubcategoriaService.java:168-209 | the id, author and characteristics stay; the category becomes the target; the name and editor change only to a value with text; the description, state, position, colour and icon change only when given |
| SubcategoriaServicio.ActualizadaIgnoraCaracteristicas | src/main/java/com/servicioagil/service/SubcategoriaService.java:188-209 | the characteristic fields of an update make no difference, and applying an update twice is the same as applying it once |
| SubcategoriaServicio.AplicarCambios | src/main/java/com/servicioagil/service/SubcategoriaService.java:177-209 | running the setter sequence gives `Actualizada` |
| SubcategoriaServicio.CambiarUbicacion | src/main/java/com/servicioagil/service/SubcategoriaService.java:177-197 | the category, name, description and state setters change only those columns |
| SubcategoriaServicio.CambiarPresentacion | src/main/java/com/servicioagil/service/SubcategoriaService.java:198-209 | the position, colour, icon and editor setters change only those columns |
| SubcategoriaServicio.Eliminada | src/main/java/com/servicioagil/service/SubcategoriaService.java:228-231 | the soft-deleted row is inactive, records the deleter only when the name has text, and is otherwise unchanged |
| SubcategoriaServicio.EliminadaIdempotente | src/main/java/com/servicioagil/service/SubcategoriaService.java:228-231 | deleting twice stores the same row as deleting once |
| SubcategoriaServicio.ReordenadasSoloOrden | src/main/java/com/servicioagil/service/SubcategoriaService.java:248-260 | a reorder changes nothing but positions |
| SubcategoriaServicio.ReordenadasUltimaGana | src/main/java/com/servicioagil/service/SubcategoriaService.java:248-260 | after a reorder, a listed row's position is one more than the last place its id occupies, and an unlisted row keeps its own |
| SubcategoriaServicio.MoverSinNombreDuplica | src/main/java/com/servicioagil/service/SubcategoriaService.java:168-186 | a move that brings no name skips the name check, so it can leave two subcategories with the same name in one category |
| SubcategoriaServicio.SubcategoriaService.constructor | src/main/java/com/servicioagil/service/SubcategoriaService.java:32-36 | the service starts with empty tables, which satisfy the invariant |
| SubcategoriaServicio.SubcategoriaService.Convertir | src/main/java/com/servicioagil/service/SubcategoriaService.java:289-297 | the view holds the row and its category's name |
| SubcategoriaServicio.SubcategoriaService.Obtener | src/main/java/com/servicioagil/service/SubcategoriaService.java:42-69 | over all eight branches, a subcategory is returned if and only if it matches the category when one is given; with a name with text, it matches the name (and also the description when a state is given) in that state, or active when none is given; otherwise a category alone keeps active rows, and a state alone filters by it |
| SubcategoriaServicio.SubcategoriaService.ActivasPorCategoria | src/main/java/com/servicioagil/service/SubcategoriaService.java:76-88 | NotFound if and only if the category is unknown; otherwise exactly its active subcategories, sorted by position and then by name |
| SubcategoriaServicio.SubcategoriaService.Buscar | src/main/java/com/servicioagil/service/SubcategoriaService.java:94-110 | a subcategory is returned if and only if it is in the given category (if any), its state is the given one (active if none) and its name or description contains the term |
| SubcategoriaServicio.SubcategoriaService.PorId | src/main/java/com/servicioagil/service/SubcategoriaService.java:115-121 | succeeds if and only if the id is known, with that subcategory; otherwise NotFound |
| SubcategoriaServicio.SubcategoriaService.ConFiltros | src/main/java/com/servicioagil/service/SubcategoriaService.java:268-284 | exactly the rows the filters accept, all active, sorted by position and then by name |
| SubcategoriaServicio.SubcategoriaService.Crear | src/main/java/com/servicioagil/service/SubcategoriaService.java:128-157 | an unknown category gives NotFound; an inactive one, or a name already used in it ignoring case, gives a business error; none of these writes anything; otherwise exactly `Creada` is appended under the next id |
| SubcategoriaServicio.SubcategoriaService.Insertar | src/main/java/com/servicioagil/service/SubcategoriaService.java:128-153 | for an existing category, exactly `Creada` under the next id, placed after the highest position of its category when none is given, is appended; the response is that row with its category's name; the tables stay valid |
| SubcategoriaServicio.SubcategoriaService.Actualizar | src/main/java/com/servicioagil/service/SubcategoriaService.java:162-215 | an unknown id gives NotFound; a move to an unknown category gives NotFound and one to an inactive category a business error; a name with text held by another subcategory of the target category gives a business error; none of these writes anything; otherwise only that row changes, to `Actualizada` |
| SubcategoriaServicio.SubcategoriaService.Eliminar | src/main/java/com/servicioagil/service/SubcategoriaService.java:220-235 | an unknown id gives NotFound and writes nothing; otherwise only that row changes, to `Eliminada` (there is no active-children check) |
| SubcategoriaServicio.SubcategoriaService.Reordenar | src/main/java/com/servicioagil/service/SubcategoriaService.java:240-263 | an unknown category gives NotFound; if every listed id is a subcategory of the category the table becomes `Reordenadas`; otherwise the first offending id gives NotFound (unknown) or a business error (other category) and, the call being one transaction, nothing is written |
| SubcategoriaServicio.RecorrerOrden | src/main/java/com/servicioagil/service/SubcategoriaService.java:248-260 | the loop stops at the first id that is not a subcategory of the category, having reordered exactly the ids before it |
| SubcategoriaServicio.TablasConAlta | src/main/java/com/servicioagil/service/SubcategoriaService.java:144-153 | appending a row under the next id in an existing category keeps the invariant (positional ids, existing parents) |
| SubcategoriaServicio.TablasConCambio | src/main/java/com/servicioagil/service/SubcategoriaService.java:177-211 | replacing a row with one of the same id in an existing category keeps the invariant |
| SubcategoriaServicio.TablasReordenadas | src/main/java/com/servicioagil/service/SubcategoriaService.java:248-260 | a reorder keeps the invariant |
| Suscripciones.PrecioFinal | src/main/java/com/servicioagil/entity/Suscripcion.java:95-104 | without a discount above zero the final price is the original price; with one it is the original price times (100 - percentage) / 100 |
| Suscripciones.PrecioFinalAcotado | src/main/java/com/servicioagil/entity/Suscripcion.java:95-104 | for a non-negative price and a percentage between 0 and 100 the final price lies between 0 and the original price, and a 100 % discount makes it 0 |
| Suscripciones.PrecioFinalMonotono | src/main/java/com/servicioagil/entity/Suscripcion.java:97-99 | a larger discount never gives a higher final price |
| Suscripciones.Almacenada | src/main/java/com/servicioagil/entity/Suscripcion.java:34-35 | the row as the `precio_final` column (precision 10, scale 2) stores it: a final price with at most two decimals within half a hundredth of the computed one, every other field unchanged |
| Suscripciones.AlmacenadaConserva | src/main/java/com/servicioagil/entity/Suscripcion.java:34-35 | storing leaves a price that already has two decimals as it is, so storing a stored row changes nothing |
| Suscripciones.Suscripcion.constructor | src/main/java/com/servicioagil/entity/Suscripcion.java:43-50 | a new plan object has no priority support, is not featured, is active, and every other field is unset |
| Suscripciones.Suscripcion.Cargar | src/main/java/com/servicioagil/entity/Suscripcion.java:16-71 | loading a stored row gives an object that is written back as the same row |
| Suscripciones.Suscripcion.CalcularPrecioFinal | src/main/java/com/servicioagil/entity/Suscripcion.java:95-104 | with an original price the final price becomes `PrecioFinal` of it; without one the final price is left as it was |
| Suscripciones.Suscripcion.OnCreate | src/main/java/com/servicioagil/entity/Suscripcion.java:73-87 | stamps both times; fills a missing `activo`, support flag or featured flag with true, false and false; computes the final price |
| Suscripciones.Suscripcion.OnUpdate | src/main/java/com/servicioagil/entity/Suscripcion.java:89-93 | refreshes the modification time and recomputes the final price |
| SuscripcionServicio.Creada | src/main/java/com/servicioagil/service/SuscripcionService.java:91-96 | the plan `save` returns after the persist hook: its final price follows the price rule exactly, and once the table rounds that price to two decimals the stored row is coherent; it keeps the given name and price; a missing percentage becomes 0, so the final price is the original one; the missing flags default to false, false and active; both times are now |
| SuscripcionServicio.Actualizada | src/main/java/com/servicioagil/entity/Suscripcion.java:34 | the row the update commits: apart from the final price and modification time it is `Mapeada`; the modification time is now; the final price is the price rule applied to the new price and percentage, rounded to two decimals as the `precio_final` column (scale 2) stores it; coherence is kept; with neither price field given the final price is unchanged |
| SuscripcionServicio.Mapeada | src/main/java/com/servicioagil/service/SuscripcionService.java:113 | the entity after the update mapping, before any hook: the id, creation time, author, final price and modification time stay; the name changes only to a value with text; every absent field keeps its column |
| SuscripcionServicio.FinalAcotado | src/main/java/com/servicioagil/entity/Suscripcion.java:34 | a coherent plan whose prices are in range has a stored final price between 0 and its original price, rounding included |
| SuscripcionServicio.ActualizacionVaciaEIdempotente | src/main/java/com/servicioagil/service/SuscripcionService.java:190-230 | an update with no field present changes only the modification time of a coherent plan, and applying an update twice is the same as applying it once |
| SuscripcionServicio.ActualizadaEnRango | src/main/java/com/servicioagil/dto/UpdateSuscripcionDTO.java:21-28 | an update body within its validation bounds (a positive price with at most 8 integer digits and 2 decimals, a percentage from 0 to 100 with 2 decimals) keeps a coherent plan's prices in range, so its stored final price stays between 0 and its original price |
| SuscripcionServicio.Alternada | src/main/java/com/servicioagil/service/SuscripcionService.java:139 | the stored plan's `activo` differs from the old one |
| SuscripcionServicio.AlternarDosVeces | src/main/java/com/servicioagil/service/SuscripcionService.java:133-144 | toggling twice restores the plan, apart from its modification time |
| SuscripcionServicio.PreciosAcotados | src/main/java/com/servicioagil/entity/Suscripcion.java:95-104 | with every stored price in range, every stored final price lies between 0 and its original price |
| SuscripcionServicio.MapearAlta | src/main/java/com/servicioagil/service/SuscripcionService.java:174-188 | the create mapping copies the body's fields and makes a missing percentage 0, a missing support or featured flag false and a missing `activo` true |
| SuscripcionServicio.CopiarAlta | src/main/java/com/servicioagil/service/SuscripcionService.java:175-187 | the fields the mapping copies unchanged |
| SuscripcionServicio.CompletarAlta | src/main/java/com/servicioagil/service/SuscripcionService.java:178-183 | the fields the mapping fills with a default when absent |
| SuscripcionServicio.MapearCambios | src/main/java/com/servicioagil/service/SuscripcionService.java:190-230 | each field the update body carries is set, the name only when it is not blank; every other field keeps its value |
| SuscripcionServicio.CambiarTextos | src/main/java/com/servicioagil/service/SuscripcionService.java:191-196 | the name, description, colour, icon and editor setters |
| SuscripcionServicio.CambiarPrecio | src/main/java/com/servicioagil/service/SuscripcionService.java:197-208 | the price, percentage, duration and included-requests setters |
| SuscripcionServicio.CambiarBanderas | src/main/java/com/servicioagil/service/SuscripcionService.java:209-220 | the support, featured, active and position setters |
| SuscripcionServicio.NuevaSuscripcion | src/main/java/com/servicioagil/service/SuscripcionService.java:91-94 | a new object mapped from the body and saved is `Creada` |
| SuscripcionServicio.ConCambios | src/main/java/com/servicioagil/entity/Suscripcion.java:89-93 | for a stored plan loaded and given the body: the entity `convertToDTO` reads is `Mapeada` (the update hook runs only when the transaction flushes), and the row written once the hook has run and the column has rounded the price is `Actualizada` |
| SuscripcionServicio.CargarConCambios | src/main/java/com/servicioagil/service/SuscripcionService.java:103-113 | a stored plan loaded into a new entity and given the update body is `Mapeada` of it, ready to save |
| SuscripcionServicio.ConActivoAlternado | src/main/java/com/servicioagil/service/SuscripcionService.java:136-143 | for a coherent plan the response is the old plan with only `activo` negated (read before the flush), and the row committed after the update hook is `Alternada`: the recomputed and rounded final price is the one it had |
| SuscripcionServicio.OrdenesTotales | src/main/java/com/servicioagil/repository/SuscripcionRepository.java:16-35 | the three orderings (position with NULL last, final price, discount descending with NULL last) are total preorders |
| SuscripcionServicio.SuscripcionService.constructor | src/main/java/com/servicioagil/service/SuscripcionService.java:24-26 | the service starts with an empty table and next id 1 |
| SuscripcionServicio.SuscripcionService.Activas | src/main/java/com/servicioagil/service/SuscripcionService.java:37-42 | exactly the active plans, by display position |
| SuscripcionServicio.SuscripcionService.Destacadas | src/main/java/com/servicioagil/service/SuscripcionService.java:45-50 | exactly the active featured plans, by display position |
| SuscripcionServicio.SuscripcionService.PorId | src/main/java/com/servicioagil/service/SuscripcionService.java:53-58 | succeeds if and only if a plan has the id, with that plan; otherwise NotFound |
| SuscripcionServicio.SuscripcionService.PorRangoPrecio | src/main/java/com/servicioagil/service/SuscripcionService.java:61-72 | a business error if and only if a bound is negative or the minimum exceeds the maximum; otherwise exactly the active plans whose final price is in the closed range, cheapest first |
| SuscripcionServicio.SuscripcionService.ConDescuento | src/main/java/com/servicioagil/service/SuscripcionService.java:75-80 | exactly the active plans with a discount above zero, largest discount first |
| SuscripcionServicio.SuscripcionService.ContarActivas | src/main/java/com/servicioagil/service/SuscripcionService.java:147-149 | the count is the number of plans `Activas` lists |
| SuscripcionServicio.SuscripcionService.Crear | src/main/java/com/servicioagil/service/SuscripcionService.java:83-97 | a name already used, ignoring case, gives a business error and writes nothing; otherwise the response is `Creada` under the next id, the table gains that plan with its final price rounded to two decimals, and the next id advances |
| SuscripcionServicio.SuscripcionService.Actualizar | src/main/java/com/servicioagil/service/SuscripcionService.java:100-118 | an unknown id gives NotFound; a non-blank name held by another plan gives a business error; neither writes anything; otherwise only that plan changes, to `Actualizada`, and the response is `Mapeada`, the entity as it was before the update hook |
| SuscripcionServicio.SuscripcionService.Eliminar | src/main/java/com/servicioagil/service/SuscripcionService.java:121-130 | an unknown id gives NotFound and changes nothing; otherwise that row is removed, every other row stays in order, and a plan remains if and only if it had another id |
| SuscripcionServicio.SuscripcionService.AlternarActivo | src/main/java/com/servicioagil/service/SuscripcionService.java:133-144 | an unknown id gives NotFound; otherwise only that plan changes, to `Alternada`, and the response is the old plan with `activo` negated |
| SuscripcionServicio.TablaConAlta | src/main/java/com/servicioagil/service/SuscripcionService.java:86-94 | appending a coherent plan under the next id with a name no plan holds keeps the table invariant (increasing ids below the next one, coherent rows, names distinct ignoring case) |
| SuscripcionServicio.TablaConCambio | src/main/java/com/servicioagil/service/SuscripcionService.java:106-115 | replacing a row with a coherent one of the same id keeps the invariant when the name is kept or held by no other plan |
| SuscripcionServicio.TablaSinPosicion | src/main/java/com/servicioagil/service/SuscripcionService.java:124-128 | removing a row keeps the invariant and keeps exactly the rows with another id |
| Redondeo.Centesimos | src/main/java/com/servicioagil/service/ProveedorServicioService.java:172 | k hundredths is a value with at most two decimals whose hundredfold is k |
| Redondeo.RedondearDosDecimales | src/main/java/com/servicioagil/service/ProveedorServicioService.java:164-172 | the result has at most two decimals and lies within half a hundredth of the input, a tie going away from zero as `RoundingMode.HALF_UP` does; these bounds leave exactly one possible result |
| Redondeo.RedondearConserva | src/main/java/com/servicioagil/service/ProveedorServicioService.java:172 | a value that already has two decimals is left as it is |
| Redondeo.RedondearMonotono | src/main/java/com/servicioagil/service/ProveedorServicioService.java:172 | rounding never reverses the order of two values |
| Agregados.PrecioPromedio | src/main/java/com/servicioagil/service/ProveedorServicioService.java:155-173 | a failure is the division error; a success has at most two decimals |
| Agregados.PrecioPromedioFalla | src/main/java/com/servicioagil/service/ProveedorServicioService.java:164-172 | the average fails if and only if none of the company's technicians in the subcategory is active, available and priced |
| Agregados.SumaPreciosDesde | src/main/java/com/servicioagil/service/ProveedorServicioService.java:156-163 | with every counted price at least a, the sum is at least a times the count |
| Agregados.SumaPreciosHasta | src/main/java/com/servicioagil/service/ProveedorServicioService.java:156-163 | with every counted price at most b, the sum is at most b times the count |
| Agregados.PromedioEntre | src/main/java/com/servicioagil/service/ProveedorServicioService.java:164-172 | the rounded quotient of a sum between c·a and c·b stays between the two-decimal bounds a and b |
| Agregados.PrecioPromedioAcotado | src/main/java/com/servicioagil/service/ProveedorServicioService.java:155-173 | with every counted price between two two-decimal bounds the average lies between them too, so equal prices average to that price |
| Agregados.TotalResenas | src/main/java/com/servicioagil/service/ProveedorServicioService.java:186-193 | with no negative review count, the total is not negative |
| Agregados.TotalResenasConcat | src/main/java/com/servicioagil/service/ProveedorServicioService.java:186-193 | the total over two groups of technicians is the sum of their totals |
| Agregados.TotalResenasNuloEsCero | src/main/java/com/servicioagil/service/ProveedorServicioService.java:191 | a missing review count weighs exactly as a count of 0, and availability does not matter |
| Agregados.TotalResenasIgnora | src/main/java/com/servicioagil/service/ProveedorServicioService.java:188-190 | a technician outside the subcategory, or inactive, adds nothing |
| InfoProveedor.ConstruirInfoTecnico | src/main/java/com/servicioagil/service/ProveedorServicioService.java:119-134 | appending the segments one by one builds the technician text `InfoTecnico` |
| InfoProveedor.InfoTecnicoVacia | src/main/java/com/servicioagil/service/ProveedorServicioService.java:119-134 | the text is empty if and only if no segment applies: no years, no positive job count, no non-empty certificates, no radius |
| InfoProveedor.InfoTecnicoAnos | src/main/java/com/servicioagil/service/ProveedorServicioService.java:121-123 | the text opens with the experience segment if and only if the years are known, and then starts with that segment |
| InfoProveedor.InfoTecnicoRadio | src/main/java/com/servicioagil/service/ProveedorServicioService.java:130-132 | the text ends in a full stop if and only if the radius is known |
| InfoProveedor.InfoTecnicoContiene | src/main/java/com/servicioagil/service/ProveedorServicioService.java:124-129 | a positive job count and non-empty certificates each appear in the text with their value |
| InfoProveedor.InfoTecnicoNulos | src/main/java/com/servicioagil/service/ProveedorServicioService.java:124-129 | a job count of 0 or less reads as no count, and empty certificates read as none |
| InfoProveedor.ConstruirInfoEmpresa | src/main/java/com/servicioagil/service/ProveedorServicioService.java:136-153 | counting the qualifying technicians and appending the segments builds the company text `InfoEmpresa` |
| InfoProveedor.InfoEmpresaSegmentos | src/main/java/com/servicioagil/service/ProveedorServicioService.java:137-151 | the qualifying-technician count heads the text even when it is 0, and the text ends in a full stop if and only if the company has a non-empty web site |
| InfoProveedor.InfoEmpresaVacios | src/main/java/com/servicioagil/service/ProveedorServicioService.java:146-151 | an empty tax number or web site reads as none |
| Listado.ListarPaso | src/main/java/com/servicioagil/service/ProveedorServicioService.java:42-47 | one more loop step adds the row's entry exactly when the row is accepted |
| Listado.ListarContenido | src/main/java/com/servicioagil/service/ProveedorServicioService.java:42-47 | every accepted row has its entry in the list, every entry comes from an accepted row, and there is one entry per accepted row |
| Listado.ListarFiltrado | src/main/java/com/servicioagil/service/ProveedorServicioService.java:41-47 | walking only the rows a query returns lists the same entries, when every accepted row is one the query returns |
| Listado.ListarHastaFallo | src/main/java/com/servicioagil/service/ProveedorServicioService.java:51-62 | a failure is the failure of some accepted row's entry (the first exception ends the walk) |
| Listado.ListarHastaFalloPaso | src/main/java/com/servicioagil/service/ProveedorServicioService.java:51-62 | after a successful prefix, an accepted row adds its entry or ends the walk with its failure |
| Listado.ListarHastaFalloFalla | src/main/java/com/servicioagil/service/ProveedorServicioService.java:51-62 | the walk fails if and only if some accepted row's entry fails |
| Listado.ListarHastaFalloPropaga | src/main/java/com/servicioagil/service/ProveedorServicioService.java:51-62 | once a prefix fails, the whole walk fails the same way |
| Listado.ListarHastaFalloExito | src/main/java/com/servicioagil/service/ProveedorServicioService.java:51-62 | without a failure every accepted row's entry is built and listed, every listed entry is an accepted row's, one entry per accepted row |
| Listado.ListarHastaFalloFiltrado | src/main/java/com/servicioagil/service/ProveedorServicioService.java:50-62 | walking only the rows a query returns gives the same result, when every accepted row is one the query returns |
| ProveedorServicio.ConvertirTecnico | src/main/java/com/servicioagil/service/ProveedorServicioService.java:68-86 | a technician's entry is not a company's and carries the technician's id and hourly price (and is `DeTecnico`) |
| ProveedorServicio.DeEmpresa | src/main/java/com/servicioagil/service/ProveedorServicioService.java:88-117 | fails if and only if the average price fails; on success the entry is a company's, with its id, the average price and the review total |
| ProveedorServicio.ConvertirEmpresa | src/main/java/com/servicioagil/service/ProveedorServicioService.java:88-117 | building the entry step by step gives `DeEmpresa` |
| ProveedorServicio.Proveedores | src/main/java/com/servicioagil/service/ProveedorServicioService.java:30-66 | the listing is NotFound if and only if the subcategory is unknown |
| ProveedorServicio.ProveedoresFalla | src/main/java/com/servicioagil/service/ProveedorServicioService.java:50-62 | for a known subcategory the listing fails, always with the division error, if and only if some listed company has no qualifying technician with a price |
| ProveedorServicio.ProveedoresPartes | src/main/java/com/servicioagil/service/ProveedorServicioService.java:38-65 | on success the listing is the technicians' entries followed by the companies' entries |
| ProveedorServicio.ProveedoresCompleto | src/main/java/com/servicioagil/service/ProveedorServicioService.java:41-62 | on success every independent available technician of the subcategory and every active company with a qualifying technician has its entry, one entry each |
| ProveedorServicio.ProveedoresSoloCandidatos | src/main/java/com/servicioagil/service/ProveedorServicioService.java:41-62 | on success every entry is such a technician's or such a company's |
| ProveedorServicio.ProveedoresOrden | src/main/java/com/servicioagil/service/ProveedorServicioService.java:38-65 | on success the technicians come first: after a company's entry only companies follow |
| ProveedorServicio.EntradasOrdenadas | src/main/java/com/servicioagil/service/ProveedorServicioService.java:38-65 | technicians' entries followed by companies' entries keep every company after every technician |
| ProveedorServicio.ListarTecnicos | src/main/java/com/servicioagil/service/ProveedorServicioService.java:41-47 | the first loop lists exactly the entries `Listar` gives for the independent available technicians |
| ProveedorServicio.ListarEmpresas | src/main/java/com/servicioagil/service/ProveedorServicioService.java:50-62 | the second loop gives exactly what `ListarHastaFallo` gives for the companies with a qualifying technician |
| ProveedorServicio.ProveedorServicioService.constructor | src/main/java/com/servicioagil/service/ProveedorServicioService.java:28-36 | the service starts from the given tables |
| ProveedorServicio.ProveedorServicioService.ProveedoresPorSubcategoria | src/main/java/com/servicioagil/service/ProveedorServicioService.java:30-66 | the method returns exactly `Proveedores`, whose properties the lemmas above state |
| Empresas.Buscar | src/main/java/com/servicioagil/service/EmpresaService.java:43-48 | `findById` succeeds if and only if some row has the id, and returns that row; otherwise it is NotFound |
| Usuarios.Buscar | src/main/java/com/servicioagil/service/UsuarioService.java:39-45 | `findById` succeeds if and only if some row has the id, and returns that row; otherwise it is NotFound |
| EmpresaServicio.Convertir | src/main/java/com/servicioagil/service/EmpresaService.java:142-163 | a company's view carries the company's row and its owner's identity, and the owner is present in the user table |
| EmpresaServicio.Convertidas | src/main/java/com/servicioagil/service/EmpresaService.java:31-34 | the views of a list of companies keep its length and order, one view per company |
| EmpresaServicio.Creada | src/main/java/com/servicioagil/service/EmpresaService.java:79-87 | the new company takes its legal name as name and its RFC as tax number, copies the contact fields, belongs to the user, and is active unless the request says false |
| EmpresaServicio.NuevaEmpresa | src/main/java/com/servicioagil/service/EmpresaService.java:79-87 | the setter sequence of `create` builds exactly `Creada` |
| EmpresaServicio.Actualizada | src/main/java/com/servicioagil/service/EmpresaService.java:105-126 | every field present in the request replaces its column and every absent one leaves it; identity and owner never change |
| EmpresaServicio.ActualizadaVaciaEIdempotente | src/main/java/com/servicioagil/service/EmpresaService.java:105-126 | an empty request leaves the company as it was, and applying a request twice is applying it once |
| EmpresaServicio.AplicarCambios | src/main/java/com/servicioagil/service/EmpresaService.java:105-126 | the setter sequence of `update` builds exactly `Actualizada` |
| EmpresaServicio.CambiarIdentidad | src/main/java/com/servicioagil/service/EmpresaService.java:106-111 | the name and tax-number setters change those two columns and nothing else |
| EmpresaServicio.CambiarContacto | src/main/java/com/servicioagil/service/EmpresaService.java:112-126 | the telephone, address, web site, description and state setters change those columns and nothing else |
| EmpresaServicio.Desactivada | src/main/java/com/servicioagil/service/EmpresaService.java:136-138 | a soft delete makes the company inactive and keeps every other column |
| EmpresaServicio.DesactivadaIdempotente | src/main/java/com/servicioagil/service/EmpresaService.java:132-140 | deleting twice stores what deleting once does |
| EmpresaServicio.EmpresaService.constructor | src/main/java/com/servicioagil/service/EmpresaService.java:23-28 | the service starts with no company over the given users, its tables valid |
| EmpresaServicio.EmpresaService.Todas | src/main/java/com/servicioagil/service/EmpresaService.java:30-35 | one view per company, in table order |
| EmpresaServicio.EmpresaService.PorId | src/main/java/com/servicioagil/service/EmpresaService.java:43-48 | succeeds if and only if the identity is a company's, returning that company; otherwise NotFound |
| EmpresaServicio.EmpresaService.PorUsuario | src/main/java/com/servicioagil/service/EmpresaService.java:50-55 | succeeds if and only if the user owns a company, returning that company; otherwise NotFound |
| EmpresaServicio.EmpresaService.PorActiva | src/main/java/com/servicioagil/service/EmpresaService.java:57-62 | lists exactly the active companies: every listed one is active and every active one is listed |
| EmpresaServicio.PorActivaIgnoraArgumento | src/main/java/com/servicioagil/service/EmpresaService.java:57-62 | the argument is ignored: `findByActiva(false)` lists the same active companies as `findByActiva(true)` |
| EmpresaServicio.EmpresaService.ConFiltros | src/main/java/com/servicioagil/repository/EmpresaRepository.java:28-35 | lists exactly the companies whose name contains the term ignoring case, whose tax number equals the given one, and whose state matches, each condition only when its argument is given |
| EmpresaServicio.EmpresaService.Crear | src/main/java/com/servicioagil/service/EmpresaService.java:64-91 | an unknown user is NotFound; a user not of type EMPRESA, or one that already owns a company, is a business error; a tax number another company holds breaks the unique column; in each case nothing is written; otherwise `Creada` is appended under the next identity and returned; the tables stay valid |
| EmpresaServicio.EmpresaService.Actualizar | src/main/java/com/servicioagil/service/EmpresaService.java:93-130 | an unknown identity is NotFound; a changed RFC that another company holds is a business error, with nothing written; otherwise only that company changes, to `Actualizada`; the tables stay valid |
| EmpresaServicio.EmpresaService.Eliminar | src/main/java/com/servicioagil/service/EmpresaService.java:132-140 | an unknown identity is NotFound; otherwise that company alone becomes `Desactivada` and stays in the table |
| EmpresaServicio.TablasConAlta | src/main/java/com/servicioagil/entity/Empresa.java:43-45 | a new company under the next identity, for a present user without a company and with an unused tax number, keeps owners and tax numbers unique |
| EmpresaServicio.TablasConCambio | src/main/java/com/servicioagil/entity/Empresa.java:43-45 | changing a company, keeping its identity and owner and keeping its tax number or taking an unused one, keeps owners and tax numbers unique |
| UsuarioServicio.Creado | src/main/java/com/servicioagil/service/UsuarioService.java:90 | the stored user copies the request's fields under the new identity, is a client unless the request names a type, and is active unless the request says false (the entity's defaults) |
| UsuarioServicio.NuevoUsuario | src/main/java/com/servicioagil/entity/Usuario.java:100-109 | the mapping followed by the `@PrePersist` defaults (active, CLIENTE) builds exactly `Creado` |
| UsuarioServicio.Actualizado | src/main/java/com/servicioagil/service/UsuarioService.java:109-130 | every field present in the request replaces its column and every absent one leaves it; identity and type never change |
| UsuarioServicio.ActualizadoVacioEIdempotente | src/main/java/com/servicioagil/service/UsuarioService.java:109-130 | an empty request leaves the user as it was, and applying a request twice is applying it once |
| UsuarioServicio.AplicarCambios | src/main/java/com/servicioagil/service/UsuarioService.java:109-130 | the setter sequence of `actualizarUsuario` builds exactly `Actualizado` |
| UsuarioServicio.CambiarDatos | src/main/java/com/servicioagil/service/UsuarioService.java:110-118 | the name, surname and e-mail setters change those columns and nothing else |
| UsuarioServicio.CambiarContacto | src/main/java/com/servicioagil/service/UsuarioService.java:119-130 | the telephone, address, birth-date and state setters change those columns and nothing else |
| UsuarioServicio.EmailIdentifica | src/main/java/com/servicioagil/entity/Usuario.java:49-52 | with e-mails unique, looking a user's e-mail up finds that same user |
| UsuarioServicio.UsuarioService.constructor | src/main/java/com/servicioagil/service/UsuarioService.java:22-28 | the service starts with no user, the next identity being 1 |
| UsuarioServicio.UsuarioService.PorId | src/main/java/com/servicioagil/service/UsuarioService.java:39-45 | succeeds if and only if some user has the identity, returning that user; otherwise NotFound |
| UsuarioServicio.UsuarioService.Activos | src/main/java/com/servicioagil/service/UsuarioService.java:47-54 | lists exactly the active users |
| UsuarioServicio.UsuarioService.PorTipo | src/main/java/com/servicioagil/service/UsuarioService.java:56-63 | lists exactly the users of the given type |
| UsuarioServicio.UsuarioService.PorNombre | src/main/java/com/servicioagil/repository/UsuarioRepository.java:31-33 | lists exactly the users whose name contains the term, ignoring case |
| UsuarioServicio.UsuarioService.PorEmail | src/main/java/com/servicioagil/service/UsuarioService.java:74-80 | succeeds if and only if some user holds the e-mail, returning that user; otherwise NotFound |
| UsuarioServicio.UsuarioService.ContarActivos | src/main/java/com/servicioagil/service/UsuarioService.java:148-151 | counts as many users as `Activos` lists |
| UsuarioServicio.UsuarioService.ContarInactivos | src/main/java/com/servicioagil/service/UsuarioService.java:153-156 | counts the users that are not active |
| UsuarioServicio.UsuarioService.ContarPorTipo | src/main/java/com/servicioagil/service/UsuarioService.java:158-161 | counts as many users as `PorTipo` lists |
| UsuarioServicio.UsuarioService.ActivosMasInactivos | src/main/java/com/servicioagil/service/UsuarioService.java:148-156 | the active and inactive counts add up to the number of users |
| UsuarioServicio.UsuarioService.Crear | src/main/java/com/servicioagil/service/UsuarioService.java:82-95 | an e-mail some user holds is a business error and nothing is written; otherwise `Creado` is appended under the next identity, the counter advances, and e-mails stay unique |
| UsuarioServicio.UsuarioService.Actualizar | src/main/java/com/servicioagil/service/UsuarioService.java:97-136 | an unknown identity is NotFound; an e-mail another user holds is a business error, with nothing written; otherwise only that user changes, to `Actualizado`; e-mails stay unique |
| UsuarioServicio.UsuarioService.Eliminar | src/main/java/com/servicioagil/service/UsuarioService.java:138-146 | an unknown identity is NotFound; otherwise that row is removed, the others stay in order, and the users left are exactly those with another identity |
| UsuarioServicio.TablaConAlta | src/main/java/com/servicioagil/entity/Usuario.java:49-52 | appending a user under the next identity with an unused e-mail keeps identities increasing and e-mails unique |
| UsuarioServicio.TablaConCambio | src/main/java/com/servicioagil/entity/Usuario.java:49-52 | changing a user, keeping its identity and keeping its e-mail or taking one no other user holds, keeps the table valid |
| UsuarioServicio.TablaSinPosicion | src/main/java/com/servicioagil/service/UsuarioService.java:144 | removing a row keeps the table valid and keeps exactly the rows with another identity |

## Left out

- Push notifications and the client notice after an acceptance (src/main/java/com/servicioagil/service/EmergenciaService.java:327-344). They only log, so the model has no counterpart for them.
- `@Async`, the `@Scheduled` period of the sweep, transaction isolation and concurrent calls. Every operation is one sequential step at a given `ahora`. Nothing here claims a request is accepted at most once, and the code does not enforce that either.
- The geometry behind `findTecnicosCercanos`. The query is an oracle that returns candidate rows in database order, and the model only looks at whether coordinates are present. The distance each result reports, in km, is converted to metres as the service does, but as an exact real rather than a `Double`.
- Floating point: the average rating `calcularCalificacionPromedioEmpresa`, its 0.0 fallback, and every rating column. The price average uses exact decimals, as `BigDecimal` does.
- Agregados.TotalResenas: the sum of review counts is unbounded. The 32-bit `Integer` overflow of a very large total is not modelled.
- Paging and sort parameters (`Pageable`, `Page`). Paged queries return the full result, in the order the query states or else in table order.
- LIKE wildcards inside a search term; case folding outside ASCII; the database's collation.
- ModelMapper and DTO classes. `convertToDTO` keeps only the fields the properties use.
- Bean-validation annotations on request bodies and on entities, such as `@Size(min = 2)` on a category name, `@Pattern` on a company's phone number and `@Email` on a user. The entity checks run when a row is saved or flushed and roll the call back with a constraint violation. The model checks neither kind, except where a property relies on a request body's bounds, such as the 0–100 discount and the two-decimal prices of a subscription update. So `Crear` and `Actualizar` can succeed where the source would reject the input.
- `CreateSuscripcionDTO`, `CreateCategoriaDTO`, `CreateEmpresaDTO` and `CreateUsuarioDTO` are not part of this model. Their fields are the ones the services read.
- The update DTO of users declares fewer fields than `actualizarUsuario` reads. The model follows the service. Extra fields of the company update DTO that the service never reads are ignored.
- The finders `findByTipoUsuario` and `countByTipoUsuario` have no declaration in `UsuarioRepository`. They are modelled by their names: filter and count by type.
- Audit timestamps and authors on categories, subcategories, companies and users, and their `@PrePersist` and `@PreUpdate` hooks (except the user's defaults for `activo` and `tipoUsuario`). The emergency entities and subscriptions keep theirs.
- Hibernate skips the flush of an unchanged entity. The model applies `@PreUpdate` on every save, so an update that changes no column still gets a new modification time.
- Cascades between tables. `Usuario` declares `CascadeType.ALL` on its company, technician profile, requests and written reviews, so the source deletes them with the user. In the model each service holds only its own tables, so `UsuarioServicio.UsuarioService.Eliminar` removes only the user row, and no other table is affected.
- The "Sin nombre" name of a technician entry whose technician has no user, and its null photo (`ProveedorServicioService.convertTecnicoToDTO`). The user join of `Tecnico` is non-null, and the model's technician row carries its user's name and e-mail, so the fallback cannot arise.
- SubcategoriaRepositorio.ConFiltros: the `tipoPrecio` argument is a `String` in the source, compared with an enum column stored by name. The model takes it to be a `TipoPrecio` constant. A string that names no constant, or names one in the wrong case, is not modelled: what happens then depends on how Hibernate binds the string to the enum parameter.
- SubcategoriaServicio.SubcategoriaService.ConFiltros: it passes the same `String` argument on to the query, with the same narrowing to a `TipoPrecio` constant.
- Plain `findAll` listings, such as all subscriptions, all categories and all users, return the table as it is and have no separate member.
- NULL placement in an ascending ORDER BY is vendor-specific: PostgreSQL puts NULLs last, MySQL puts them first. `NotificacionRepositorio.OrdenContactoAntes`, `Comun.PosicionYNombreAntes` (categories and subcategories) and `SuscripcionServicio.OrdenAntes` assume NULLs last. `SuscripcionServicio.DescuentoAntes` also puts a NULL percentage last, but its query keeps only percentages above zero, so no NULL reaches that ordering.
- The database's rounding of the `precio_final` column is assumed to be half away from zero. The create call keeps the original price and percentage exact. Their scale-2 columns would round values with more decimals, but the create body's validation is not part of this model.
- Logging.
