# Dispatch planning engine of backend-inventario, in Dafny

This project models the dispatch planning engine of the `backend-inventario`
service and proves properties of it. Given a quotation, the planner does the following:

- expands every quotation line into one unit per piece ordered, each carrying
  its SKU, unit weight, unit volume (length × width × height / 1 000 000) and
  branch;
- packs the units, in order, into truck loads. It closes a load just before the
  unit that would make it fit no truck type at all;
- gives each load the first truck type, in ascending maximum-weight order, that
  takes its totals, and the first active truck of that type;
- records one pending dispatch per load. Each dispatch leaves from the branch of
  the load's first unit, goes to the client's first address and is dated the
  next day. A per-SKU manifest row is stored for each dispatch.

The quotation's previous dispatches are deleted first. A failure part-way
through keeps what was already inserted.

Around the planner the model also covers:

- `CreateDespacho`: a single transaction. It checks the date, inserts the
  dispatch and its lines, and discounts stock at the origin branch, with no
  lower bound.
- `AprobarDespacho`: approves a quotation's dispatches.
- The truck-type and truck registries, with their guards.
- The pure helpers of the Google Maps service.

Modules:

- `Modelo`: the records, constants and error values.
- `Unidades`: unit expansion.
- `Cargas`: load totals, the fit test, the type choice and the greedy packer.
- `Almacen`: the store, as a class with one field per table, and the
  "first row by primary key" lookups.
- `PlanDespacho`: what a planning run decides, as functions of what it reads,
  and the lemmas about it.
- `ControladorDespacho`: the controller methods against the store.
- `ControladorTipoCamion` and `ControladorCamion`: the registries.
- `GoogleMaps`: the address formatting and checking, and the acceptance of a
  Distance Matrix response.

The packer splits only when *no* type takes the running load. For example,
with two truck types {100 kg, 1 m³} and {500 kg, 5 m³}, twelve units of
10 kg / 0.1 m³ stay in one load, on the larger type
(`Cargas.DoceUnidadesUnSoloGrupo`).

Weights, volumes and money are real numbers. Time is an integer number of
seconds, with one day = 86 400. The current time is a parameter. The truck-type
list the planner reads (`ORDER BY peso_maximo ASC`) is a parameter, required to
be an enumeration of the type table sorted by maximum weight. gorm's `First`
picks the row with the least primary key.

## Model

| member | source | states |
|---|---|---|
| Unidades.DesglosarUnidades | api/Controllers/ControllerDespacho.go:284-294 | the nested loop produces exactly the reference expansion: line by line, one unit per piece ordered |
| Unidades.LongitudExpansion | api/Controllers/ControllerDespacho.go:284-294 | the number of units is the sum of the lines' positive quantities; a non-positive quantity contributes none |
| Unidades.ExpansionPosicion | api/Controllers/ControllerDespacho.go:284-294 | piece j of line i sits right after the pieces of the earlier lines, with the line's SKU, unit weight, volume L·W·H/1 000 000 and branch |
| Unidades.ExpansionConserva | api/Controllers/ControllerDespacho.go:284-294 | for every SKU, the units carrying it number exactly the pieces the lines request for it |
| Cargas.PesoTotal | api/Controllers/ControllerDespacho.go:509-515 | the accumulation loop returns the group's total weight |
| Cargas.VolumenTotal | api/Controllers/ControllerDespacho.go:517-523 | the accumulation loop returns the group's total volume |
| Cargas.PrimerTipo | api/Controllers/ControllerDespacho.go:338-346 | the index returned takes the load and no earlier type does; none is returned exactly when no type takes it |
| Cargas.HayTipoQueCabe | api/Controllers/ControllerDespacho.go:312-318 | the `cabe` scan answers true exactly when some type dominates both running totals |
| Cargas.ElegirTipo | api/Controllers/ControllerDespacho.go:336-346 | the scan yields the id of the first fitting type in list order, 0 when none fits |
| Cargas.PrimerTipoEsElMasLiviano | api/Controllers/ControllerDespacho.go:274-346 | with types in ascending maximum weight, the type chosen is at most as heavy-rated as any type that takes the load |
| Cargas.AgruparUnidades | api/Controllers/ControllerDespacho.go:303-331 | the packing loop with running totals returns exactly the reference grouping |
| Cargas.AgrupamientoParticion | api/Controllers/ControllerDespacho.go:303-331 | concatenating the groups in order gives back the units: nothing dropped, duplicated or reordered |
| Cargas.AgrupamientoPrimerGrupo | api/Controllers/ControllerDespacho.go:319-331 | only the first group can be empty, and it is empty exactly when the first unit alone fits no type |
| Cargas.AgrupamientoCapacidad | api/Controllers/ControllerDespacho.go:303-331 | every group of two or more units fits some truck type |
| Cargas.AgrupamientoMaximal | api/Controllers/ControllerDespacho.go:312-327 | a group plus the next group's first unit fits no truck type (greedy maximality) |
| Cargas.SinCorteSiTodoCabe | api/Controllers/ControllerDespacho.go:312-327 | with non-negative weights and volumes, units whose whole load fits some type form a single group |
| Cargas.DoceUnidadesUnSoloGrupo | api/Controllers/ControllerDespacho.go:303-346 | twelve 10 kg / 0.1 m³ units with types {100 kg, 1 m³} and {500 kg, 5 m³} form one group, given type 2 |
| Almacen.BuscarCamionActivo | api/Controllers/ControllerDespacho.go:348-352 | returns the active truck of the type with the least id, and none exactly when the type has no active truck |
| Almacen.BuscarDireccion | api/Controllers/ControllerDespacho.go:296-300 | returns the client address with the least id for the RUT, and none exactly when the RUT has no address |
| PlanDespacho.ItemsDe | api/Controllers/ControllerDespacho.go:259-264 | a line is selected exactly when it is in the table and belongs to the requested quotation |
| PlanDespacho.ItemsDeConcatena | api/Controllers/ControllerDespacho.go:259-264 | the selection keeps the order the store holds the lines in: selecting from two consecutive stretches of the table is selecting from each in turn |
| PlanDespacho.ItemsDeOrden | api/Controllers/ControllerDespacho.go:259-264 | each line sits in the selection, between the selections of the lines before and after it, exactly when it belongs to the quotation |
| PlanDespacho.SinCotizacion | api/Controllers/ControllerDespacho.go:253-256 | the delete keeps exactly the rows of other quotations, unchanged |
| PlanDespacho.ConteoExacto | api/Controllers/ControllerDespacho.go:377-381 | a group's manifest holds, for each SKU, the number of its units with that SKU, and lists exactly the SKUs present |
| PlanDespacho.DecidirGrupoExito | api/Controllers/ControllerDespacho.go:336-362 | a group yields a dispatch exactly when it is non-empty, its first fitting type has a non-zero id, that type has an active truck, and the record carries the least-id such truck, the first unit's branch, destination, next-day date, value 0 and state pending |
| PlanDespacho.DecidirGrupoFallos | api/Controllers/ControllerDespacho.go:336-357 | a group fails for want of a type exactly when the chosen id is 0, for want of a truck exactly when the type has no active truck, and on an empty group otherwise |
| PlanDespacho.MaterializarForma | api/Controllers/ControllerDespacho.go:336-397 | the loop creates at most one dispatch per group; it runs through every group unless it stops, and then the group after the created ones is the one that failed |
| PlanDespacho.MaterializarCreado | api/Controllers/ControllerDespacho.go:336-375 | the i-th dispatch created is the dispatch of group i, with id first+i, and its manifest is that group's count |
| PlanDespacho.MaterializarFallaPorGrupo | api/Controllers/ControllerDespacho.go:336-357 | a loop that stops does so for want of a type, for want of an active truck of the type, or on an empty group |
| PlanDespacho.MaterializarExito | api/Controllers/ControllerDespacho.go:336-397 | a loop that does not stop gives every group its dispatch and manifest, in order, with consecutive ids |
| PlanDespacho.MaterializarFallo | api/Controllers/ControllerDespacho.go:336-397 | a loop that stops keeps the dispatches of the groups before the failing one, and the failing group has none |
| PlanDespacho.MaterializarCaracterizacion | api/Controllers/ControllerDespacho.go:336-397 | the loop gives group i dispatch i, with id first+i and its manifest, and stops at the first failing group, keeping what it created |
| PlanDespacho.FalloPersiste | api/Controllers/ControllerDespacho.go:336-351 | once a group fails, the later groups change nothing |
| PlanDespacho.MaterializarSinTipo | api/Controllers/ControllerDespacho.go:338-346 | where the loop stops for want of a type, no type with a non-zero id takes that group |
| PlanDespacho.PlanExitoso | api/Controllers/ControllerDespacho.go:252-400 | a successful run had lines, types and a destination, and created one dispatch per group in order, each the dispatch of its group, with consecutive ids and its manifest |
| PlanDespacho.PlanFalloPrevio | api/Controllers/ControllerDespacho.go:264-300 | "no lines", "no types" and "no destination" fail exactly in those cases and in that order, creating nothing |
| PlanDespacho.PlanFalloEnGrupo | api/Controllers/ControllerDespacho.go:336-397 | a failure in the loop keeps the dispatches of the groups before the failing one, and the failing group has no dispatch |
| PlanDespacho.PlanIdsConsecutivos | api/Controllers/ControllerDespacho.go:336-375 | every dispatch created, on success or failure, has the next consecutive id and the quotation's id |
| PlanDespacho.PlanConserva | api/Controllers/ControllerDespacho.go:284-397 | over the manifests of a successful run, each SKU totals exactly the pieces the quotation requests |
| PlanDespacho.PlanSinTipoSoloUnaUnidad | api/Controllers/ControllerDespacho.go:303-346 | with non-zero type ids, a run fails for want of a type only on a group of at most one unit |
| PlanDespacho.PlanPrimeraUnidadSinTipo | api/Controllers/ControllerDespacho.go:319-357 | when the first unit alone fits no type, the run fails without creating any dispatch |
| PlanDespacho.ReemplazoPorCotizacion | api/Controllers/ControllerDespacho.go:254-375 | after delete and inserts, the quotation's rows are exactly the new dispatches; other quotations keep exactly their rows, unchanged, and gain none; the table stays keyed by id |
| PlanDespacho.PlanReemplaza | api/Controllers/ControllerDespacho.go:252-400 | whatever its outcome, a run leaves the quotation with exactly the dispatches it created; the rows of other quotations are exactly the old ones, unchanged |
| ControladorDespacho.ContarPorSku | api/Controllers/ControllerDespacho.go:377-381 | the counting loop yields the group's manifest: a SKU is present exactly when some unit carries it, with its count |
| ControladorDespacho.RegistrarManifiesto | api/Controllers/ControllerDespacho.go:383-393 | one row per SKU of the manifest is added, whatever order the map yields |
| ControladorDespacho.DecidirDespacho | api/Controllers/ControllerDespacho.go:337-362 | choosing a type, then the least-id active truck of it, then building the record, yields exactly the reference decision for the group |
| ControladorDespacho.Planear | api/Controllers/ControllerDespacho.go:258-399 | on a table already cleared of the quotation, the result, dispatch table, manifest rows and next id are those of the reference plan |
| ControladorDespacho.RegistrarGrupo | api/Controllers/ControllerDespacho.go:336-396 | one iteration decides the group as the reference does; on success it inserts the dispatch with the next id and its manifest; on failure it changes nothing |
| ControladorDespacho.RegistrarGrupos | api/Controllers/ControllerDespacho.go:333-399 | the loop's result and its effect on the dispatch and manifest tables are those of the reference run |
| ControladorDespacho.CalcularDespacho | api/Controllers/ControllerDespacho.go:248-400 | result, dispatch table, manifest rows and next id equal the reference plan after deleting the quotation's dispatches; the store invariant is kept |
| ControladorDespacho.TipoDelGrupoVacio | api/Controllers/ControllerDespacho.go:336-346 | with the registry's capacity guard in force, an empty group gets the first type listed, whose id is non-zero |
| ControladorDespacho.PlanGrupoVacio | api/Controllers/ControllerDespacho.go:319-357 | when the first unit fits no type and the first type has an active truck, the run fails on the empty group having created nothing |
| ControladorDespacho.DescontarStockExito | api/Controllers/ControllerDespacho.go:64-81 | the discount succeeds exactly when every line has a stock row at the origin; each origin row then loses the units its product is ordered in, with no lower bound, and no other row changes |
| ControladorDespacho.DescontarStockFallo | api/Controllers/ControllerDespacho.go:64-81 | a failed discount names the first line, in order, whose stock row is missing |
| ControladorDespacho.ConDespacho | api/Controllers/ControllerDespacho.go:64-67 | every line inserted carries the new dispatch's id and is otherwise the line given |
| ControladorDespacho.DescontarLineas | api/Controllers/ControllerDespacho.go:64-81 | the transaction's loop computes the reference discount and stages every line with the dispatch id |
| ControladorDespacho.CreateDespacho | api/Controllers/ControllerDespacho.go:53-84 | a date over a day in the past fails; a missing stock row fails; either failure leaves the store unchanged; otherwise dispatch, lines and discounted stock are committed together |
| ControladorDespacho.Aprobar | api/Controllers/ControllerDespacho.go:497-500 | every dispatch of the quotation is approved; only the state changes; other quotations are untouched |
| ControladorDespacho.AprobarIdempotente | api/Controllers/ControllerDespacho.go:497-500 | approving twice is approving once |
| ControladorDespacho.AprobarConmuta | api/Controllers/ControllerDespacho.go:497-500 | approving two quotations gives the same table in either order |
| ControladorDespacho.AprobarDespacho | api/Controllers/ControllerDespacho.go:496-506 | reports an error exactly when the quotation has no dispatch, and then changes nothing |
| ControladorTipoCamion.ValidarCapacidad | api/Controllers/ControllerTipoCamion.go:26-31 | passes exactly when volume and maximum weight are both positive |
| ControladorTipoCamion.GetTipoCamionByID | api/Controllers/ControllerTipoCamion.go:18-24 | the stored type for a stored id, not found otherwise |
| ControladorTipoCamion.TipoActualizado | api/Controllers/ControllerTipoCamion.go:41-44 | the written row keeps its id and takes only the two new capacities |
| ControladorTipoCamion.CreateTipoCamion | api/Controllers/ControllerTipoCamion.go:26-31 | non-positive capacities are rejected with nothing stored; otherwise inserted with the next id; every stored type keeps positive capacities |
| ControladorTipoCamion.UpdateTipoCamion | api/Controllers/ControllerTipoCamion.go:33-49 | an unknown id fails before the values are checked; bad capacities fail; failures change nothing; success writes only the capacities |
| ControladorTipoCamion.DeleteTipoCamion | api/Controllers/ControllerTipoCamion.go:51-53 | removes that id and nothing else |
| ControladorCamion.ValidarCamion | api/Controllers/ControllerCamion.go:26-34 | an empty plate is reported first, a zero type second; passes exactly when both are present |
| ControladorCamion.GetCamionByID | api/Controllers/ControllerCamion.go:18-24 | the stored truck for a stored id, not found otherwise |
| ControladorCamion.CamionActualizado | api/Controllers/ControllerCamion.go:49-53 | the written row keeps its id and takes plate, type and active flag from the request |
| ControladorCamion.CreateCamion | api/Controllers/ControllerCamion.go:26-34 | a bad plate or type is rejected with nothing stored; otherwise inserted with the next id; every stored truck keeps a plate and a type |
| ControladorCamion.UpdateCamion | api/Controllers/ControllerCamion.go:36-59 | an unknown id fails before validation; bad values fail; failures change nothing; success writes plate, type and active flag |
| ControladorCamion.DeleteCamion | api/Controllers/ControllerCamion.go:61-63 | removes that id and nothing else |
| GoogleMaps.FormatearDireccionCompleta | services/google_maps.go:131-139 | the result starts with the address; when there is a city, a ", " follows the address and the result ends with the city; its length counts the city and commune parts only when present |
| GoogleMaps.FormatoSinCiudad | services/google_maps.go:132-139 | the result is the bare address exactly when the city is empty, so a commune without a city is dropped |
| GoogleMaps.FormatoCompleto | services/google_maps.go:133-134 | with both parts present, the commune sits between two ", " separators |
| GoogleMaps.ValidarDireccion | services/google_maps.go:121-129 | only the empty address is rejected, and a non-error answer is always true |
| GoogleMaps.AceptarRespuesta | services/google_maps.go:97-116 | accepted exactly when the global status is OK, a first element exists and its status is OK; then the distance and duration texts are taken and the route is marked optimised; each rejection reports its cause: the global status, a missing element, or the first element's status |
| GoogleMaps.SoloPrimerElemento | services/google_maps.go:102-116 | only the first element of the first row affects the outcome |

## Left out

- HTTP handlers, routes, the listing and detail queries (`GetDespachos*`, `GetTiposCamion`, `GetCamiones`), `UpdateDespacho` and `DeleteDespacho`: these are not part of the planning engine.
- Distance enrichment inside the planner: its result is discarded and the dispatch record is not changed, so the model has no API key. The HTTP call, URL building and JSON decoding of `CalcularDistancia` are I/O. Only the checks on a decoded response are modelled.
- Database failures (connection errors, constraint violations such as a duplicate plate or a type still referenced by trucks) are not modelled. Every store operation succeeds unless the code itself returns an error.
- ControladorCamion.UpdateCamion: writes the active flag even when it is false. gorm's `Updates(struct)` skips zero-valued fields, so as run, a truck cannot be deactivated through this path. The store is treated abstractly and the evidently intended write is modelled.
- ControladorDespacho.CalcularDespacho: reads the clock once per run. The source calls `time.Now()` for each group, so dates could differ by a second across groups of one run. `AddDate(0, 0, 1)` is modelled as +86 400 seconds (no daylight-saving shifts).
- ControladorDespacho.CalcularDespacho: indexing `grupo[0]` of an empty first group is a runtime panic in the source. It is modelled as the error `GrupoVacio`.
- ControladorDespacho.CreateDespacho: the new dispatch always takes the store's next id. A caller-supplied id is ignored, and an id consumed by a rolled-back insert is not modelled.
- PlanDespacho.PlanIdsConsecutivos: the planner's inserts take consecutive ids from the store's next-id counter. The database sequence behind the `id` column promises increasing ids, not gap-free ones, so the model fixes one of the id assignments it allows.
- PlanDespacho.ItemsDe: the query has no `ORDER BY`. The model takes the lines in the store's sequence order, one of the orders the database may return, and keeps that order across runs. Since the packer depends on the order of the units, which lines share a load is stated for that order.
- ControladorDespacho.DescontarStockExito: the stock table is keyed by the pair (product, branch). The `UPDATE … WHERE producto_id = ? AND sucursal_id = ?` of the source would decrement every matching row, and no unique constraint on the pair is part of this model.
- ControladorTipoCamion.CreateTipoCamion: the new type always takes the store's next id. gorm's `Create` keeps a non-zero `ID` bound from the request; the model ignores any caller-supplied id.
- ControladorCamion.CreateCamion: the new truck always takes the store's next id. A non-zero `ID` bound from the request, which gorm's `Create` would keep, is ignored.
- ControladorDespacho.CalcularDespacho: the manifest rows (`productos_despacho`) of the deleted dispatches are kept. The code deletes only from `despachos`, and whether the database cascades that delete depends on a schema that is not part of this model.
- Floating-point rounding: weights, volumes and the volume scale are exact reals.
- Map iteration order of `mapSKU`: modelled as an arbitrary choice. The manifest table is a multiset of rows without their own key.
- `Preload` of related records (`Producto`, `Cotizacion`, `Tipo`) is a join for reading. The model reads the related table directly (`GetCamionByID` returns the truck alone).
- Record fields the engine does not read or write (brand, model, descriptive fields) are not modelled.
- `AprobarDespacho` counts matched rows. The driver's own `RowsAffected` convention is not modelled.
