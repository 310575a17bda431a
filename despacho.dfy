/**
 * The dispatch controller against the store: the planning run, the manual
 * creation of a dispatch with its stock discount, and the approval of a
 * quotation's dispatches.
 */
module ControladorDespacho {
  import opened Wrappers
  import opened Modelo
  import opened Unidades
  import opened Cargas
  import opened Almacen
  import opened PlanDespacho

  /** What the planning run reads from the store. */
  function LecturaDe(db: BaseDatos): Lectura
    reads db`itemsCotizacion, db`cotizaciones, db`dirClientes, db`camiones
  {
    Lectura(db.itemsCotizacion, db.cotizaciones, db.dirClientes, db.camiones)
  }

  /**
   * `tipos` is the truck-type table as `ORDER BY peso_maximo ASC` returns it:
   * every row once, in non-decreasing maximum weight.
   */
  ghost predicate EnumeracionOrdenada(tipos: seq<TipoCamion>, tabla: map<nat, TipoCamion>)
  {
    && (forall k :: 0 <= k < |tipos| ==> tipos[k].id in tabla && tabla[tipos[k].id] == tipos[k])
    && (forall id :: id in tabla ==> exists k :: 0 <= k < |tipos| && tipos[k].id == id)
    && (forall a, b :: 0 <= a < b < |tipos| ==> tipos[a].id != tipos[b].id && tipos[a].pesoMaximo <= tipos[b].pesoMaximo)
  }

  /**
   * With the registry's capacity guard in force every listed type has
   * positive capacities and a non-zero id, so an empty group is given the
   * first type listed.
   */
  lemma TipoDelGrupoVacio(tipos: seq<TipoCamion>, tabla: map<nat, TipoCamion>, siguiente: nat)
    requires TablaTipos(tabla, siguiente) && EnumeracionOrdenada(tipos, tabla) && tipos != []
    ensures IdTipoElegido(tipos, []) == tipos[0].id && tipos[0].id != 0
  {
    assert tipos[0].id in tabla && tabla[tipos[0].id] == tipos[0];
    assert CabeEn(tipos[0], SumaPeso([]), SumaVolumen([]));
  }

  /**
   * So when the first unit alone fits no type and the first listed type has an
   * active truck, the run stops on the empty first group without creating any
   * dispatch.
   */
  lemma PlanGrupoVacio(l: Lectura, tipos: seq<TipoCamion>, cotizacionId: nat, ahora: Instante, primerId: nat,
                       tabla: map<nat, TipoCamion>, siguiente: nat)
    requires TablaTipos(tabla, siguiente) && EnumeracionOrdenada(tipos, tabla) && tipos != []
    requires Expansion(ItemsDe(l.items, cotizacionId)) != []
    requires !CabeGrupo(tipos, [Expansion(ItemsDe(l.items, cotizacionId))[0]])
    requires DestinoDe(l, cotizacionId).Some?
    requires ActivosDelTipo(l.camiones, tipos[0].id) != {}
    ensures Planificar(l, tipos, cotizacionId, ahora, primerId) == Corrida([], [], Some(GrupoVacio))
  {
    var items := ItemsDe(l.items, cotizacionId);
    var us := Expansion(items);
    var gs := Agrupamiento(tipos, us);
    AgrupamientoPrimerGrupo(tipos, us);
    TipoDelGrupoVacio(tipos, tabla, siguiente);
    var ctx := ContextoDe(l, tipos, cotizacionId, ahora, DestinoDe(l, cotizacionId).value);
    assert DecidirGrupo(ctx, gs[0], primerId) == Failure(GrupoVacio);
    assert gs[..1][..0] == [];
    assert Materializar(ctx, gs[..1], primerId) == Corrida([], [], Some(GrupoVacio));
    FalloPersiste(ctx, gs, primerId, 1);
  }

  /** The `mapSKU[u.SKU]++` loop over a group. */
  method ContarPorSku(grupo: seq<Unidad>) returns (mapSku: map<string, nat>)
    ensures mapSku == Conteo(grupo)
    ensures forall sku :: sku in mapSku <==> Cuenta(grupo, sku) > 0
    ensures forall sku :: sku in mapSku ==> mapSku[sku] == Cuenta(grupo, sku)
  {
    mapSku := map[];
    for i := 0 to |grupo|
      invariant mapSku == Conteo(grupo[..i])
    {
      var u := grupo[i];
      ConteoPaso(grupo[..i], u);
      assert grupo[..i + 1] == grupo[..i] + [u];
      if u.sku in mapSku {
        mapSku := mapSku[u.sku := mapSku[u.sku] + 1];
      } else {
        mapSku := mapSku[u.sku := 1];
      }
    }
    assert grupo[..|grupo|] == grupo;
    forall sku
      ensures sku in mapSku <==> Cuenta(grupo, sku) > 0
      ensures sku in mapSku ==> mapSku[sku] == Cuenta(grupo, sku)
    {
      ConteoExacto(grupo, sku);
    }
  }

  /** The `for sku, cantidad := range mapSKU` loop: one row per SKU, in whatever order the map yields. */
  method RegistrarManifiesto(db: BaseDatos, despachoId: nat, mapSku: map<string, nat>)
    modifies db`productosDespacho
    ensures db.productosDespacho == old(db.productosDespacho) + Lineas(despachoId, mapSku)
  {
    var pendientes := mapSku.Keys;
    while pendientes != {}
      invariant pendientes <= mapSku.Keys
      invariant db.productosDespacho == old(db.productosDespacho) + LineasDe(despachoId, mapSku, mapSku.Keys - pendientes)
      decreases pendientes
    {
      var sku :| sku in pendientes;
      LineasDeAgregar(despachoId, mapSku, mapSku.Keys - pendientes, sku);
      assert (mapSku.Keys - pendientes) + {sku} == mapSku.Keys - (pendientes - {sku});
      db.productosDespacho := db.productosDespacho + multiset{LineaDespacho(despachoId, sku, mapSku[sku])};
      pendientes := pendientes - {sku};
    }
    assert mapSku.Keys - pendientes == mapSku.Keys;
  }

  /** The decision of one iteration: the type, the first active truck of that type, then the record. */
  method DecidirDespacho(tipos: seq<TipoCamion>, camiones: map<nat, Camion>, cotizacionId: nat, destino: nat,
                         fecha: Instante, grupo: seq<Unidad>, id: nat) returns (r: Result<Despacho, ErrorDespacho>)
    ensures r == DecidirGrupo(Contexto(tipos, camiones, cotizacionId, destino, fecha), grupo, id)
  {
    var tipoCamionId := ElegirTipo(tipos, grupo);
    if tipoCamionId == 0 {
      return Failure(SinTipoParaGrupo);
    }
    var camion := BuscarCamionActivo(camiones, tipoCamionId);
    if camion.None? {
      return Failure(SinCamionDelTipo(tipoCamionId));
    }
    if |grupo| == 0 {
      return Failure(GrupoVacio);
    }
    r := Success(Despacho(id, cotizacionId, camion.value.id, grupo[0].sucursalId, destino, fecha, 0.0, ESTADO_PENDIENTE));
  }

  /**
   * One iteration of the per-group loop: decide, then insert the dispatch
   * with the next id and its manifest.
   */
  method RegistrarGrupo(db: BaseDatos, tipos: seq<TipoCamion>, cotizacionId: nat, destino: nat, fecha: Instante,
                        grupo: seq<Unidad>, ghost ctx: Contexto, ghost id: nat) returns (r: Result<Despacho, ErrorDespacho>)
    requires db.Valid()
    requires ctx == Contexto(tipos, db.camiones, cotizacionId, destino, fecha) && id == db.siguienteDespachoId
    modifies db`despachos, db`productosDespacho, db`siguienteDespachoId
    ensures db.Valid()
    ensures r == DecidirGrupo(ctx, grupo, id)
    ensures r.Failure? ==> db.despachos == old(db.despachos) && db.productosDespacho == old(db.productosDespacho)
                           && db.siguienteDespachoId == old(db.siguienteDespachoId)
    ensures r.Success? ==>
      && db.despachos == old(db.despachos)[r.value.id := r.value]
      && db.productosDespacho == old(db.productosDespacho) + Lineas(r.value.id, Conteo(grupo))
      && db.siguienteDespachoId == old(db.siguienteDespachoId) + 1
  {
    r := DecidirDespacho(tipos, db.camiones, cotizacionId, destino, fecha, grupo, db.siguienteDespachoId);
    if r.Success? {
      db.despachos := db.despachos[r.value.id := r.value];
      db.siguienteDespachoId := db.siguienteDespachoId + 1;
      var mapSku := ContarPorSku(grupo);
      RegistrarManifiesto(db, r.value.id, mapSku);
    }
  }

  /** One iteration of the per-group loop, stated against the run so far. */
  method RegistrarSiguiente(db: BaseDatos, tipos: seq<TipoCamion>, cotizacionId: nat, destino: nat, fecha: Instante,
                            grupos: seq<seq<Unidad>>, i: nat, ghost ctx: Contexto, ghost primerId: nat,
                            ghost despachos: seq<Despacho>, ghost manifiestos: seq<map<string, nat>>,
                            ghost tabla: map<nat, Despacho>, ghost lineas: multiset<LineaDespacho>)
    returns (hecho: Result<Despacho, ErrorDespacho>)
    requires db.Valid() && i < |grupos|
    requires ctx == Contexto(tipos, db.camiones, cotizacionId, destino, fecha)
    requires Materializar(ctx, grupos[..i], primerId) == Corrida(despachos, manifiestos, None)
    requires db.despachos == ConCreados(tabla, despachos)
    requires db.productosDespacho == lineas + LineasCorrida(despachos, manifiestos)
    requires db.siguienteDespachoId == primerId + |despachos|
    modifies db`despachos, db`productosDespacho, db`siguienteDespachoId
    ensures db.Valid()
    ensures hecho.Failure? ==>
      Materializar(ctx, grupos[..i + 1], primerId) == Corrida(despachos, manifiestos, Some(hecho.error))
    ensures hecho.Success? ==>
      && Materializar(ctx, grupos[..i + 1], primerId)
         == Corrida(despachos + [hecho.value], manifiestos + [Conteo(grupos[i])], None)
      && db.despachos == ConCreados(tabla, despachos + [hecho.value])
      && db.productosDespacho == lineas + LineasCorrida(despachos + [hecho.value], manifiestos + [Conteo(grupos[i])])
      && db.siguienteDespachoId == primerId + |despachos| + 1
    ensures hecho.Failure? ==> db.despachos == old(db.despachos) && db.productosDespacho == old(db.productosDespacho)
                               && db.siguienteDespachoId == old(db.siguienteDespachoId)
  {
    ghost var t0, l0 := db.despachos, db.productosDespacho;
    ghost var id := primerId + |despachos|;
    var grupo := grupos[i];
    hecho := RegistrarGrupo(db, tipos, cotizacionId, destino, fecha, grupo, ctx, id);
    MaterializarPaso(ctx, grupos, primerId, i, id, despachos, manifiestos, hecho);
    if hecho.Success? {
      RegistroPaso(despachos, manifiestos, tabla, lineas, hecho.value, Conteo(grupos[i]),
                   t0, l0, db.despachos, db.productosDespacho);
    }
  }

  /** What one registered group means for the tables of the run so far. */
  lemma RegistroPaso(despachos: seq<Despacho>, manifiestos: seq<map<string, nat>>,
                     tabla: map<nat, Despacho>, lineas: multiset<LineaDespacho>,
                     d: Despacho, m: map<string, nat>,
                     t0: map<nat, Despacho>, l0: multiset<LineaDespacho>,
                     t: map<nat, Despacho>, ls: multiset<LineaDespacho>)
    requires t0 == ConCreados(tabla, despachos) && l0 == lineas + LineasCorrida(despachos, manifiestos)
    requires t == t0[d.id := d] && ls == l0 + Lineas(d.id, m)
    ensures t == ConCreados(tabla, despachos + [d])
    ensures ls == lineas + LineasCorrida(despachos + [d], manifiestos + [m])
  {
    ConCreadosPaso(tabla, despachos, d);
    LineasCorridaPaso(despachos, manifiestos, d, m);
  }

  /** The per-group loop: registers the groups in order and stops at the first failure. */
  method RegistrarGrupos(db: BaseDatos, tipos: seq<TipoCamion>, cotizacionId: nat, destino: nat, fecha: Instante,
                         grupos: seq<seq<Unidad>>) returns (r: Result<seq<Despacho>, ErrorDespacho>)
    requires db.Valid()
    modifies db`despachos, db`productosDespacho, db`siguienteDespachoId
    ensures db.Valid()
    ensures var c := Materializar(Contexto(tipos, db.camiones, cotizacionId, destino, fecha), grupos, old(db.siguienteDespachoId));
      && r == Resultado(c)
      && db.despachos == ConCreados(old(db.despachos), c.creados)
      && db.productosDespacho == old(db.productosDespacho) + LineasCorrida(c.creados, c.manifiestos)
      && db.siguienteDespachoId == old(db.siguienteDespachoId) + |c.creados|
  {
    ghost var ctx := Contexto(tipos, db.camiones, cotizacionId, destino, fecha);
    ghost var primerId := db.siguienteDespachoId;
    ghost var tabla, lineas := db.despachos, db.productosDespacho;
    var despachos: seq<Despacho> := [];
    ghost var manifiestos: seq<map<string, nat>> := [];
    for i := 0 to |grupos|
      invariant Materializar(ctx, grupos[..i], primerId) == Corrida(despachos, manifiestos, None)
      invariant db.despachos == ConCreados(tabla, despachos)
      invariant db.productosDespacho == lineas + LineasCorrida(despachos, manifiestos)
      invariant db.siguienteDespachoId == primerId + |despachos|
      invariant db.Valid()
    {
      var hecho := RegistrarSiguiente(db, tipos, cotizacionId, destino, fecha, grupos, i, ctx, primerId,
                                      despachos, manifiestos, tabla, lineas);
      if hecho.Failure? {
        FalloPersiste(ctx, grupos, primerId, i + 1);
        return Failure(hecho.error);
      }
      despachos := despachos + [hecho.value];
      manifiestos := manifiestos + [Conteo(grupos[i])];
    }
    assert grupos[..|grupos|] == grupos;
    r := Success(despachos);
  }

  /**
   * CalcularDespacho: deletes the quotation's dispatches, then runs the plan;
   * each dispatch is inserted with the next id, followed by its manifest rows.
   * A failure inside the loop keeps what was inserted before it.
   */
  method CalcularDespacho(db: BaseDatos, cotizacionId: nat, tipos: seq<TipoCamion>, ahora: Instante)
    returns (r: Result<seq<Despacho>, ErrorDespacho>)
    requires db.Valid()
    requires EnumeracionOrdenada(tipos, db.tiposCamion)
    modifies db`despachos, db`productosDespacho, db`siguienteDespachoId
    ensures db.Valid()
    ensures var c := Planificar(old(LecturaDe(db)), tipos, cotizacionId, ahora, old(db.siguienteDespachoId));
      && r == Resultado(c)
      && db.despachos == ConCreados(SinCotizacion(old(db.despachos), cotizacionId), c.creados)
      && db.productosDespacho == old(db.productosDespacho) + LineasCorrida(c.creados, c.manifiestos)
      && db.siguienteDespachoId == old(db.siguienteDespachoId) + |c.creados|
  {
    db.despachos := SinCotizacion(db.despachos, cotizacionId);
    r := Planear(db, cotizacionId, tipos, ahora);
  }

  /** The part of CalcularDespacho after the delete: read, expand, pack, then register the groups. */
  method Planear(db: BaseDatos, cotizacionId: nat, tipos: seq<TipoCamion>, ahora: Instante)
    returns (r: Result<seq<Despacho>, ErrorDespacho>)
    requires db.Valid()
    modifies db`despachos, db`productosDespacho, db`siguienteDespachoId
    ensures db.Valid()
    ensures var c := Planificar(old(LecturaDe(db)), tipos, cotizacionId, ahora, old(db.siguienteDespachoId));
      && r == Resultado(c)
      && db.despachos == ConCreados(old(db.despachos), c.creados)
      && db.productosDespacho == old(db.productosDespacho) + LineasCorrida(c.creados, c.manifiestos)
      && db.siguienteDespachoId == old(db.siguienteDespachoId) + |c.creados|
  {
    ghost var lectura := LecturaDe(db);
    ghost var primerId := db.siguienteDespachoId;
    ghost var c: Corrida;
    var items := ItemsDe(db.itemsCotizacion, cotizacionId);
    if |items| == 0 {
      r, c := Failure(SinProductos), Corrida([], [], Some(SinProductos));
    } else if |tipos| == 0 {
      r, c := Failure(SinTiposCamion), Corrida([], [], Some(SinTiposCamion));
    } else {
      var unidades := DesglosarUnidades(items);
      var destino := BuscarDireccion(db.dirClientes, RutDe(db.cotizaciones, cotizacionId));
      if destino.None? {
        r, c := Failure(SinDestino), Corrida([], [], Some(SinDestino));
      } else {
        var grupos := AgruparUnidades(tipos, unidades);
        c := Materializar(Contexto(tipos, db.camiones, cotizacionId, destino.value.id, ahora + DIA), grupos, primerId);
        r := RegistrarGrupos(db, tipos, cotizacionId, destino.value.id, ahora + DIA, grupos);
      }
    }
    assert c == Planificar(lectura, tipos, cotizacionId, ahora, primerId);
  }

  // ----- CreateDespacho -----

  /** Units of a product over a dispatch's lines. */
  function TotalPedido(productos: seq<LineaDespacho>, productoId: string): int
  {
    if productos == [] then 0
    else
      var p := productos[|productos| - 1];
      TotalPedido(productos[..|productos| - 1], productoId) + (if p.productoId == productoId then p.cantidad else 0)
  }

  /**
   * The stock updates of CreateDespacho, line by line at the dispatch's
   * origin branch: `cantidad - ?` with no lower bound; a line whose
   * (product, branch) row does not exist stops the transaction.
   */
  function DescontarStock(stock: map<ClaveStock, int>, productos: seq<LineaDespacho>, origen: nat)
    : Result<map<ClaveStock, int>, ErrorDespacho>
  {
    if productos == [] then Success(stock)
    else match DescontarStock(stock, productos[..|productos| - 1], origen)
      case Failure(e) => Failure(e)
      case Success(s) =>
        var p := productos[|productos| - 1];
        var clave := ClaveStock(p.productoId, origen);
        if clave in s then Success(s[clave := s[clave] - p.cantidad]) else Failure(SinStock(p.productoId))
  }

  /**
   * The discount succeeds exactly when every line has a stock row at the
   * origin; then no row is added or removed, each row of the origin loses
   * the units its product is ordered in, and every other row is unchanged.
   */
  lemma {:induction false} DescontarStockExito(stock: map<ClaveStock, int>, productos: seq<LineaDespacho>, origen: nat)
    ensures DescontarStock(stock, productos, origen).Success? <==>
      forall i :: 0 <= i < |productos| ==> ClaveStock(productos[i].productoId, origen) in stock
    ensures DescontarStock(stock, productos, origen).Success? ==>
      var s := DescontarStock(stock, productos, origen).value;
      && s.Keys == stock.Keys
      && forall k :: k in stock ==>
           s[k] == if k.sucursalId == origen then stock[k] - TotalPedido(productos, k.productoId) else stock[k]
  {
    if productos != [] {
      var pre := productos[..|productos| - 1];
      DescontarStockExito(stock, pre, origen);
      assert forall i :: 0 <= i < |pre| ==> pre[i] == productos[i];
    }
  }

  /** A failed discount names the first line, in order, whose stock row is missing. */
  lemma {:induction false} DescontarStockFallo(stock: map<ClaveStock, int>, productos: seq<LineaDespacho>, origen: nat)
    returns (j: nat)
    requires DescontarStock(stock, productos, origen).Failure?
    ensures j < |productos|
    ensures DescontarStock(stock, productos, origen) == Failure(SinStock(productos[j].productoId))
    ensures ClaveStock(productos[j].productoId, origen) !in stock
    ensures forall i :: 0 <= i < j ==> ClaveStock(productos[i].productoId, origen) in stock
  {
    var pre := productos[..|productos| - 1];
    DescontarStockExito(stock, pre, origen);
    if DescontarStock(stock, pre, origen).Failure? {
      j := DescontarStockFallo(stock, pre, origen);
    } else {
      j := |productos| - 1;
      assert forall i :: 0 <= i < |pre| ==> pre[i] == productos[i];
    }
  }

  lemma FalloStockPersiste(stock: map<ClaveStock, int>, productos: seq<LineaDespacho>, origen: nat, k: nat)
    requires k <= |productos|
    requires DescontarStock(stock, productos[..k], origen).Failure?
    ensures DescontarStock(stock, productos, origen) == DescontarStock(stock, productos[..k], origen)
    decreases |productos| - k
  {
    if k < |productos| {
      var pre := productos[..|productos| - 1];
      assert pre[..k] == productos[..k];
      FalloStockPersiste(stock, pre, origen, k);
    } else {
      assert productos[..k] == productos;
    }
  }

  /** The lines as inserted: each with the new dispatch's id. */
  function ConDespacho(productos: seq<LineaDespacho>, despachoId: nat): (r: seq<LineaDespacho>)
    ensures |r| == |productos|
    ensures forall i :: 0 <= i < |r| ==> r[i] == productos[i].(despachoId := despachoId)
  {
    seq(|productos|, i requires 0 <= i < |productos| => productos[i].(despachoId := despachoId))
  }

  /**
   * The loop over the lines inside the transaction: each line, tagged with the
   * dispatch id, is staged for insertion and its stock row discounted.
   */
  method DescontarLineas(stock: map<ClaveStock, int>, productos: seq<LineaDespacho>, despachoId: nat, origen: nat)
    returns (r: Result<map<ClaveStock, int>, ErrorDespacho>, lineas: seq<LineaDespacho>)
    ensures r == DescontarStock(stock, productos, origen)
    ensures r.Success? ==> lineas == ConDespacho(productos, despachoId)
  {
    var actual := stock;
    lineas := [];
    for i := 0 to |productos|
      invariant DescontarStock(stock, productos[..i], origen) == Success(actual)
      invariant lineas == ConDespacho(productos[..i], despachoId)
    {
      var p := productos[i].(despachoId := despachoId);
      assert productos[..i + 1][..i] == productos[..i];
      lineas := lineas + [p];
      var clave := ClaveStock(p.productoId, origen);
      if clave !in actual {
        FalloStockPersiste(stock, productos, origen, i + 1);
        return Failure(SinStock(p.productoId)), lineas;
      }
      actual := actual[clave := actual[clave] - p.cantidad];
    }
    assert productos[..|productos|] == productos;
    r := Success(actual);
  }

  /**
   * CreateDespacho: in one transaction, rejects a date more than a day in the
   * past, inserts the dispatch with the next id and its lines, and discounts
   * the stock at the origin; any failure leaves the store as it was.
   */
  method CreateDespacho(db: BaseDatos, despacho: Despacho, productos: seq<LineaDespacho>, ahora: Instante)
    returns (r: Result<Despacho, ErrorDespacho>)
    requires db.Valid()
    modifies db`despachos, db`productosDespacho, db`stockSucursal, db`siguienteDespachoId
    ensures db.Valid()
    ensures despacho.fechaDespacho < ahora - DIA ==> r == Failure(FechaEnElPasado)
    ensures despacho.fechaDespacho >= ahora - DIA ==>
      match DescontarStock(old(db.stockSucursal), productos, despacho.origen)
      case Failure(e) => r == Failure(e)
      case Success(stock) =>
        var id := old(db.siguienteDespachoId);
        && r == Success(despacho.(id := id))
        && db.despachos == old(db.despachos)[id := despacho.(id := id)]
        && db.productosDespacho == old(db.productosDespacho) + multiset(ConDespacho(productos, id))
        && db.stockSucursal == stock
        && db.siguienteDespachoId == id + 1
    ensures r.Failure? ==> db.despachos == old(db.despachos) && db.productosDespacho == old(db.productosDespacho)
                           && db.stockSucursal == old(db.stockSucursal) && db.siguienteDespachoId == old(db.siguienteDespachoId)
  {
    if despacho.fechaDespacho < ahora - DIA {
      return Failure(FechaEnElPasado);
    }
    var id := db.siguienteDespachoId;
    var nuevo := despacho.(id := id);
    var descuento, lineas := DescontarLineas(db.stockSucursal, productos, id, nuevo.origen);
    if descuento.Failure? {
      return Failure(descuento.error);
    }
    db.despachos := db.despachos[id := nuevo];
    db.productosDespacho := db.productosDespacho + multiset(lineas);
    db.stockSucursal := descuento.value;
    db.siguienteDespachoId := id + 1;
    r := Success(nuevo);
  }

  // ----- AprobarDespacho -----

  /** `UPDATE despachos SET estado = 'aprobado' WHERE cotizacion_id = ?` */
  function Aprobar(t: map<nat, Despacho>, cotizacionId: nat): (r: map<nat, Despacho>)
    ensures r.Keys == t.Keys
    ensures forall id :: id in t && t[id].cotizacionId == cotizacionId ==> r[id].estado == ESTADO_APROBADO
    ensures forall id :: id in t ==> r[id].(estado := t[id].estado) == t[id]
    ensures forall id :: id in t && t[id].cotizacionId != cotizacionId ==> r[id] == t[id]
  {
    map id | id in t :: if t[id].cotizacionId == cotizacionId then t[id].(estado := ESTADO_APROBADO) else t[id]
  }

  /** Approving twice is approving once. */
  lemma AprobarIdempotente(t: map<nat, Despacho>, cotizacionId: nat)
    ensures Aprobar(Aprobar(t, cotizacionId), cotizacionId) == Aprobar(t, cotizacionId)
  {
    var a := Aprobar(t, cotizacionId);
    forall id | id in a
      ensures Aprobar(a, cotizacionId)[id] == a[id]
    {
      assert a[id].cotizacionId == t[id].cotizacionId;
    }
  }

  /** Approving one quotation's dispatches commutes with approving another's. */
  lemma AprobarConmuta(t: map<nat, Despacho>, c1: nat, c2: nat)
    ensures Aprobar(Aprobar(t, c1), c2) == Aprobar(Aprobar(t, c2), c1)
  {
    var a, b := Aprobar(Aprobar(t, c1), c2), Aprobar(Aprobar(t, c2), c1);
    forall id | id in t
      ensures a[id] == b[id]
    {
      assert Aprobar(t, c1)[id].cotizacionId == t[id].cotizacionId;
      assert Aprobar(t, c2)[id].cotizacionId == t[id].cotizacionId;
    }
  }

  /**
   * AprobarDespacho: approves the quotation's dispatches; reports an error
   * exactly when the quotation has none, in which case nothing changes.
   */
  method AprobarDespacho(db: BaseDatos, cotizacionId: nat) returns (err: Option<ErrorDespacho>)
    requires db.Valid()
    modifies db`despachos
    ensures db.Valid()
    ensures db.despachos == Aprobar(old(db.despachos), cotizacionId)
    ensures err.Some? <==> forall id :: id in old(db.despachos) ==> old(db.despachos)[id].cotizacionId != cotizacionId
    ensures err.Some? ==> err.value == SinDespachos && db.despachos == old(db.despachos)
  {
    var afectadas := exists id :: id in db.despachos && db.despachos[id].cotizacionId == cotizacionId;
    db.despachos := Aprobar(db.despachos, cotizacionId);
    if !afectadas {
      return Some(SinDespachos);
    }
    err := None;
  }
}
