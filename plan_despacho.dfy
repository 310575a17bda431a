/**
 * What one run of CalcularDespacho / CalcularDespachoConDistancia decides,
 * as functions of what it reads: the per-SKU manifest of a group, the
 * decision taken for each group, the dispatches created in order, and the
 * effect on the dispatch table. The method that runs it against the store is
 * ControladorDespacho.CalcularDespacho.
 */
module PlanDespacho {
  import opened Wrappers
  import opened Modelo
  import opened Unidades
  import opened Cargas
  import opened Almacen

  // ----- Manifest of one group (mapSKU) -----

  function SkusDe(grupo: seq<Unidad>): set<string>
  {
    set u | u in grupo :: u.sku
  }

  /** One entry per distinct SKU of the group, holding how many of its units carry it. */
  function Conteo(grupo: seq<Unidad>): map<string, nat>
  {
    map s | s in SkusDe(grupo) :: Cuenta(grupo, s)
  }

  function CantidadEn(m: map<string, nat>, sku: string): nat
  {
    if sku in m then m[sku] else 0
  }

  lemma {:induction false} CuentaPositiva(grupo: seq<Unidad>, sku: string)
    ensures Cuenta(grupo, sku) > 0 <==> sku in SkusDe(grupo)
  {
    if grupo != [] {
      var pre := grupo[..|grupo| - 1];
      CuentaPositiva(pre, sku);
      assert grupo == pre + [grupo[|grupo| - 1]];
      assert SkusDe(grupo) == SkusDe(pre) + {grupo[|grupo| - 1].sku};
    }
  }

  /** The manifest holds, for every SKU, the number of the group's units that carry it. */
  lemma ConteoExacto(grupo: seq<Unidad>, sku: string)
    ensures CantidadEn(Conteo(grupo), sku) == Cuenta(grupo, sku)
    ensures sku in Conteo(grupo) <==> Cuenta(grupo, sku) > 0
  {
    CuentaPositiva(grupo, sku);
  }

  lemma ConteoPaso(grupo: seq<Unidad>, u: Unidad)
    ensures Conteo(grupo + [u]) == Conteo(grupo)[u.sku := CantidadEn(Conteo(grupo), u.sku) + 1]
  {
    var g := grupo + [u];
    assert g[..|g| - 1] == grupo;
    assert SkusDe(g) == SkusDe(grupo) + {u.sku};
    forall s | s in SkusDe(g)
      ensures Conteo(g)[s] == Conteo(grupo)[u.sku := CantidadEn(Conteo(grupo), u.sku) + 1][s]
    {
      CuentaPositiva(grupo, s);
    }
  }

  // ----- Manifest rows -----

  /** The rows `for sku, cantidad := range mapSKU` inserts for a dispatch, restricted to some SKUs. */
  function LineasDe(id: nat, m: map<string, nat>, skus: set<string>): multiset<LineaDespacho>
  {
    multiset(set s | s in skus && s in m :: LineaDespacho(id, s, m[s]))
  }

  function Lineas(id: nat, m: map<string, nat>): multiset<LineaDespacho>
  {
    LineasDe(id, m, m.Keys)
  }

  lemma LineasDeAgregar(id: nat, m: map<string, nat>, skus: set<string>, sku: string)
    requires sku in m && sku !in skus
    ensures LineasDe(id, m, skus + {sku}) == LineasDe(id, m, skus) + multiset{LineaDespacho(id, sku, m[sku])}
  {
    var a := set s | s in skus && s in m :: LineaDespacho(id, s, m[s]);
    var b := set s | s in skus + {sku} && s in m :: LineaDespacho(id, s, m[s]);
    var x := LineaDespacho(id, sku, m[sku]);
    assert x !in a;
    assert b == a + {x};
  }

  /** Rows of a whole run: each created dispatch with its group's manifest. */
  function LineasCorrida(creados: seq<Despacho>, manifiestos: seq<map<string, nat>>): multiset<LineaDespacho>
  {
    if creados == [] || manifiestos == [] then multiset{}
    else LineasCorrida(creados[..|creados| - 1], manifiestos[..|manifiestos| - 1])
         + Lineas(creados[|creados| - 1].id, manifiestos[|manifiestos| - 1])
  }

  lemma LineasCorridaPaso(creados: seq<Despacho>, manifiestos: seq<map<string, nat>>, d: Despacho, m: map<string, nat>)
    ensures LineasCorrida(creados + [d], manifiestos + [m]) == LineasCorrida(creados, manifiestos) + Lineas(d.id, m)
  {
    assert (creados + [d])[..|creados|] == creados;
    assert (manifiestos + [m])[..|manifiestos|] == manifiestos;
  }

  /** Units of a SKU over all manifests of a run. */
  function SumaConteos(ms: seq<map<string, nat>>, sku: string): nat
  {
    if ms == [] then 0 else SumaConteos(ms[..|ms| - 1], sku) + CantidadEn(ms[|ms| - 1], sku)
  }

  lemma {:induction false} SumaConteosGrupos(ms: seq<map<string, nat>>, gs: seq<seq<Unidad>>, sku: string)
    requires |ms| == |gs|
    requires forall i :: 0 <= i < |gs| ==> ms[i] == Conteo(gs[i])
    ensures SumaConteos(ms, sku) == Cuenta(Aplanar(gs), sku)
  {
    if gs != [] {
      var n := |gs| - 1;
      SumaConteosGrupos(ms[..n], gs[..n], sku);
      ConteoExacto(gs[n], sku);
      CuentaConcat(Aplanar(gs[..n]), gs[n], sku);
    }
  }

  // ----- Materialisation -----

  /** What a run reads besides the truck types. */
  datatype Lectura = Lectura(
    items: seq<ItemCotizacion>,
    cotizaciones: map<nat, Cotizacion>,
    dirClientes: map<nat, DirCliente>,
    camiones: map<nat, Camion>)

  /** Fixed inputs of the per-group loop. */
  datatype Contexto = Contexto(
    tipos: seq<TipoCamion>,
    camiones: map<nat, Camion>,
    cotizacionId: nat,
    destino: nat,
    fecha: Instante)

  /** The outcome of a run: dispatches created in order, their manifests, and the failure that stopped it, if any. */
  datatype Corrida = Corrida(creados: seq<Despacho>, manifiestos: seq<map<string, nat>>, fallo: Option<ErrorDespacho>)

  /**
   * One group: its type (first fitting, id 0 meaning none), the first active
   * truck of that type, then the dispatch record, whose origin is the branch
   * of the group's first unit. This is the reference the method
   * `ControladorDespacho.DecidirDespacho` is proved against; what the decision
   * means is stated independently by `DespachoDelGrupo`, through
   * `DecidirGrupoExito` and `DecidirGrupoFallos`.
   */
  ghost function DecidirGrupo(ctx: Contexto, grupo: seq<Unidad>, id: nat): Result<Despacho, ErrorDespacho>
  {
    var tipoId := IdTipoElegido(ctx.tipos, grupo);
    if tipoId == 0 then Failure(SinTipoParaGrupo)
    else match PrimerCamionActivo(ctx.camiones, tipoId)
      case None => Failure(SinCamionDelTipo(tipoId))
      case Some(camion) =>
        if grupo == [] then Failure(GrupoVacio)
        else Success(Despacho(id, ctx.cotizacionId, camion.id, grupo[0].sucursalId, ctx.destino, ctx.fecha, 0.0, ESTADO_PENDIENTE))
  }

  /** The per-group loop: stops at the first failing group, keeping what it created before. */
  ghost function Materializar(ctx: Contexto, grupos: seq<seq<Unidad>>, primerId: nat): Corrida
  {
    if grupos == [] then Corrida([], [], None)
    else
      var previa := Materializar(ctx, grupos[..|grupos| - 1], primerId);
      var grupo := grupos[|grupos| - 1];
      if previa.fallo.Some? then previa
      else match DecidirGrupo(ctx, grupo, primerId + |previa.creados|)
        case Failure(e) => Corrida(previa.creados, previa.manifiestos, Some(e))
        case Success(d) => Corrida(previa.creados + [d], previa.manifiestos + [Conteo(grupo)], None)
  }

  /** One more group after a run that has not failed, given the group's decision. */
  lemma MaterializarPaso(ctx: Contexto, grupos: seq<seq<Unidad>>, primerId: nat, i: nat, id: nat,
                         creados: seq<Despacho>, manifiestos: seq<map<string, nat>>, decision: Result<Despacho, ErrorDespacho>)
    requires i < |grupos|
    requires Materializar(ctx, grupos[..i], primerId) == Corrida(creados, manifiestos, None)
    requires id == primerId + |creados| && decision == DecidirGrupo(ctx, grupos[i], id)
    ensures decision.Failure? ==> Materializar(ctx, grupos[..i + 1], primerId) == Corrida(creados, manifiestos, Some(decision.error))
    ensures decision.Success? ==>
      Materializar(ctx, grupos[..i + 1], primerId) == Corrida(creados + [decision.value], manifiestos + [Conteo(grupos[i])], None)
  {
    assert grupos[..i + 1][..i] == grupos[..i];
  }

  /** Once a group fails, later groups change nothing. */
  lemma {:induction false} FalloPersiste(ctx: Contexto, grupos: seq<seq<Unidad>>, primerId: nat, k: nat)
    requires k <= |grupos|
    requires Materializar(ctx, grupos[..k], primerId).fallo.Some?
    ensures Materializar(ctx, grupos, primerId) == Materializar(ctx, grupos[..k], primerId)
    decreases |grupos| - k
  {
    if k < |grupos| {
      var pre := grupos[..|grupos| - 1];
      assert pre[..k] == grupos[..k];
      FalloPersiste(ctx, pre, primerId, k);
    } else {
      assert grupos[..k] == grupos;
    }
  }

  /**
   * Group i gets dispatch i with id primerId + i and manifest Conteo(group i),
   * as long as no earlier group failed; the run stops at the first failing group.
   */
  lemma MaterializarCaracterizacion(ctx: Contexto, grupos: seq<seq<Unidad>>, primerId: nat)
    ensures var c := Materializar(ctx, grupos, primerId);
      && |c.creados| == |c.manifiestos| <= |grupos|
      && (c.fallo.None? ==> |c.creados| == |grupos|)
      && (c.fallo.Some? ==>
            |c.creados| < |grupos| &&
            DecidirGrupo(ctx, grupos[|c.creados|], primerId + |c.creados|) == Failure(c.fallo.value))
      && (forall i :: 0 <= i < |c.creados| ==>
            DecidirGrupo(ctx, grupos[i], primerId + i) == Success(c.creados[i]) && c.manifiestos[i] == Conteo(grupos[i]))
  {
    MaterializarForma(ctx, grupos, primerId);
    var c := Materializar(ctx, grupos, primerId);
    forall i | 0 <= i < |c.creados|
      ensures DecidirGrupo(ctx, grupos[i], primerId + i) == Success(c.creados[i]) && c.manifiestos[i] == Conteo(grupos[i])
    {
      MaterializarCreado(ctx, grupos, primerId, i);
    }
  }

  /** How far a run gets, and why it stopped. */
  lemma {:induction false} MaterializarForma(ctx: Contexto, grupos: seq<seq<Unidad>>, primerId: nat)
    ensures var c := Materializar(ctx, grupos, primerId);
      && |c.creados| == |c.manifiestos| <= |grupos|
      && (c.fallo.None? ==> |c.creados| == |grupos|)
      && (c.fallo.Some? ==>
            |c.creados| < |grupos| &&
            DecidirGrupo(ctx, grupos[|c.creados|], primerId + |c.creados|) == Failure(c.fallo.value))
  {
    if grupos != [] {
      var pre := grupos[..|grupos| - 1];
      MaterializarForma(ctx, pre, primerId);
      var previa := Materializar(ctx, pre, primerId);
      if previa.fallo.Some? {
        assert grupos[|previa.creados|] == pre[|previa.creados|];
      } else {
        assert |previa.creados| == |pre| && grupos[|pre|] == grupos[|grupos| - 1];
      }
    }
  }

  /** The i-th dispatch a run creates is the decision for the i-th group, and its manifest counts that group. */
  lemma {:induction false} MaterializarCreado(ctx: Contexto, grupos: seq<seq<Unidad>>, primerId: nat, i: nat)
    requires i < |grupos| && i < |Materializar(ctx, grupos, primerId).creados|
    ensures var c := Materializar(ctx, grupos, primerId);
      i < |c.manifiestos|
      && DecidirGrupo(ctx, grupos[i], primerId + i) == Success(c.creados[i]) && c.manifiestos[i] == Conteo(grupos[i])
  {
    var pre := grupos[..|grupos| - 1];
    MaterializarForma(ctx, pre, primerId);
    var previa := Materializar(ctx, pre, primerId);
    var c := Materializar(ctx, grupos, primerId);
    if i < |previa.creados| {
      MaterializarCreado(ctx, pre, primerId, i);
      assert pre[i] == grupos[i];
      assert c.creados[i] == previa.creados[i] && c.manifiestos[i] == previa.manifiestos[i];
    } else {
      assert previa.fallo.None? && i == |pre|;
      assert grupos[i] == grupos[|grupos| - 1];
    }
  }

  // ----- A whole run -----

  /** The quotation's lines (`WHERE cotizacion_id = ?`), in the order the store holds them. */
  function ItemsDe(items: seq<ItemCotizacion>, cotizacionId: nat): (r: seq<ItemCotizacion>)
    ensures forall i :: 0 <= i < |r| ==> r[i].cotizacionId == cotizacionId
    ensures forall it :: it in r <==> it in items && it.cotizacionId == cotizacionId
    ensures |r| <= |items|
  {
    if items == [] then []
    else
      var pre := ItemsDe(items[..|items| - 1], cotizacionId);
      assert items == items[..|items| - 1] + [items[|items| - 1]];
      if items[|items| - 1].cotizacionId == cotizacionId then pre + [items[|items| - 1]] else pre
  }

  /** The selection keeps the store's order: selecting from two stretches of the table is selecting from each in turn. */
  lemma {:induction false} ItemsDeConcatena(a: seq<ItemCotizacion>, b: seq<ItemCotizacion>, cotizacionId: nat)
    ensures ItemsDe(a + b, cotizacionId) == ItemsDe(a, cotizacionId) + ItemsDe(b, cotizacionId)
    decreases |b|
  {
    if b == [] {
      assert a + b == a;
    } else {
      var b0 := b[..|b| - 1];
      ItemsDeConcatena(a, b0, cotizacionId);
      assert (a + b)[..|a + b| - 1] == a + b0;
      assert (a + b)[|a + b| - 1] == b[|b| - 1];
    }
  }

  /** A line of another quotation is skipped, and a line of this one is kept, wherever it sits in the table. */
  lemma ItemsDeOrden(items: seq<ItemCotizacion>, cotizacionId: nat, i: nat)
    requires i < |items|
    ensures ItemsDe(items, cotizacionId)
         == ItemsDe(items[..i], cotizacionId)
            + (if items[i].cotizacionId == cotizacionId then [items[i]] else [])
            + ItemsDe(items[i + 1..], cotizacionId)
  {
    assert items == items[..i] + [items[i]] + items[i + 1..];
    ItemsDeConcatena(items[..i] + [items[i]], items[i + 1..], cotizacionId);
    ItemsDeConcatena(items[..i], [items[i]], cotizacionId);
    assert ItemsDe([items[i]], cotizacionId) == ItemsDe([], cotizacionId) + (if items[i].cotizacionId == cotizacionId then [items[i]] else []);
  }

  /** The client RUT of the quotation; a missing header reads as the empty string. */
  function RutDe(cotizaciones: map<nat, Cotizacion>, cotizacionId: nat): string
  {
    if cotizacionId in cotizaciones then cotizaciones[cotizacionId].rutCliente else ""
  }

  /** The whole run after the deletion of the quotation's previous dispatches. */
  ghost function Planificar(l: Lectura, tipos: seq<TipoCamion>, cotizacionId: nat, ahora: Instante, primerId: nat): Corrida
  {
    var items := ItemsDe(l.items, cotizacionId);
    if items == [] then Corrida([], [], Some(SinProductos))
    else if tipos == [] then Corrida([], [], Some(SinTiposCamion))
    else match DestinoDe(l, cotizacionId)
      case None => Corrida([], [], Some(SinDestino))
      case Some(destino) =>
        Materializar(Contexto(tipos, l.camiones, cotizacionId, destino.id, ahora + DIA),
                     Agrupamiento(tipos, Expansion(items)), primerId)
  }

  /**
   * The client's first address. The source reads the RUT through the first
   * line's quotation, which is the requested one.
   */
  ghost function DestinoDe(l: Lectura, cotizacionId: nat): Option<DirCliente>
  {
    PrimeraDireccion(l.dirClientes, RutDe(l.cotizaciones, cotizacionId))
  }

  /** The groups a run packs for a quotation. */
  function GruposDe(l: Lectura, tipos: seq<TipoCamion>, cotizacionId: nat): seq<seq<Unidad>>
  {
    Agrupamiento(tipos, Expansion(ItemsDe(l.items, cotizacionId)))
  }

  function Resultado(c: Corrida): Result<seq<Despacho>, ErrorDespacho>
  {
    if c.fallo.Some? then Failure(c.fallo.value) else Success(c.creados)
  }

  // ----- Effect on the dispatch table -----

  /** `DELETE FROM despachos WHERE cotizacion_id = ?` */
  function SinCotizacion(t: map<nat, Despacho>, cotizacionId: nat): (r: map<nat, Despacho>)
    ensures forall id :: id in r <==> id in t && t[id].cotizacionId != cotizacionId
    ensures forall id :: id in r ==> r[id] == t[id]
  {
    map id | id in t && t[id].cotizacionId != cotizacionId :: t[id]
  }

  /** The table after inserting the created dispatches in order. */
  function ConCreados(t: map<nat, Despacho>, creados: seq<Despacho>): map<nat, Despacho>
  {
    if creados == [] then t
    else ConCreados(t, creados[..|creados| - 1])[creados[|creados| - 1].id := creados[|creados| - 1]]
  }

  lemma ConCreadosPaso(t: map<nat, Despacho>, creados: seq<Despacho>, d: Despacho)
    ensures ConCreados(t, creados + [d]) == ConCreados(t, creados)[d.id := d]
  {
    assert (creados + [d])[..|creados|] == creados;
  }

  lemma {:induction false} ConCreadosTabla(base: map<nat, Despacho>, sig: nat, creados: seq<Despacho>)
    requires forall i :: 0 <= i < |creados| ==> creados[i].id == sig + i
    requires forall id :: id in base ==> id < sig
    ensures var r := ConCreados(base, creados);
      && (forall id :: id in r <==> id in base || sig <= id < sig + |creados|)
      && (forall id :: id in base ==> r[id] == base[id])
      && (forall i :: 0 <= i < |creados| ==> r[sig + i] == creados[i])
  {
    if creados != [] {
      var n := |creados| - 1;
      ConCreadosTabla(base, sig, creados[..n]);
    }
  }

  /**
   * Replacement: after deleting a quotation's rows and inserting the dispatches
   * of a run (consecutive ids from the next id, all for that quotation), the
   * quotation's rows are exactly the new dispatches, and the rows of every
   * other quotation are untouched.
   */
  lemma ReemplazoPorCotizacion(t: map<nat, Despacho>, sig: nat, cotizacionId: nat, creados: seq<Despacho>)
    requires TablaDespachos(t, sig) && sig >= 1
    requires forall i :: 0 <= i < |creados| ==> creados[i].id == sig + i && creados[i].cotizacionId == cotizacionId
    ensures var r := ConCreados(SinCotizacion(t, cotizacionId), creados);
      && TablaDespachos(r, sig + |creados|)
      && (forall id :: id in r && r[id].cotizacionId == cotizacionId <==> sig <= id < sig + |creados|)
      && (forall i :: 0 <= i < |creados| ==> r[sig + i] == creados[i])
      && (forall id :: id in t && t[id].cotizacionId != cotizacionId ==> id in r && r[id] == t[id])
      && (forall id :: id in r && r[id].cotizacionId != cotizacionId ==> id in t && r[id] == t[id])
  {
    var base := SinCotizacion(t, cotizacionId);
    ConCreadosTabla(base, sig, creados);
    var r := ConCreados(base, creados);
    forall id | sig <= id < sig + |creados|
      ensures id in r && r[id].cotizacionId == cotizacionId && r[id].id == id
    {
      assert r[sig + (id - sig)] == creados[id - sig];
    }
    forall id | id in r && r[id].cotizacionId != cotizacionId
      ensures id in t && r[id] == t[id]
    {
      assert id in base;
    }
  }

  // ----- What a run decides -----

  /**
   * The dispatch of a group, stated through the capacity rule: the group is
   * not empty, the first type in list order that takes its totals has a
   * non-zero id, the truck is the active truck of that type with the least
   * key, and the record carries the quotation, the branch of the group's
   * first unit, the destination and the date, with no value and pending.
   */
  ghost predicate DespachoDelGrupo(ctx: Contexto, grupo: seq<Unidad>, id: nat, d: Despacho)
  {
    && grupo != []
    && PrimerTipo(ctx.tipos, SumaPeso(grupo), SumaVolumen(grupo)).Some?
    && var t := ctx.tipos[PrimerTipo(ctx.tipos, SumaPeso(grupo), SumaVolumen(grupo)).value];
    && t.id != 0
    && (exists clave :: clave in ActivosDelTipo(ctx.camiones, t.id)
          && ctx.camiones[clave].id == d.camionId
          && forall otra :: otra in ActivosDelTipo(ctx.camiones, t.id) ==> clave <= otra)
    && d == Despacho(id, ctx.cotizacionId, d.camionId, grupo[0].sucursalId, ctx.destino, ctx.fecha, 0.0, ESTADO_PENDIENTE)
  }

  /** A group's decision succeeds with d exactly when d is the dispatch of the group. */
  lemma DecidirGrupoExito(ctx: Contexto, grupo: seq<Unidad>, id: nat, d: Despacho)
    ensures DecidirGrupo(ctx, grupo, id) == Success(d) <==> DespachoDelGrupo(ctx, grupo, id, d)
  {
    var tipoId := IdTipoElegido(ctx.tipos, grupo);
    var ids := ActivosDelTipo(ctx.camiones, tipoId);
    if DecidirGrupo(ctx, grupo, id) == Success(d) {
      var clave := Minimo(ids);
      assert clave in ids && ctx.camiones[clave].id == d.camionId;
    }
    if DespachoDelGrupo(ctx, grupo, id, d) {
      var clave :| clave in ids && ctx.camiones[clave].id == d.camionId
        && forall otra :: otra in ids ==> clave <= otra;
      assert clave == Minimo(ids);
    }
  }

  /**
   * A group's decision fails for want of a type exactly when no type with a
   * non-zero id comes first, for want of a truck exactly when its type has no
   * active truck, and on an empty group otherwise.
   */
  lemma DecidirGrupoFallos(ctx: Contexto, grupo: seq<Unidad>, id: nat)
    ensures var tipoId := IdTipoElegido(ctx.tipos, grupo);
      && (DecidirGrupo(ctx, grupo, id) == Failure(SinTipoParaGrupo) <==> tipoId == 0)
      && (DecidirGrupo(ctx, grupo, id) == Failure(SinCamionDelTipo(tipoId)) <==>
            tipoId != 0 && ActivosDelTipo(ctx.camiones, tipoId) == {})
      && (DecidirGrupo(ctx, grupo, id) == Failure(GrupoVacio) <==>
            tipoId != 0 && ActivosDelTipo(ctx.camiones, tipoId) != {} && grupo == [])
  {
  }

  /** The context of the per-group loop, once the destination is known. */
  ghost function ContextoDe(l: Lectura, tipos: seq<TipoCamion>, cotizacionId: nat, ahora: Instante, destino: DirCliente): Contexto
  {
    Contexto(tipos, l.camiones, cotizacionId, destino.id, ahora + DIA)
  }

  /**
   * A successful run creates one dispatch per group, in order, with
   * consecutive ids from the next id; each is the dispatch of its group and
   * its manifest counts the group's units by SKU.
   */
  lemma PlanExitoso(l: Lectura, tipos: seq<TipoCamion>, cotizacionId: nat, ahora: Instante, primerId: nat)
    requires Planificar(l, tipos, cotizacionId, ahora, primerId).fallo.None?
    ensures var c := Planificar(l, tipos, cotizacionId, ahora, primerId);
      var gs := GruposDe(l, tipos, cotizacionId);
      && ItemsDe(l.items, cotizacionId) != [] && tipos != [] && DestinoDe(l, cotizacionId).Some?
      && |c.creados| == |gs| && |c.manifiestos| == |gs|
      && (forall i :: 0 <= i < |gs| ==>
            DespachoDelGrupo(ContextoDe(l, tipos, cotizacionId, ahora, DestinoDe(l, cotizacionId).value),
                             gs[i], primerId + i, c.creados[i])
            && c.manifiestos[i] == Conteo(gs[i]))
  {
    PlanEsMaterializar(l, tipos, cotizacionId, ahora, primerId);
    MaterializarExito(ContextoDe(l, tipos, cotizacionId, ahora, DestinoDe(l, cotizacionId).value),
                      GruposDe(l, tipos, cotizacionId), primerId);
  }

  /** Past the three checks, a run is the per-group loop over the packed groups. */
  lemma PlanEsMaterializar(l: Lectura, tipos: seq<TipoCamion>, cotizacionId: nat, ahora: Instante, primerId: nat)
    requires ItemsDe(l.items, cotizacionId) != [] && tipos != [] && DestinoDe(l, cotizacionId).Some?
    ensures Planificar(l, tipos, cotizacionId, ahora, primerId)
         == Materializar(ContextoDe(l, tipos, cotizacionId, ahora, DestinoDe(l, cotizacionId).value),
                         GruposDe(l, tipos, cotizacionId), primerId)
  {
  }

  /** A per-group loop that does not fail gives every group its dispatch and manifest. */
  lemma MaterializarExito(ctx: Contexto, gs: seq<seq<Unidad>>, primerId: nat)
    requires Materializar(ctx, gs, primerId).fallo.None?
    ensures var c := Materializar(ctx, gs, primerId);
      && |c.creados| == |gs| && |c.manifiestos| == |gs|
      && (forall i :: 0 <= i < |gs| ==>
            DespachoDelGrupo(ctx, gs[i], primerId + i, c.creados[i]) && c.manifiestos[i] == Conteo(gs[i]))
  {
    MaterializarCaracterizacion(ctx, gs, primerId);
    var c := Materializar(ctx, gs, primerId);
    forall i | 0 <= i < |gs|
      ensures DespachoDelGrupo(ctx, gs[i], primerId + i, c.creados[i])
    {
      DecidirGrupoExito(ctx, gs[i], primerId + i, c.creados[i]);
    }
  }

  /** No record is the dispatch of the group: its decision fails. */
  ghost predicate GrupoSinDespacho(ctx: Contexto, grupo: seq<Unidad>, id: nat)
  {
    forall d :: !DespachoDelGrupo(ctx, grupo, id, d)
  }

  /** The three checks before packing fail, in this order, and create nothing. */
  lemma PlanFalloPrevio(l: Lectura, tipos: seq<TipoCamion>, cotizacionId: nat, ahora: Instante, primerId: nat)
    ensures var c := Planificar(l, tipos, cotizacionId, ahora, primerId);
      var items := ItemsDe(l.items, cotizacionId);
      && (c.fallo == Some(SinProductos) <==> items == [])
      && (c.fallo == Some(SinTiposCamion) <==> items != [] && tipos == [])
      && (c.fallo == Some(SinDestino) <==> items != [] && tipos != [] && DestinoDe(l, cotizacionId).None?)
      && (items == [] || tipos == [] || DestinoDe(l, cotizacionId).None? ==> c.creados == [] && c.manifiestos == [])
  {
    var items := ItemsDe(l.items, cotizacionId);
    if items != [] && tipos != [] && DestinoDe(l, cotizacionId).Some? {
      var ctx := ContextoDe(l, tipos, cotizacionId, ahora, DestinoDe(l, cotizacionId).value);
      var gs := GruposDe(l, tipos, cotizacionId);
      assert Planificar(l, tipos, cotizacionId, ahora, primerId) == Materializar(ctx, gs, primerId);
      MaterializarFallaPorGrupo(ctx, gs, primerId);
    }
  }

  /** The per-group loop only stops with one of the per-group errors. */
  lemma MaterializarFallaPorGrupo(ctx: Contexto, gs: seq<seq<Unidad>>, primerId: nat)
    ensures var f := Materializar(ctx, gs, primerId).fallo;
      f.Some? ==> f.value == SinTipoParaGrupo || f.value.SinCamionDelTipo? || f.value == GrupoVacio
  {
    MaterializarForma(ctx, gs, primerId);
    var c := Materializar(ctx, gs, primerId);
    if c.fallo.Some? {
      var n := |c.creados|;
      assert DecidirGrupo(ctx, gs[n], primerId + n) == Failure(c.fallo.value);
    }
  }

  /**
   * The run c stopped inside the per-group loop: every group before the
   * failing one has its dispatch, with consecutive ids, and its manifest;
   * the failing group has no dispatch.
   */
  ghost predicate CorteEnGrupo(ctx: Contexto, gs: seq<seq<Unidad>>, primerId: nat, c: Corrida)
  {
    && |c.creados| < |gs| && |c.manifiestos| == |c.creados|
    && (forall i :: 0 <= i < |c.creados| ==>
          DespachoDelGrupo(ctx, gs[i], primerId + i, c.creados[i]) && c.manifiestos[i] == Conteo(gs[i]))
    && GrupoSinDespacho(ctx, gs[|c.creados|], primerId + |c.creados|)
  }

  /**
   * A failure inside the per-group loop keeps the dispatches of the groups
   * before the failing one; the failing group has no dispatch.
   */
  lemma PlanFalloEnGrupo(l: Lectura, tipos: seq<TipoCamion>, cotizacionId: nat, ahora: Instante, primerId: nat)
    requires ItemsDe(l.items, cotizacionId) != [] && tipos != [] && DestinoDe(l, cotizacionId).Some?
    requires Planificar(l, tipos, cotizacionId, ahora, primerId).fallo.Some?
    ensures CorteEnGrupo(ContextoDe(l, tipos, cotizacionId, ahora, DestinoDe(l, cotizacionId).value),
                         GruposDe(l, tipos, cotizacionId), primerId, Planificar(l, tipos, cotizacionId, ahora, primerId))
  {
    PlanEsMaterializar(l, tipos, cotizacionId, ahora, primerId);
    MaterializarFallo(ContextoDe(l, tipos, cotizacionId, ahora, DestinoDe(l, cotizacionId).value),
                      GruposDe(l, tipos, cotizacionId), primerId);
  }

  /** The per-group loop that fails: the groups before the failing one have their dispatches, that one has none. */
  lemma MaterializarFallo(ctx: Contexto, gs: seq<seq<Unidad>>, primerId: nat)
    requires Materializar(ctx, gs, primerId).fallo.Some?
    ensures CorteEnGrupo(ctx, gs, primerId, Materializar(ctx, gs, primerId))
  {
    MaterializarCaracterizacion(ctx, gs, primerId);
    var c := Materializar(ctx, gs, primerId);
    var n := |c.creados|;
    forall i | 0 <= i < n
      ensures DespachoDelGrupo(ctx, gs[i], primerId + i, c.creados[i])
    {
      DecidirGrupoExito(ctx, gs[i], primerId + i, c.creados[i]);
    }
    var id := primerId + n;
    forall d
      ensures !DespachoDelGrupo(ctx, gs[n], id, d)
    {
      DecidirGrupoExito(ctx, gs[n], id, d);
    }
  }

  /** Every dispatch a run creates, failing or not, has the next consecutive id and the quotation's id. */
  lemma PlanIdsConsecutivos(l: Lectura, tipos: seq<TipoCamion>, cotizacionId: nat, ahora: Instante, primerId: nat)
    ensures var c := Planificar(l, tipos, cotizacionId, ahora, primerId);
      forall i :: 0 <= i < |c.creados| ==> c.creados[i].id == primerId + i && c.creados[i].cotizacionId == cotizacionId
  {
    var c := Planificar(l, tipos, cotizacionId, ahora, primerId);
    PlanFalloPrevio(l, tipos, cotizacionId, ahora, primerId);
    if c.fallo.None? {
      PlanExitoso(l, tipos, cotizacionId, ahora, primerId);
    } else if ItemsDe(l.items, cotizacionId) != [] && tipos != [] && DestinoDe(l, cotizacionId).Some? {
      PlanFalloEnGrupo(l, tipos, cotizacionId, ahora, primerId);
    }
  }

  /**
   * Conservation: over the manifests of a successful run, each SKU totals
   * the units the quotation's lines request for it.
   */
  lemma PlanConserva(l: Lectura, tipos: seq<TipoCamion>, cotizacionId: nat, ahora: Instante, primerId: nat, sku: string)
    requires Planificar(l, tipos, cotizacionId, ahora, primerId).fallo.None?
    ensures SumaConteos(Planificar(l, tipos, cotizacionId, ahora, primerId).manifiestos, sku)
            == CantidadSolicitada(ItemsDe(l.items, cotizacionId), sku)
  {
    var items := ItemsDe(l.items, cotizacionId);
    var gs := GruposDe(l, tipos, cotizacionId);
    PlanExitoso(l, tipos, cotizacionId, ahora, primerId);
    SumaConteosGrupos(Planificar(l, tipos, cotizacionId, ahora, primerId).manifiestos, gs, sku);
    AgrupamientoParticion(tipos, Expansion(items));
    ExpansionConserva(items, sku);
  }

  /**
   * A group of two or more units always fits some type, so when the types
   * have non-zero ids a run can fail for want of a type only on a group of
   * at most one unit.
   */
  lemma PlanSinTipoSoloUnaUnidad(l: Lectura, tipos: seq<TipoCamion>, cotizacionId: nat, ahora: Instante, primerId: nat)
    requires forall k :: 0 <= k < |tipos| ==> tipos[k].id != 0
    requires Planificar(l, tipos, cotizacionId, ahora, primerId).fallo == Some(SinTipoParaGrupo)
    ensures var c := Planificar(l, tipos, cotizacionId, ahora, primerId);
      var gs := GruposDe(l, tipos, cotizacionId);
      |c.creados| < |gs| && |gs[|c.creados|]| <= 1
  {
    PlanFalloPrevio(l, tipos, cotizacionId, ahora, primerId);
    var us := Expansion(ItemsDe(l.items, cotizacionId));
    var gs := Agrupamiento(tipos, us);
    var ctx := ContextoDe(l, tipos, cotizacionId, ahora, DestinoDe(l, cotizacionId).value);
    assert Materializar(ctx, gs, primerId) == Planificar(l, tipos, cotizacionId, ahora, primerId);
    var n := MaterializarSinTipo(ctx, gs, primerId);
    if |gs[n]| >= 2 {
      GrupoLargoTieneTipo(tipos, us, n);
    }
  }

  /** Where the per-group loop stops for want of a type, no type with a non-zero id takes the group. */
  lemma MaterializarSinTipo(ctx: Contexto, grupos: seq<seq<Unidad>>, primerId: nat) returns (n: nat)
    requires Materializar(ctx, grupos, primerId).fallo == Some(SinTipoParaGrupo)
    ensures n == |Materializar(ctx, grupos, primerId).creados| && n < |grupos|
    ensures IdTipoElegido(ctx.tipos, grupos[n]) == 0
  {
    MaterializarCaracterizacion(ctx, grupos, primerId);
    n := |Materializar(ctx, grupos, primerId).creados|;
    DecidirGrupoFallos(ctx, grupos[n], primerId + n);
  }

  lemma GrupoLargoTieneTipo(tipos: seq<TipoCamion>, us: seq<Unidad>, j: nat)
    requires forall k :: 0 <= k < |tipos| ==> tipos[k].id != 0
    requires j < |Agrupamiento(tipos, us)| && |Agrupamiento(tipos, us)[j]| >= 2
    ensures IdTipoElegido(tipos, Agrupamiento(tipos, us)[j]) != 0
  {
    var g := Agrupamiento(tipos, us)[j];
    AgrupamientoCapacidad(tipos, us, j);
    assert PrimerTipo(tipos, SumaPeso(g), SumaVolumen(g)).Some?;
  }

  /**
   * When the first unit alone fits no type, the packer emits an empty first
   * group and the run stops on it without creating any dispatch.
   */
  lemma PlanPrimeraUnidadSinTipo(l: Lectura, tipos: seq<TipoCamion>, cotizacionId: nat, ahora: Instante, primerId: nat)
    requires Expansion(ItemsDe(l.items, cotizacionId)) != []
    requires !CabeGrupo(tipos, [Expansion(ItemsDe(l.items, cotizacionId))[0]])
    ensures var c := Planificar(l, tipos, cotizacionId, ahora, primerId);
      c.fallo.Some? && c.creados == []
  {
    var c := Planificar(l, tipos, cotizacionId, ahora, primerId);
    var items := ItemsDe(l.items, cotizacionId);
    var gs := GruposDe(l, tipos, cotizacionId);
    AgrupamientoPrimerGrupo(tipos, Expansion(items));
    if items != [] && tipos != [] && DestinoDe(l, cotizacionId).Some? {
      var ctx := ContextoDe(l, tipos, cotizacionId, ahora, DestinoDe(l, cotizacionId).value);
      MaterializarCaracterizacion(ctx, gs, primerId);
      assert DecidirGrupo(ctx, gs[0], primerId).Failure?;
    }
  }

  /**
   * Whatever the outcome, after a run the quotation's rows are exactly the
   * dispatches it created, and every other quotation keeps its rows.
   */
  lemma PlanReemplaza(l: Lectura, tipos: seq<TipoCamion>, cotizacionId: nat, ahora: Instante,
                      t: map<nat, Despacho>, sig: nat)
    requires TablaDespachos(t, sig) && sig >= 1
    ensures var c := Planificar(l, tipos, cotizacionId, ahora, sig);
      var r := ConCreados(SinCotizacion(t, cotizacionId), c.creados);
      && TablaDespachos(r, sig + |c.creados|)
      && (forall id :: id in r && r[id].cotizacionId == cotizacionId <==> sig <= id < sig + |c.creados|)
      && (forall i :: 0 <= i < |c.creados| ==> r[sig + i] == c.creados[i])
      && (forall id :: id in t && t[id].cotizacionId != cotizacionId ==> id in r && r[id] == t[id])
      && (forall id :: id in r && r[id].cotizacionId != cotizacionId ==> id in t && r[id] == t[id])
  {
    PlanIdsConsecutivos(l, tipos, cotizacionId, ahora, sig);
    ReemplazoPorCotizacion(t, sig, cotizacionId, Planificar(l, tipos, cotizacionId, ahora, sig).creados);
  }
}
