/**
 * The relational store the controllers work on, as one object holding its
 * tables, and the "first row by primary key" lookups the planner issues.
 */
module Almacen {
  import opened Wrappers
  import opened Modelo

  /** Truck types are keyed by their own id, below the next id, with positive capacities. */
  ghost predicate TablaTipos(t: map<nat, TipoCamion>, siguiente: nat)
  {
    forall id :: id in t ==> 1 <= id < siguiente && t[id].id == id && CapacidadValida(t[id])
  }

  /** Trucks are keyed by their own id, below the next id, with a plate and a type. */
  ghost predicate TablaCamiones(c: map<nat, Camion>, siguiente: nat)
  {
    forall id :: id in c ==> 1 <= id < siguiente && c[id].id == id && DatosCamionValidos(c[id])
  }

  ghost predicate TablaDespachos(d: map<nat, Despacho>, siguiente: nat)
  {
    forall id :: id in d ==> 1 <= id < siguiente && d[id].id == id
  }

  /** The guard of CreateTipoCamion and UpdateTipoCamion. */
  predicate CapacidadValida(t: TipoCamion)
  {
    t.volumen > 0.0 && t.pesoMaximo > 0.0
  }

  /** The guards of CreateCamion and UpdateCamion. */
  predicate DatosCamionValidos(c: Camion)
  {
    c.patente != "" && c.tipoId != 0
  }

  class BaseDatos {
    var tiposCamion: map<nat, TipoCamion>
    var camiones: map<nat, Camion>
    var cotizaciones: map<nat, Cotizacion>
    var itemsCotizacion: seq<ItemCotizacion>
    var dirClientes: map<nat, DirCliente>
    var despachos: map<nat, Despacho>
    var productosDespacho: multiset<LineaDespacho>
    var stockSucursal: map<ClaveStock, int>
    var siguienteTipoId: nat
    var siguienteCamionId: nat
    var siguienteDespachoId: nat

    ghost predicate Valid()
      reads this`siguienteTipoId, this`siguienteCamionId, this`siguienteDespachoId
      reads this`tiposCamion, this`camiones, this`despachos
    {
      && siguienteTipoId >= 1 && siguienteCamionId >= 1 && siguienteDespachoId >= 1
      && TablaTipos(tiposCamion, siguienteTipoId)
      && TablaCamiones(camiones, siguienteCamionId)
      && TablaDespachos(despachos, siguienteDespachoId)
    }

    constructor ()
      ensures Valid()
      ensures tiposCamion == map[] && camiones == map[] && despachos == map[]
      ensures cotizaciones == map[] && itemsCotizacion == [] && dirClientes == map[]
      ensures productosDespacho == multiset{} && stockSucursal == map[]
    {
      tiposCamion, camiones, cotizaciones := map[], map[], map[];
      itemsCotizacion, dirClientes, despachos := [], map[], map[];
      productosDespacho, stockSucursal := multiset{}, map[];
      siguienteTipoId, siguienteCamionId, siguienteDespachoId := 1, 1, 1;
    }
  }

  // ----- First row by primary key -----

  /** The least element of a non-empty set of ids. */
  ghost function Minimo(s: set<nat>): (m: nat)
    requires s != {}
    ensures m in s && forall y :: y in s ==> m <= y
    decreases |s|
  {
    var x :| x in s;
    if s == {x} then x
    else
      var r := Minimo(s - {x});
      assert forall y :: y in s ==> y == x || y in s - {x};
      if x < r then x else r
  }

  /** Ids of the active trucks of a type. */
  function ActivosDelTipo(camiones: map<nat, Camion>, tipoId: nat): set<nat>
  {
    set id | id in camiones && camiones[id].activo && camiones[id].tipoId == tipoId
  }

  /** The truck `WHERE tipo_id = ? AND activo = true` ... `First` returns: least id among them. */
  ghost function PrimerCamionActivo(camiones: map<nat, Camion>, tipoId: nat): Option<Camion>
  {
    var ids := ActivosDelTipo(camiones, tipoId);
    if ids == {} then None else Some(camiones[Minimo(ids)])
  }

  function DireccionesDe(dirs: map<nat, DirCliente>, rut: string): set<nat>
  {
    set id | id in dirs && dirs[id].rutCliente == rut
  }

  /** The address `WHERE rut_cliente = ?` ... `First` returns: least id among them. */
  ghost function PrimeraDireccion(dirs: map<nat, DirCliente>, rut: string): Option<DirCliente>
  {
    var ids := DireccionesDe(dirs, rut);
    if ids == {} then None else Some(dirs[Minimo(ids)])
  }

  /** Scan a non-empty set of ids, keeping the least seen so far. */
  method MenorId(ids: set<nat>) returns (m: nat)
    requires ids != {}
    ensures m == Minimo(ids)
  {
    m :| m in ids;
    var pendientes := ids - {m};
    while pendientes != {}
      invariant pendientes <= ids && m in ids
      invariant forall x :: x in ids - pendientes ==> m <= x
      decreases pendientes
    {
      var x :| x in pendientes;
      ghost var antes := m;
      if x < m {
        m := x;
      }
      forall y | y in ids - (pendientes - {x})
        ensures m <= y
      {
        if y != x {
          assert y in ids - pendientes;
        }
      }
      pendientes := pendientes - {x};
    }
    assert ids - pendientes == ids;
    assert Minimo(ids) <= m && m <= Minimo(ids);
  }

  method BuscarCamionActivo(camiones: map<nat, Camion>, tipoId: nat) returns (r: Option<Camion>)
    ensures r == PrimerCamionActivo(camiones, tipoId)
    ensures r.Some? ==> r.value in camiones.Values && r.value.activo && r.value.tipoId == tipoId
    ensures r.None? <==> forall id :: id in camiones ==> !(camiones[id].activo && camiones[id].tipoId == tipoId)
  {
    var ids := ActivosDelTipo(camiones, tipoId);
    if ids == {} {
      forall id | id in camiones
        ensures !(camiones[id].activo && camiones[id].tipoId == tipoId)
      {
        assert camiones[id].activo && camiones[id].tipoId == tipoId ==> id in ids;
      }
      r := None;
    } else {
      var id := MenorId(ids);
      r := Some(camiones[id]);
    }
  }

  method BuscarDireccion(dirs: map<nat, DirCliente>, rut: string) returns (r: Option<DirCliente>)
    ensures r == PrimeraDireccion(dirs, rut)
    ensures r.Some? ==> r.value in dirs.Values && r.value.rutCliente == rut
    ensures r.None? <==> forall id :: id in dirs ==> dirs[id].rutCliente != rut
  {
    var ids := DireccionesDe(dirs, rut);
    if ids == {} {
      forall id | id in dirs
        ensures dirs[id].rutCliente != rut
      {
        assert dirs[id].rutCliente == rut ==> id in ids;
      }
      r := None;
    } else {
      var id := MenorId(ids);
      r := Some(dirs[id]);
    }
  }
}
