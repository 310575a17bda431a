/**
 * The load packer: running weight and volume totals, the "does some truck type
 * take this load" test, the greedy single-pass grouping and the first-fit
 * choice of truck type (ControllerDespacho.go, CalcularDespachoConDistancia,
 * pesoTotal and volumenTotal).
 */
module Cargas {
  import opened Wrappers
  import opened Modelo
  import opened Unidades

  /** Reference sums, defined on the last unit so that a left-to-right accumulator follows them. */
  function SumaPeso(grupo: seq<Unidad>): real
  {
    if grupo == [] then 0.0 else SumaPeso(grupo[..|grupo| - 1]) + grupo[|grupo| - 1].peso
  }

  function SumaVolumen(grupo: seq<Unidad>): real
  {
    if grupo == [] then 0.0 else SumaVolumen(grupo[..|grupo| - 1]) + grupo[|grupo| - 1].volumen
  }

  /** pesoTotal: the accumulator loop over a group. */
  method PesoTotal(grupo: seq<Unidad>) returns (total: real)
    ensures total == SumaPeso(grupo)
  {
    total := 0.0;
    for i := 0 to |grupo|
      invariant total == SumaPeso(grupo[..i])
    {
      assert grupo[..i + 1][..i] == grupo[..i];
      total := total + grupo[i].peso;
    }
    assert grupo[..|grupo|] == grupo;
  }

  /** volumenTotal: the accumulator loop over a group. */
  method VolumenTotal(grupo: seq<Unidad>) returns (total: real)
    ensures total == SumaVolumen(grupo)
  {
    total := 0.0;
    for i := 0 to |grupo|
      invariant total == SumaVolumen(grupo[..i])
    {
      assert grupo[..i + 1][..i] == grupo[..i];
      total := total + grupo[i].volumen;
    }
    assert grupo[..|grupo|] == grupo;
  }

  /** Both sums split over concatenation. */
  lemma {:induction false} SumasConcat(a: seq<Unidad>, b: seq<Unidad>)
    ensures SumaPeso(a + b) == SumaPeso(a) + SumaPeso(b)
    ensures SumaVolumen(a + b) == SumaVolumen(a) + SumaVolumen(b)
    decreases |b|
  {
    if b == [] {
      assert a + b == a;
    } else {
      assert (a + b)[..|a + b| - 1] == a + b[..|b| - 1];
      SumasConcat(a, b[..|b| - 1]);
    }
  }

  /** A truck type takes a load when both capacities dominate its totals. */
  predicate CabeEn(t: TipoCamion, peso: real, volumen: real)
  {
    t.pesoMaximo >= peso && t.volumen >= volumen
  }

  /** Some truck type in the list takes the load. */
  predicate Cabe(tipos: seq<TipoCamion>, peso: real, volumen: real)
  {
    exists k :: 0 <= k < |tipos| && CabeEn(tipos[k], peso, volumen)
  }

  predicate CabeGrupo(tipos: seq<TipoCamion>, grupo: seq<Unidad>)
  {
    Cabe(tipos, SumaPeso(grupo), SumaVolumen(grupo))
  }

  /** Index of the first type in list order that takes the load. */
  function PrimerTipo(tipos: seq<TipoCamion>, peso: real, volumen: real): (r: Option<nat>)
    ensures r.Some? ==> r.value < |tipos| && CabeEn(tipos[r.value], peso, volumen)
    ensures r.Some? ==> forall k :: 0 <= k < r.value ==> !CabeEn(tipos[k], peso, volumen)
    ensures r.None? <==> !Cabe(tipos, peso, volumen)
  {
    if tipos == [] then None
    else if CabeEn(tipos[0], peso, volumen) then Some(0)
    else match PrimerTipo(tipos[1..], peso, volumen)
      case None =>
        assert forall k :: 1 <= k < |tipos| ==> tipos[k] == tipos[1..][k - 1];
        None
      case Some(k) => Some(k + 1)
  }

  /** The id the source ends up with for a group: the first fitting type's id, 0 when none fits. */
  function IdTipoElegido(tipos: seq<TipoCamion>, grupo: seq<Unidad>): nat
  {
    match PrimerTipo(tipos, SumaPeso(grupo), SumaVolumen(grupo))
    case Some(k) => tipos[k].id
    case None => 0
  }

  /** The `cabe` loop: scan the types in order, stop at the first that takes the running totals. */
  method HayTipoQueCabe(tipos: seq<TipoCamion>, peso: real, volumen: real) returns (cabe: bool)
    ensures cabe <==> Cabe(tipos, peso, volumen)
  {
    cabe := false;
    var i := 0;
    while i < |tipos|
      invariant 0 <= i <= |tipos|
      invariant forall k :: 0 <= k < i ==> !CabeEn(tipos[k], peso, volumen)
    {
      if tipos[i].pesoMaximo >= peso && tipos[i].volumen >= volumen {
        cabe := true;
        break;
      }
      i := i + 1;
    }
  }

  /** The type-choice loop for one group; 0 stands for "no type found", as in the source. */
  method ElegirTipo(tipos: seq<TipoCamion>, grupo: seq<Unidad>) returns (tipoCamionId: nat)
    ensures tipoCamionId == IdTipoElegido(tipos, grupo)
  {
    var peso := PesoTotal(grupo);
    var volumen := VolumenTotal(grupo);
    tipoCamionId := 0;
    var i := 0;
    while i < |tipos|
      invariant 0 <= i <= |tipos|
      invariant forall k :: 0 <= k < i ==> !CabeEn(tipos[k], peso, volumen)
    {
      if tipos[i].pesoMaximo >= peso && tipos[i].volumen >= volumen {
        tipoCamionId := tipos[i].id;
        assert PrimerTipo(tipos, peso, volumen) == Some(i);
        break;
      }
      i := i + 1;
    }
  }

  /** With types listed by ascending weight capacity, the first fitting type is a lightest fitting one. */
  lemma PrimerTipoEsElMasLiviano(tipos: seq<TipoCamion>, peso: real, volumen: real, k: nat)
    requires forall a, b :: 0 <= a < b < |tipos| ==> tipos[a].pesoMaximo <= tipos[b].pesoMaximo
    requires k < |tipos| && CabeEn(tipos[k], peso, volumen)
    ensures PrimerTipo(tipos, peso, volumen).Some?
    ensures tipos[PrimerTipo(tipos, peso, volumen).value].pesoMaximo <= tipos[k].pesoMaximo
  {
    var r := PrimerTipo(tipos, peso, volumen);
    assert r.value <= k;
  }

  // ----- Greedy grouping -----

  /** The packer's state: the closed groups and the load being filled. */
  datatype EstadoCarga = EstadoCarga(grupos: seq<seq<Unidad>>, actuales: seq<Unidad>)

  /** One step: add the unit; if no type takes the load, close it without the unit and restart with it. */
  function Paso(tipos: seq<TipoCamion>, e: EstadoCarga, u: Unidad): EstadoCarga
  {
    var tentativa := e.actuales + [u];
    if CabeGrupo(tipos, tentativa) then EstadoCarga(e.grupos, tentativa)
    else EstadoCarga(e.grupos + [e.actuales], [u])
  }

  function Recorrido(tipos: seq<TipoCamion>, us: seq<Unidad>): EstadoCarga
  {
    if us == [] then EstadoCarga([], [])
    else Paso(tipos, Recorrido(tipos, us[..|us| - 1]), us[|us| - 1])
  }

  /**
   * The groups the packer returns: the closed ones plus the last load when it
   * is not empty. This is the reference the loop `AgruparUnidades` is proved
   * against; its meaning (a partition of the units into loads that fit and
   * cannot grow) is stated independently by the packer invariant and the
   * `Agrupamiento*` lemmas.
   */
  function Agrupamiento(tipos: seq<TipoCamion>, us: seq<Unidad>): seq<seq<Unidad>>
  {
    var e := Recorrido(tipos, us);
    if |e.actuales| > 0 then e.grupos + [e.actuales] else e.grupos
  }

  /** Concatenation of the groups, in order. */
  function Aplanar(gs: seq<seq<Unidad>>): seq<Unidad>
  {
    if gs == [] then [] else Aplanar(gs[..|gs| - 1]) + gs[|gs| - 1]
  }

  /** The grouping loop of the source, with running totals. */
  method AgruparUnidades(tipos: seq<TipoCamion>, unidades: seq<Unidad>) returns (grupos: seq<seq<Unidad>>)
    ensures grupos == Agrupamiento(tipos, unidades)
  {
    grupos := [];
    var actuales: seq<Unidad> := [];
    var pesoActual, volumenActual := 0.0, 0.0;
    for i := 0 to |unidades|
      invariant Recorrido(tipos, unidades[..i]) == EstadoCarga(grupos, actuales)
      invariant pesoActual == SumaPeso(actuales) && volumenActual == SumaVolumen(actuales)
    {
      var u := unidades[i];
      assert unidades[..i + 1][..i] == unidades[..i];
      actuales := actuales + [u];
      pesoActual := pesoActual + u.peso;
      volumenActual := volumenActual + u.volumen;
      assert actuales[..|actuales| - 1] + [u] == actuales;
      var cabe := HayTipoQueCabe(tipos, pesoActual, volumenActual);
      if !cabe {
        var grupoValido := actuales[..|actuales| - 1];
        grupos := grupos + [grupoValido];
        actuales := [u];
        pesoActual := u.peso;
        volumenActual := u.volumen;
        assert SumaPeso(actuales) == SumaPeso([]) + u.peso;
      }
    }
    assert unidades[..|unidades|] == unidades;
    if |actuales| > 0 {
      grupos := grupos + [actuales];
    }
  }

  /** Every group but the first is non-empty. */
  ghost predicate NoVaciosDesdeElSegundo(gs: seq<seq<Unidad>>)
  {
    forall j :: 1 <= j < |gs| ==> gs[j] != []
  }

  /** Every group of two or more units fits some type. */
  ghost predicate GruposCaben(tipos: seq<TipoCamion>, gs: seq<seq<Unidad>>)
  {
    forall j :: 0 <= j < |gs| && |gs[j]| >= 2 ==> CabeGrupo(tipos, gs[j])
  }

  /** A group extended by the next group's first unit fits no type. */
  ghost predicate GruposMaximales(tipos: seq<TipoCamion>, gs: seq<seq<Unidad>>)
  {
    forall j :: 1 <= j < |gs| ==> gs[j] != [] && !CabeGrupo(tipos, gs[j - 1] + [gs[j][0]])
  }

  /** What holds of the packer's state after any prefix of the units. */
  ghost predicate InvarianteRecorrido(tipos: seq<TipoCamion>, us: seq<Unidad>, e: EstadoCarga)
  {
    && Aplanar(e.grupos) + e.actuales == us
    && (us == [] ==> e.grupos == [] && e.actuales == [])
    && (us != [] ==> e.actuales != [])
    && NoVaciosDesdeElSegundo(e.grupos)
    && ((e.grupos != [] && e.grupos[0] == []) <==> (us != [] && !CabeGrupo(tipos, [us[0]])))
    && GruposCaben(tipos, e.grupos)
    && (|e.actuales| >= 2 ==> CabeGrupo(tipos, e.actuales))
    && GruposMaximales(tipos, e.grupos)
    && (e.grupos != [] && e.actuales != [] ==> !CabeGrupo(tipos, e.grupos[|e.grupos| - 1] + [e.actuales[0]]))
  }

  lemma {:induction false} RecorridoInvariante(tipos: seq<TipoCamion>, us: seq<Unidad>)
    ensures InvarianteRecorrido(tipos, us, Recorrido(tipos, us))
  {
    if us != [] {
      RecorridoInvariante(tipos, us[..|us| - 1]);
      PasoInvariante(tipos, us, Recorrido(tipos, us[..|us| - 1]));
    }
  }

  /** One step of the packer keeps the invariant, whether or not it closes the load. */
  lemma PasoInvariante(tipos: seq<TipoCamion>, us: seq<Unidad>, e: EstadoCarga)
    requires us != [] && InvarianteRecorrido(tipos, us[..|us| - 1], e)
    ensures InvarianteRecorrido(tipos, us, Paso(tipos, e, us[|us| - 1]))
  {
    var pre, u := us[..|us| - 1], us[|us| - 1];
    assert pre + [u] == us;
    if CabeGrupo(tipos, e.actuales + [u]) {
      PasoSinCierre(tipos, pre, u, e);
    } else {
      PasoConCierre(tipos, pre, u, e);
    }
  }

  /** A unit that still fits extends the current load. */
  lemma PasoSinCierre(tipos: seq<TipoCamion>, pre: seq<Unidad>, u: Unidad, e: EstadoCarga)
    requires InvarianteRecorrido(tipos, pre, e)
    requires CabeGrupo(tipos, e.actuales + [u])
    ensures InvarianteRecorrido(tipos, pre + [u], EstadoCarga(e.grupos, e.actuales + [u]))
  {
    var us := pre + [u];
    var e' := EstadoCarga(e.grupos, e.actuales + [u]);
    assert Aplanar(e'.grupos) + e'.actuales == us;
    assert pre != [] ==> pre[0] == us[0];
    assert e'.grupos != [] ==> e.actuales != [] && e'.actuales[0] == e.actuales[0];
  }

  /** Closing a non-empty load keeps the later groups non-empty. */
  lemma CierreNoVacios(gs: seq<seq<Unidad>>, g: seq<Unidad>)
    requires NoVaciosDesdeElSegundo(gs)
    requires gs != [] ==> g != []
    ensures NoVaciosDesdeElSegundo(gs + [g])
  {
  }

  lemma CierreCaben(tipos: seq<TipoCamion>, gs: seq<seq<Unidad>>, g: seq<Unidad>)
    requires GruposCaben(tipos, gs)
    requires |g| >= 2 ==> CabeGrupo(tipos, g)
    ensures GruposCaben(tipos, gs + [g])
  {
    forall j | 0 <= j < |gs + [g]| && |(gs + [g])[j]| >= 2
      ensures CabeGrupo(tipos, (gs + [g])[j])
    {
      if j < |gs| {
        assert (gs + [g])[j] == gs[j];
      }
    }
  }

  lemma CierreMaximales(tipos: seq<TipoCamion>, gs: seq<seq<Unidad>>, g: seq<Unidad>)
    requires GruposMaximales(tipos, gs)
    requires gs != [] ==> g != [] && !CabeGrupo(tipos, gs[|gs| - 1] + [g[0]])
    ensures GruposMaximales(tipos, gs + [g])
  {
    var gs' := gs + [g];
    forall j | 1 <= j < |gs'|
      ensures gs'[j] != [] && !CabeGrupo(tipos, gs'[j - 1] + [gs'[j][0]])
    {
      if j < |gs| {
        assert gs'[j - 1] == gs[j - 1] && gs'[j] == gs[j];
      } else {
        assert gs'[j - 1] == gs[|gs| - 1] && gs'[j] == g;
      }
    }
  }

  /** A unit that overflows every type closes the current load and starts a new one. */
  lemma PasoConCierre(tipos: seq<TipoCamion>, pre: seq<Unidad>, u: Unidad, e: EstadoCarga)
    requires InvarianteRecorrido(tipos, pre, e)
    requires !CabeGrupo(tipos, e.actuales + [u])
    ensures InvarianteRecorrido(tipos, pre + [u], EstadoCarga(e.grupos + [e.actuales], [u]))
  {
    CierreAplanar(e.grupos, e.actuales, u);
    CierreNoVacios(e.grupos, e.actuales);
    CierreCaben(tipos, e.grupos, e.actuales);
    CierreMaximales(tipos, e.grupos, e.actuales);
    CierrePrimero(tipos, pre, u, e);
  }

  lemma CierreAplanar(gs: seq<seq<Unidad>>, g: seq<Unidad>, u: Unidad)
    ensures Aplanar(gs + [g]) + [u] == Aplanar(gs) + g + [u]
  {
    assert (gs + [g])[..|gs|] == gs;
  }

  /** After a close, the first group is empty exactly when the first unit fits no type. */
  lemma CierrePrimero(tipos: seq<TipoCamion>, pre: seq<Unidad>, u: Unidad, e: EstadoCarga)
    requires InvarianteRecorrido(tipos, pre, e)
    requires !CabeGrupo(tipos, e.actuales + [u])
    ensures (e.grupos + [e.actuales])[0] == [] <==> !CabeGrupo(tipos, [(pre + [u])[0]])
  {
    var us, gs := pre + [u], e.grupos + [e.actuales];
    if pre == [] {
      assert gs == [[]];
      assert e.actuales + [u] == [us[0]];
    } else {
      assert pre[0] == us[0];
      assert gs[0] == [] <==> (e.grupos != [] && e.grupos[0] == []);
    }
  }

  /** Partition: concatenating the groups in order gives back the units exactly. */
  lemma AgrupamientoParticion(tipos: seq<TipoCamion>, us: seq<Unidad>)
    ensures Aplanar(Agrupamiento(tipos, us)) == us
  {
    RecorridoInvariante(tipos, us);
    var e := Recorrido(tipos, us);
    if |e.actuales| > 0 {
      var gs := e.grupos + [e.actuales];
      assert gs[..|gs| - 1] == e.grupos;
    } else {
      assert e.actuales == [];
    }
  }

  /**
   * Only the first group can be empty, and it is empty exactly when the
   * first unit alone fits no truck type.
   */
  lemma AgrupamientoPrimerGrupo(tipos: seq<TipoCamion>, us: seq<Unidad>)
    ensures var gs := Agrupamiento(tipos, us);
      && (forall j :: 1 <= j < |gs| ==> gs[j] != [])
      && ((gs != [] && gs[0] == []) <==> (us != [] && !CabeGrupo(tipos, [us[0]])))
  {
    RecorridoInvariante(tipos, us);
    var e := Recorrido(tipos, us);
    if |e.actuales| > 0 {
      CierreNoVacios(e.grupos, e.actuales);
      var gs := e.grupos + [e.actuales];
      if e.grupos == [] {
        assert gs[0] == e.actuales;
      } else {
        assert gs[0] == e.grupos[0];
      }
    }
    assert NoVaciosDesdeElSegundo(Agrupamiento(tipos, us));
  }

  /** Every group of two or more units fits some truck type; a singleton need not. */
  lemma AgrupamientoCapacidad(tipos: seq<TipoCamion>, us: seq<Unidad>, j: nat)
    requires j < |Agrupamiento(tipos, us)| && |Agrupamiento(tipos, us)[j]| >= 2
    ensures CabeGrupo(tipos, Agrupamiento(tipos, us)[j])
  {
    RecorridoInvariante(tipos, us);
  }

  /** Greedy maximality: a group plus the next group's first unit fits no truck type. */
  lemma AgrupamientoMaximal(tipos: seq<TipoCamion>, us: seq<Unidad>, j: nat)
    requires j + 1 < |Agrupamiento(tipos, us)|
    ensures Agrupamiento(tipos, us)[j + 1] != []
    ensures !CabeGrupo(tipos, Agrupamiento(tipos, us)[j] + [Agrupamiento(tipos, us)[j + 1][0]])
  {
    RecorridoInvariante(tipos, us);
    var e := Recorrido(tipos, us);
    if |e.actuales| > 0 {
      CierreMaximales(tipos, e.grupos, e.actuales);
    }
    assert GruposMaximales(tipos, Agrupamiento(tipos, us));
  }

  // ----- When nothing is split -----

  ghost predicate NoNegativas(us: seq<Unidad>)
  {
    forall i :: 0 <= i < |us| ==> us[i].peso >= 0.0 && us[i].volumen >= 0.0
  }

  /** Dropping a last unit of non-negative weight and volume keeps a fitting load fitting. */
  lemma CabeSinUltima(tipos: seq<TipoCamion>, g: seq<Unidad>, u: Unidad)
    requires u.peso >= 0.0 && u.volumen >= 0.0
    requires CabeGrupo(tipos, g + [u])
    ensures CabeGrupo(tipos, g)
  {
    SumasConcat(g, [u]);
    assert [u][..0] == [];
    var k :| 0 <= k < |tipos| && CabeEn(tipos[k], SumaPeso(g + [u]), SumaVolumen(g + [u]));
    assert CabeEn(tipos[k], SumaPeso(g), SumaVolumen(g));
  }

  lemma {:induction false} RecorridoSinCorte(tipos: seq<TipoCamion>, us: seq<Unidad>)
    requires us != [] && NoNegativas(us) && CabeGrupo(tipos, us)
    ensures Recorrido(tipos, us) == EstadoCarga([], us)
  {
    var pre, u := us[..|us| - 1], us[|us| - 1];
    assert us == pre + [u];
    if pre == [] {
      assert Recorrido(tipos, pre) == EstadoCarga([], []);
    } else {
      CabeSinUltima(tipos, pre, u);
      RecorridoSinCorte(tipos, pre);
    }
  }

  /**
   * With non-negative weights and volumes, units whose whole load fits some
   * type form a single group: the packer splits only when no type at all
   * takes the running load.
   */
  lemma SinCorteSiTodoCabe(tipos: seq<TipoCamion>, us: seq<Unidad>)
    requires us != [] && NoNegativas(us) && CabeGrupo(tipos, us)
    ensures Agrupamiento(tipos, us) == [us]
  {
    RecorridoSinCorte(tipos, us);
  }

  /** n copies of a quantity, added one at a time. */
  function Veces(n: nat, x: real): real
  {
    if n == 0 then 0.0 else Veces(n - 1, x) + x
  }

  lemma {:induction false} SumasRepetir(u: Unidad, n: nat)
    ensures SumaPeso(Repetir(u, n)) == Veces(n, u.peso)
    ensures SumaVolumen(Repetir(u, n)) == Veces(n, u.volumen)
  {
    if n > 0 {
      SumasRepetir(u, n - 1);
      SumasConcat(Repetir(u, n - 1), [u]);
      assert [u][..0] == [];
    }
  }

  /**
   * Twelve units of 10 kg and 0.1 m3 with types {100 kg, 1 m3} and
   * {500 kg, 5 m3}: no prefix ever exceeds the larger type, so the load is
   * not split and travels as one group on the larger type.
   */
  lemma DoceUnidadesUnSoloGrupo()
    ensures var u := Unidad("SKU", 10.0, 0.1, 1);
      var tipos := [TipoCamion(1, 1.0, 100.0), TipoCamion(2, 5.0, 500.0)];
      && Agrupamiento(tipos, Repetir(u, 12)) == [Repetir(u, 12)]
      && IdTipoElegido(tipos, Repetir(u, 12)) == 2
  {
    var u := Unidad("SKU", 10.0, 0.1, 1);
    var tipos := [TipoCamion(1, 1.0, 100.0), TipoCamion(2, 5.0, 500.0)];
    var us := Repetir(u, 12);
    SumasRepetir(u, 12);
    LongitudRepetir(u, 12);
    forall i | 0 <= i < |us|
      ensures us[i].peso >= 0.0 && us[i].volumen >= 0.0
    {
      RepetirEn(u, 12, i);
    }
    assert CabeEn(tipos[1], SumaPeso(us), SumaVolumen(us));
    SinCorteSiTodoCabe(tipos, us);
    assert !CabeEn(tipos[0], SumaPeso(us), SumaVolumen(us));
    assert PrimerTipo(tipos, SumaPeso(us), SumaVolumen(us)) == Some(1);
  }
}
