/**
 * Unit expansion: every quotation line becomes one Unidad per piece,
 * in line order (ControllerDespacho.go, the loop that fills `unidades`).
 */
module Unidades {
  import opened Modelo

  /** Volume of one piece in cubic metres. */
  function VolumenUnitario(p: Producto): real
  {
    p.largo * p.ancho * p.alto / ESCALA_VOLUMEN
  }

  function UnidadDe(item: ItemCotizacion): Unidad
  {
    Unidad(item.producto.sku, item.producto.peso, VolumenUnitario(item.producto), item.sucursalId)
  }

  /** Number of pieces a line yields: the counting loop runs zero times for a non-positive quantity. */
  function Piezas(item: ItemCotizacion): nat
  {
    if item.cantidad > 0 then item.cantidad else 0
  }

  function Repetir(u: Unidad, n: nat): seq<Unidad>
  {
    if n == 0 then [] else Repetir(u, n - 1) + [u]
  }

  /**
   * Reference expansion, built line by line from the front. The nested loop
   * `DesglosarUnidades` is proved against it; what it means (length, the unit
   * at each position, per-SKU counts) is stated independently by
   * `LongitudExpansion`, `ExpansionPosicion` and `ExpansionConserva`.
   */
  function Expansion(items: seq<ItemCotizacion>): seq<Unidad>
  {
    if items == [] then []
    else Expansion(items[..|items| - 1]) + Repetir(UnidadDe(items[|items| - 1]), Piezas(items[|items| - 1]))
  }

  /** Total number of pieces over a sequence of lines. */
  function TotalPiezas(items: seq<ItemCotizacion>): nat
  {
    if items == [] then 0 else TotalPiezas(items[..|items| - 1]) + Piezas(items[|items| - 1])
  }

  /** Number of units carrying a given SKU. */
  function Cuenta(us: seq<Unidad>, sku: string): nat
  {
    if us == [] then 0
    else Cuenta(us[..|us| - 1], sku) + (if us[|us| - 1].sku == sku then 1 else 0)
  }

  /** Pieces requested of a SKU over all lines of a quotation. */
  function CantidadSolicitada(items: seq<ItemCotizacion>, sku: string): nat
  {
    if items == [] then 0
    else
      var last := items[|items| - 1];
      CantidadSolicitada(items[..|items| - 1], sku) + (if last.producto.sku == sku then Piezas(last) else 0)
  }

  /** The nested expansion loops of the source: one append per piece. */
  method DesglosarUnidades(items: seq<ItemCotizacion>) returns (unidades: seq<Unidad>)
    ensures unidades == Expansion(items)
  {
    unidades := [];
    for i := 0 to |items|
      invariant unidades == Expansion(items[..i])
    {
      var item := items[i];
      var vol := item.producto.largo * item.producto.ancho * item.producto.alto / ESCALA_VOLUMEN;
      var j := 0;
      assert Unidad(item.producto.sku, item.producto.peso, vol, item.sucursalId) == UnidadDe(item);
      while j < item.cantidad
        invariant 0 <= j <= Piezas(item)
        invariant unidades == Expansion(items[..i]) + Repetir(UnidadDe(item), j)
      {
        unidades := unidades + [Unidad(item.producto.sku, item.producto.peso, vol, item.sucursalId)];
        assert Repetir(UnidadDe(item), j + 1) == Repetir(UnidadDe(item), j) + [UnidadDe(item)];
        j := j + 1;
      }
      assert items[..i + 1][..i] == items[..i];
    }
    assert items[..|items|] == items;
  }

  lemma {:induction false} RepetirEn(u: Unidad, n: nat, j: nat)
    requires j < n
    ensures |Repetir(u, n)| == n && Repetir(u, n)[j] == u
  {
    LongitudRepetir(u, n - 1);
    if j < n - 1 {
      RepetirEn(u, n - 1, j);
    }
  }

  lemma {:induction false} LongitudRepetir(u: Unidad, n: nat)
    ensures |Repetir(u, n)| == n
  {
    if n > 0 {
      LongitudRepetir(u, n - 1);
    }
  }

  lemma {:induction false} CuentaConcat(a: seq<Unidad>, b: seq<Unidad>, sku: string)
    ensures Cuenta(a + b, sku) == Cuenta(a, sku) + Cuenta(b, sku)
    decreases |b|
  {
    if b != [] {
      assert (a + b)[..|a + b| - 1] == a + b[..|b| - 1];
      CuentaConcat(a, b[..|b| - 1], sku);
    } else {
      assert a + b == a;
    }
  }

  lemma {:induction false} CuentaRepetir(u: Unidad, n: nat, sku: string)
    ensures Cuenta(Repetir(u, n), sku) == if u.sku == sku then n else 0
  {
    if n > 0 {
      CuentaRepetir(u, n - 1, sku);
      LongitudRepetir(u, n - 1);
      assert Repetir(u, n)[..n - 1] == Repetir(u, n - 1);
    }
  }

  lemma {:induction false} ExpansionConcat(a: seq<ItemCotizacion>, b: seq<ItemCotizacion>)
    ensures Expansion(a + b) == Expansion(a) + Expansion(b)
    decreases |b|
  {
    if b == [] {
      assert a + b == a;
    } else {
      assert (a + b)[..|a + b| - 1] == a + b[..|b| - 1];
      ExpansionConcat(a, b[..|b| - 1]);
    }
  }

  /** The expansion has exactly one unit per piece. */
  lemma {:induction false} LongitudExpansion(items: seq<ItemCotizacion>)
    ensures |Expansion(items)| == TotalPiezas(items)
  {
    if items != [] {
      LongitudExpansion(items[..|items| - 1]);
      LongitudRepetir(UnidadDe(items[|items| - 1]), Piezas(items[|items| - 1]));
    }
  }

  /**
   * Line i contributes exactly max(Cantidad, 0) consecutive units, right after
   * the units of the lines before it; each carries the line's SKU, unit weight,
   * branch and the volume Largo*Ancho*Alto/1_000_000.
   */
  lemma {:induction false} ExpansionPosicion(items: seq<ItemCotizacion>, i: nat, j: nat)
    requires i < |items|
    requires j < Piezas(items[i])
    ensures |Expansion(items)| == TotalPiezas(items)
    ensures TotalPiezas(items[..i]) + j < |Expansion(items)|
    ensures Expansion(items)[TotalPiezas(items[..i]) + j]
         == Unidad(items[i].producto.sku, items[i].producto.peso,
                   items[i].producto.largo * items[i].producto.ancho * items[i].producto.alto / ESCALA_VOLUMEN,
                   items[i].sucursalId)
  {
    var pre, mid, post := items[..i], [items[i]], items[i + 1..];
    var u := UnidadDe(items[i]);
    assert items == pre + mid + post;
    ExpansionConcat(pre + mid, post);
    ExpansionConcat(pre, mid);
    assert mid[..0] == [];
    assert Expansion(mid) == Repetir(u, Piezas(items[i]));
    LongitudExpansion(pre);
    LongitudExpansion(items);
    RepetirEn(u, Piezas(items[i]), j);
    var e := Expansion(pre) + Repetir(u, Piezas(items[i]));
    assert Expansion(items) == e + Expansion(post);
    assert e[|Expansion(pre)| + j] == u;
  }

  /** Conservation: the expansion holds, per SKU, exactly the pieces requested. */
  lemma {:induction false} ExpansionConserva(items: seq<ItemCotizacion>, sku: string)
    ensures Cuenta(Expansion(items), sku) == CantidadSolicitada(items, sku)
  {
    if items != [] {
      var last := items[|items| - 1];
      ExpansionConserva(items[..|items| - 1], sku);
      CuentaConcat(Expansion(items[..|items| - 1]), Repetir(UnidadDe(last), Piezas(last)), sku);
      CuentaRepetir(UnidadDe(last), Piezas(last), sku);
    }
  }
}
