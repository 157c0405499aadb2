/** The purchase basket behind the purchase-entry screen (CanastaComprasService): an
    in-memory list of purchase lines, at most one per product, each carrying the split of
    its price into taxable base and IGV (Peru's 18% general sales tax, included in the price). */
module CanastaCompras {
  import opened Wrappers
  import opened Modelo
  import opened Colecciones

  /** Prices include 18% IGV, so the tax-exclusive base is the price divided by 1.18. */
  const FACTOR_IGV: real := 1.18

  /** The truthiness test `detalle.precio && detalle.cantidad` guarding the recomputation. */
  predicate Recalculable(d: CompraDetalle) {
    d.precio != 0.0 && d.cantidad != 0.0
  }

  /** The line's total is its price times its quantity (a missing total counting as 0). */
  predicate AlDia(d: CompraDetalle) {
    Num(d.total) == d.precio * d.cantidad
  }

  /** The derived amounts are a consistent split: base + IGV = total and base = total / 1.18. */
  predicate Cuadrada(d: CompraDetalle) {
    Num(d.baseImponible) + Num(d.igv) == Num(d.total) && Num(d.baseImponible) * FACTOR_IGV == Num(d.total)
  }

  predicate TodasCuadradas(c: seq<CompraDetalle>) {
    forall k :: 0 <= k < |c| ==> Cuadrada(c[k])
  }

  /** What the purchase screen guarantees of every line it lets into the basket: positive
      quantity and price, and derived amounts computed from them. */
  predicate EnRegla(d: CompraDetalle) {
    d.cantidad > 0.0 && d.precio > 0.0 && AlDia(d) && Cuadrada(d)
  }

  /** At most one line per product. */
  predicate Unicos(c: seq<CompraDetalle>) {
    forall i, j :: 0 <= i < j < |c| ==> c[i].productoId != c[j].productoId
  }

  /** `calcularMontos`: when price and quantity are both non-zero, sets
      base = price / 1.18 * quantity, IGV = (price - price / 1.18) * quantity and
      total = price * quantity; otherwise leaves the line as it is. */
  function CalcularMontos(d: CompraDetalle): (r: CompraDetalle)
    ensures r.id == d.id && r.productoId == d.productoId && r.producto == d.producto
    ensures r.cantidad == d.cantidad && r.precio == d.precio
    ensures Recalculable(d) ==> r.baseImponible.Some? && r.igv.Some? && r.total.Some?
    ensures Recalculable(d) ==> AlDia(r) && Cuadrada(r)
    ensures Recalculable(d) ==> r.igv.value * FACTOR_IGV == r.total.value * 0.18
    ensures !Recalculable(d) ==> r == d
  {
    if d.precio != 0.0 && d.cantidad != 0.0 then
      var baseUnitario := d.precio / FACTOR_IGV;
      var igvUnitario := d.precio - baseUnitario;
      d.(baseImponible := Some(baseUnitario * d.cantidad),
         igv := Some(igvUnitario * d.cantidad),
         total := Some(d.precio * d.cantidad))
    else
      d
  }

  /** `canasta.find(item => item.productoId === id)`, as an index: the first line for the
      product, or -1 when there is none. */
  function Buscar(c: seq<CompraDetalle>, productoId: int): (r: int)
    ensures -1 <= r < |c|
    ensures r >= 0 ==> c[r].productoId == productoId
    ensures r >= 0 ==> forall k :: 0 <= k < r ==> c[k].productoId != productoId
    ensures r < 0 <==> forall k :: 0 <= k < |c| ==> c[k].productoId != productoId
  {
    if c == [] then -1
    else if c[0].productoId == productoId then 0
    else
      var k := Buscar(c[1..], productoId);
      if k < 0 then -1 else k + 1
  }

  /** `agregarProducto` on a list value. A product already present keeps its one line at
      the same position: the quantities add up and the new price replaces the old one.
      A new product is appended and nothing before it changes. */
  function Agregar(c: seq<CompraDetalle>, d: CompraDetalle): (r: seq<CompraDetalle>)
    ensures var i := Buscar(c, d.productoId);
      i >= 0 ==>
        && |r| == |c|
        && (forall k :: 0 <= k < |c| && k != i ==> r[k] == c[k])
        && r[i].productoId == d.productoId && r[i].producto == c[i].producto
        && r[i].cantidad == c[i].cantidad + d.cantidad
        && r[i].precio == d.precio
        && (Recalculable(r[i]) ==> AlDia(r[i]))
        && r[i] == CalcularMontos(c[i].(cantidad := c[i].cantidad + d.cantidad, precio := d.precio))
    ensures Buscar(c, d.productoId) < 0 ==> r == c + [CalcularMontos(d)]
  {
    var i := Buscar(c, d.productoId);
    if i >= 0 then
      c[i := CalcularMontos(c[i].(cantidad := c[i].cantidad + d.cantidad, precio := d.precio))]
    else
      c + [CalcularMontos(d)]
  }

  /** Adding never creates a second line for a product, keeps every line's tax split
      consistent, and adding through the purchase screen (positive quantity and price)
      keeps every line up to date. */
  lemma AgregarConserva(c: seq<CompraDetalle>, d: CompraDetalle)
    ensures Unicos(c) ==> Unicos(Agregar(c, d))
    ensures TodasCuadradas(c) && Cuadrada(d) ==> TodasCuadradas(Agregar(c, d))
    ensures (forall k :: 0 <= k < |c| ==> EnRegla(c[k])) && d.cantidad > 0.0 && d.precio > 0.0 ==>
      forall k :: 0 <= k < |Agregar(c, d)| ==> EnRegla(Agregar(c, d)[k])
  {
  }

  /** `eliminarProducto` on a list value: every line of that product goes and the rest stay,
      in order; an absent product leaves the list as it is. */
  function Eliminar(c: seq<CompraDetalle>, productoId: int): (r: seq<CompraDetalle>)
    ensures forall k :: 0 <= k < |r| ==> r[k].productoId != productoId
    ensures forall k :: 0 <= k < |c| && c[k].productoId != productoId ==> c[k] in r
    ensures Subsecuencia(r, c)
    ensures Buscar(c, productoId) < 0 ==> r == c
  {
    Filtrar(c, (item: CompraDetalle) => item.productoId != productoId)
  }

  /** In a basket with one line per product, removing a product removes exactly its line
      (the others keep their order) and keeps one line per product. */
  lemma EliminarQuitaSuLinea(c: seq<CompraDetalle>, productoId: int)
    requires Unicos(c)
    ensures var i := Buscar(c, productoId);
      i >= 0 ==> Eliminar(c, productoId) == c[..i] + c[i + 1..]
    ensures Unicos(Eliminar(c, productoId))
  {
    var i := Buscar(c, productoId);
    if i >= 0 {
      FiltrarSinUno(c, (item: CompraDetalle) => item.productoId != productoId, i);
      UnicosSinUno(c, i);
    }
  }

  lemma UnicosSinUno(c: seq<CompraDetalle>, i: nat)
    requires Unicos(c) && i < |c|
    ensures Unicos(c[..i] + c[i + 1..])
  {
    var r := c[..i] + c[i + 1..];
    forall a, b | 0 <= a < b < |r| ensures r[a].productoId != r[b].productoId {
      var a' := if a < i then a else a + 1;
      var b' := if b < i then b else b + 1;
      assert r[a] == c[a'] && r[b] == c[b'];
    }
  }

  /** `actualizarCantidad` on a list value: only the product's line changes, its quantity
      is set with no positivity check, and its amounts are recomputed when price and new
      quantity are both non-zero. An absent product leaves the list as it is. */
  function ConCantidad(c: seq<CompraDetalle>, productoId: int, cantidad: real): (r: seq<CompraDetalle>)
    ensures |r| == |c|
    ensures forall k :: 0 <= k < |c| ==> r[k].productoId == c[k].productoId && r[k].precio == c[k].precio
    ensures forall k :: 0 <= k < |c| && k != Buscar(c, productoId) ==> r[k] == c[k]
    ensures var i := Buscar(c, productoId);
      i >= 0 ==> r[i].cantidad == cantidad && (Recalculable(r[i]) ==> AlDia(r[i]))
                 && r[i] == CalcularMontos(c[i].(cantidad := cantidad))
  {
    var i := Buscar(c, productoId);
    if i >= 0 then c[i := CalcularMontos(c[i].(cantidad := cantidad))] else c
  }

  /** Setting a quantity keeps one line per product and every line's split consistent;
      a positive quantity, as the purchase screen sends, keeps every line up to date. */
  lemma ConCantidadConserva(c: seq<CompraDetalle>, productoId: int, cantidad: real)
    ensures Unicos(c) ==> Unicos(ConCantidad(c, productoId, cantidad))
    ensures TodasCuadradas(c) ==> TodasCuadradas(ConCantidad(c, productoId, cantidad))
    ensures (forall k :: 0 <= k < |c| ==> EnRegla(c[k])) && cantidad > 0.0 ==>
      forall k :: 0 <= k < |c| ==> EnRegla(ConCantidad(c, productoId, cantidad)[k])
  {
  }

  /** `actualizarPrecio` on a list value: the same as ConCantidad, for the price. */
  function ConPrecio(c: seq<CompraDetalle>, productoId: int, precio: real): (r: seq<CompraDetalle>)
    ensures |r| == |c|
    ensures forall k :: 0 <= k < |c| ==> r[k].productoId == c[k].productoId && r[k].cantidad == c[k].cantidad
    ensures forall k :: 0 <= k < |c| && k != Buscar(c, productoId) ==> r[k] == c[k]
    ensures var i := Buscar(c, productoId);
      i >= 0 ==> r[i].precio == precio && (Recalculable(r[i]) ==> AlDia(r[i]))
                 && r[i] == CalcularMontos(c[i].(precio := precio))
  {
    var i := Buscar(c, productoId);
    if i >= 0 then c[i := CalcularMontos(c[i].(precio := precio))] else c
  }

  /** Setting a price keeps one line per product and every line's split consistent;
      a positive price, as the purchase screen sends, keeps every line up to date. */
  lemma ConPrecioConserva(c: seq<CompraDetalle>, productoId: int, precio: real)
    ensures Unicos(c) ==> Unicos(ConPrecio(c, productoId, precio))
    ensures TodasCuadradas(c) ==> TodasCuadradas(ConPrecio(c, productoId, precio))
    ensures (forall k :: 0 <= k < |c| ==> EnRegla(c[k])) && precio > 0.0 ==>
      forall k :: 0 <= k < |c| ==> EnRegla(ConPrecio(c, productoId, precio)[k])
  {
  }

  /** The terms of the three `reduce` sums: a missing amount counts as 0. */
  function TotalDe(d: CompraDetalle): real { Num(d.total) }
  function BaseDe(d: CompraDetalle): real { Num(d.baseImponible) }
  function IgvDe(d: CompraDetalle): real { Num(d.igv) }

  /** When every line's split is consistent, so are the basket's sums: the total is the
      taxable base plus IGV, the base is the total / 1.18 and IGV is 18% of the base. */
  lemma TotalesCuadran(c: seq<CompraDetalle>)
    requires TodasCuadradas(c)
    ensures Sumar(c, TotalDe) == Sumar(c, BaseDe) + Sumar(c, IgvDe)
    ensures Sumar(c, BaseDe) * FACTOR_IGV == Sumar(c, TotalDe)
  {
    SumarAditivo(c, BaseDe, IgvDe, TotalDe);
    SumarEscala(c, BaseDe, TotalDe, FACTOR_IGV);
  }

  /** Adding a product through the purchase screen raises the basket's total by price times
      quantity; when the product was already there, the units already in the basket are also
      re-priced at the new price. */
  lemma TotalTrasAgregar(c: seq<CompraDetalle>, d: CompraDetalle)
    requires var i := Buscar(c, d.productoId); i >= 0 ==> EnRegla(c[i])
    requires d.precio > 0.0 && d.cantidad > 0.0
    ensures Buscar(c, d.productoId) < 0 ==>
      Sumar(Agregar(c, d), TotalDe) == Sumar(c, TotalDe) + d.precio * d.cantidad
    ensures var i := Buscar(c, d.productoId);
      i >= 0 ==>
        Sumar(Agregar(c, d), TotalDe) ==
          Sumar(c, TotalDe) + d.precio * d.cantidad + (d.precio - c[i].precio) * c[i].cantidad
  {
    var i := Buscar(c, d.productoId);
    if i >= 0 {
      TotalTrasFusion(c, d, i);
    } else {
      TotalTrasAlta(c, d);
    }
  }

  lemma TotalTrasAlta(c: seq<CompraDetalle>, d: CompraDetalle)
    requires Buscar(c, d.productoId) < 0
    requires d.precio > 0.0 && d.cantidad > 0.0
    ensures Sumar(Agregar(c, d), TotalDe) == Sumar(c, TotalDe) + d.precio * d.cantidad
  {
    var nuevo := CalcularMontos(d);
    assert Agregar(c, d) == c + [nuevo];
    SumarConcat(c, [nuevo], TotalDe);
    assert [nuevo][..0] == [];
    assert Sumar([nuevo], TotalDe) == TotalDe(nuevo);
  }

  lemma TotalTrasFusion(c: seq<CompraDetalle>, d: CompraDetalle, i: nat)
    requires i < |c| && i == Buscar(c, d.productoId) && EnRegla(c[i])
    requires d.precio > 0.0 && d.cantidad > 0.0
    ensures Sumar(Agregar(c, d), TotalDe) ==
      Sumar(c, TotalDe) + d.precio * d.cantidad + (d.precio - c[i].precio) * c[i].cantidad
  {
    var despues := LineaFusionada(c, d, i);
    SumarActualizar(c, i, despues, TotalDe);
    RepreciarLinea(c[i].precio, c[i].cantidad, d.precio, d.cantidad);
  }

  /** The merged line of a re-added product, priced at the new price. */
  lemma LineaFusionada(c: seq<CompraDetalle>, d: CompraDetalle, i: nat) returns (despues: CompraDetalle)
    requires i < |c| && i == Buscar(c, d.productoId) && EnRegla(c[i])
    requires d.precio > 0.0 && d.cantidad > 0.0
    ensures Agregar(c, d) == c[i := despues]
    ensures TotalDe(despues) == d.precio * (c[i].cantidad + d.cantidad)
    ensures TotalDe(c[i]) == c[i].precio * c[i].cantidad
  {
    despues := CalcularMontos(c[i].(cantidad := c[i].cantidad + d.cantidad, precio := d.precio));
  }

  lemma RepreciarLinea(p0: real, q0: real, p: real, q: real)
    ensures p * (q0 + q) - p0 * q0 == p * q + (p - p0) * q0
  {
  }

  /** Without the purchase screen's gate, setting a quantity of 0 leaves the line's total
      stale: the quantity is 0 but the total still reflects the previous quantity. */
  lemma CantidadCeroDejaTotalDesfasado(c: seq<CompraDetalle>, productoId: int)
    requires Buscar(c, productoId) >= 0
    ensures var i := Buscar(c, productoId);
      ConCantidad(c, productoId, 0.0)[i].total == c[i].total
      && (c[i].precio * c[i].cantidad != 0.0 && AlDia(c[i]) ==> !AlDia(ConCantidad(c, productoId, 0.0)[i]))
  {
  }

  /** Re-adding a product: 2 units at 118.00 and then 3 more at 118.00 give one line of
      5 units with total 590, base 500 and IGV 90. */
  lemma EjemploFusion(d1: CompraDetalle, d2: CompraDetalle)
    requires d1.productoId == 5 && d1.cantidad == 2.0 && d1.precio == 118.0
    requires d2.productoId == 5 && d2.cantidad == 3.0 && d2.precio == 118.0
    ensures var c := Agregar(Agregar([], d1), d2);
      |c| == 1 && c[0].cantidad == 5.0 && c[0].total == Some(590.0)
      && c[0].baseImponible == Some(500.0) && c[0].igv == Some(90.0)
  {
    var c1 := Agregar([], d1);
    assert Buscar(c1, 5) == 0;
  }

  /** The basket service: a singleton whose list is changed in place. */
  class CanastaComprasService {
    var canasta: seq<CompraDetalle>

    /** The basket never holds two lines for one product. */
    ghost predicate Valid()
      reads this
    {
      Unicos(canasta)
    }

    constructor ()
      ensures Valid() && canasta == []
    {
      canasta := [];
    }

    method AgregarProducto(detalle: CompraDetalle)
      requires Valid()
      modifies this
      ensures Valid()
      ensures canasta == Agregar(old(canasta), detalle)
    {
      AgregarConserva(canasta, detalle);
      var i := Buscar(canasta, detalle.productoId);
      if i >= 0 {
        var existente := canasta[i];
        existente := existente.(cantidad := existente.cantidad + detalle.cantidad);
        existente := existente.(precio := detalle.precio);
        existente := CalcularMontos(existente);
        canasta := canasta[i := existente];
      } else {
        var nuevo := CalcularMontos(detalle);
        canasta := canasta + [nuevo];
      }
    }

    method EliminarProducto(productoId: int)
      requires Valid()
      modifies this
      ensures Valid()
      ensures canasta == Eliminar(old(canasta), productoId)
    {
      EliminarQuitaSuLinea(canasta, productoId);
      canasta := Eliminar(canasta, productoId);
    }

    method ActualizarCantidad(productoId: int, cantidad: real)
      requires Valid()
      modifies this
      ensures Valid()
      ensures canasta == ConCantidad(old(canasta), productoId, cantidad)
    {
      ConCantidadConserva(canasta, productoId, cantidad);
      var i := Buscar(canasta, productoId);
      if i >= 0 {
        var item := canasta[i].(cantidad := cantidad);
        canasta := canasta[i := CalcularMontos(item)];
      }
    }

    method ActualizarPrecio(productoId: int, precio: real)
      requires Valid()
      modifies this
      ensures Valid()
      ensures canasta == ConPrecio(old(canasta), productoId, precio)
    {
      ConPrecioConserva(canasta, productoId, precio);
      var i := Buscar(canasta, productoId);
      if i >= 0 {
        var item := canasta[i].(precio := precio);
        canasta := canasta[i := CalcularMontos(item)];
      }
    }

    /** `getCanasta`: a new list with the same lines in the same order. */
    method GetCanasta() returns (copia: seq<CompraDetalle>)
      ensures |copia| == |canasta| && forall k :: 0 <= k < |copia| ==> copia[k] == canasta[k]
    {
      copia := canasta[..];
    }

    method VaciarCanasta()
      modifies this
      ensures Valid() && canasta == []
    {
      canasta := [];
    }

    /** `getTotal`; 0 for an empty basket, and base + IGV whenever every line's split is
        consistent. */
    function GetTotal(): (t: real)
      reads this
      ensures canasta == [] ==> t == 0.0
      ensures TodasCuadradas(canasta) ==> t == Sumar(canasta, BaseDe) + Sumar(canasta, IgvDe)
    {
      if TodasCuadradas(canasta) then TotalesCuadran(canasta); Sumar(canasta, TotalDe)
      else Sumar(canasta, TotalDe)
    }

    /** `getBaseImponible`; 0 for an empty basket, and total / 1.18 whenever every line's
        split is consistent. */
    function GetBaseImponible(): (b: real)
      reads this
      ensures canasta == [] ==> b == 0.0
      ensures TodasCuadradas(canasta) ==> b * FACTOR_IGV == Sumar(canasta, TotalDe)
    {
      if TodasCuadradas(canasta) then TotalesCuadran(canasta); Sumar(canasta, BaseDe)
      else Sumar(canasta, BaseDe)
    }

    /** `getIgv`; 0 for an empty basket, and total - base whenever every line's split is
        consistent. */
    function GetIgv(): (v: real)
      reads this
      ensures canasta == [] ==> v == 0.0
      ensures TodasCuadradas(canasta) ==> v == Sumar(canasta, TotalDe) - Sumar(canasta, BaseDe)
    {
      if TodasCuadradas(canasta) then TotalesCuadran(canasta); Sumar(canasta, IgvDe)
      else Sumar(canasta, IgvDe)
    }
  }
}
