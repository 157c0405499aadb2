/** The purchase-history screen (ListaComprasComponent): searches, totals and the
    per-purchase summaries shown in its table. */
module ListaCompras {
  import opened Wrappers
  import opened Modelo
  import opened Texto
  import opened Colecciones

  /** The lines of a purchase; a purchase without `detalle` has none. */
  function LineasDe(c: Compra): seq<CompraDetalle> {
    if c.detalle.Some? then c.detalle.value else []
  }

  function TotalDeCompra(c: Compra): real { Num(c.total) }

  /** `totalCompras`: the sum of `total` over the purchases, a missing total counting 0. */
  function TotalCompras(compras: seq<Compra>): (t: real)
    ensures compras == [] ==> t == 0.0
    ensures |compras| == 1 ==> t == Num(compras[0].total)
    ensures (forall k :: 0 <= k < |compras| ==> Num(compras[k].total) >= 0.0) ==> t >= 0.0
  {
    SumarNoNegativoSiProcede(compras);
    Sumar(compras, TotalDeCompra)
  }

  lemma SumarNoNegativoSiProcede(compras: seq<Compra>)
    ensures (forall k :: 0 <= k < |compras| ==> Num(compras[k].total) >= 0.0) ==> Sumar(compras, TotalDeCompra) >= 0.0
  {
    if forall k :: 0 <= k < |compras| ==> Num(compras[k].total) >= 0.0 {
      SumarNoNegativo(compras, TotalDeCompra);
    }
  }

  /** The total of a list split in two is the sum of the totals of the parts. */
  lemma TotalComprasConcat(a: seq<Compra>, b: seq<Compra>)
    ensures TotalCompras(a + b) == TotalCompras(a) + TotalCompras(b)
  {
    SumarConcat(a, b, TotalDeCompra);
  }

  function CantidadDe(d: CompraDetalle): real { d.cantidad }

  /** `getTotalProductos`: units over the purchase's lines, 0 without lines. */
  function TotalProductos(c: Compra): (n: real)
    ensures LineasDe(c) == [] ==> n == 0.0
    ensures |LineasDe(c)| == 1 ==> n == LineasDe(c)[0].cantidad
    ensures (forall k :: 0 <= k < |LineasDe(c)| ==> LineasDe(c)[k].cantidad >= 0.0) ==> n >= 0.0
  {
    assert |LineasDe(c)| == 1 ==> Sumar(LineasDe(c), CantidadDe) == Sumar([], CantidadDe) + CantidadDe(LineasDe(c)[0]);
    if forall k :: 0 <= k < |LineasDe(c)| ==> LineasDe(c)[k].cantidad >= 0.0 then
      SumarNoNegativo(LineasDe(c), CantidadDe);
      Sumar(LineasDe(c), CantidadDe)
    else
      Sumar(LineasDe(c), CantidadDe)
  }

  /** A purchase whose lines are those of two others in turn has the units of both. */
  lemma TotalProductosConcat(a: Compra, b: Compra, c: Compra)
    requires LineasDe(c) == LineasDe(a) + LineasDe(b)
    ensures TotalProductos(c) == TotalProductos(a) + TotalProductos(b)
  {
    SumarConcat(LineasDe(a), LineasDe(b), CantidadDe);
  }

  /** The name shown for the first line: its product's name, or 'Producto' when there is
      no product or its name is empty. */
  function PrimerNombre(d: CompraDetalle): (r: string)
    ensures r != []
    ensures d.producto.Some? && d.producto.value.nombre != [] ==> r == d.producto.value.nombre
  {
    if d.producto.Some? && d.producto.value.nombre != [] then d.producto.value.nombre else "Producto"
  }

  /** `getProductosResumen`: 'Sin productos', the first name, or the first name followed by
      how many more lines there are. */
  function ProductosResumen(c: Compra): (r: string)
    ensures LineasDe(c) == [] ==> r == "Sin productos"
    ensures |LineasDe(c)| == 1 ==> r == PrimerNombre(LineasDe(c)[0])
    ensures |LineasDe(c)| >= 2 ==>
      var p := PrimerNombre(LineasDe(c)[0]);
      && |r| == |p| + |NatATexto(|LineasDe(c)| - 1)| + 7
      && p <= r
      && r[|p|..|p| + 3] == " y "
      && r[|r| - 4..] == " más"
      && r[|p| + 3..|r| - 4] == NatATexto(|LineasDe(c)| - 1)
  {
    var ls := LineasDe(c);
    if |ls| == 0 then "Sin productos"
    else if |ls| == 1 then PrimerNombre(ls[0])
    else PrimerNombre(ls[0]) + " y " + NatATexto(|ls| - 1) + " más"
  }

  /** Two purchases with at least two lines and the same first name have the same summary
      only when they have the same number of lines: the count is never lost. */
  lemma {:induction false} ResumenDistingueCantidad(a: Compra, b: Compra)
    requires |LineasDe(a)| >= 2 && |LineasDe(b)| >= 2
    requires PrimerNombre(LineasDe(a)[0]) == PrimerNombre(LineasDe(b)[0])
    requires ProductosResumen(a) == ProductosResumen(b)
    ensures |LineasDe(a)| == |LineasDe(b)|
  {
    var ra, rb := ProductosResumen(a), ProductosResumen(b);
    var p := PrimerNombre(LineasDe(a)[0]);
    assert ra[|p| + 3..|ra| - 4] == rb[|p| + 3..|rb| - 4];
    NatATextoInyectivo(|LineasDe(a)| - 1, |LineasDe(b)| - 1);
  }

  /** The name shown for a line: the product's name, or 'Producto sin nombre' when the
      line has no product or the name is empty. */
  function NombreVisible(d: CompraDetalle): (n: string)
    ensures n != []
    ensures d.producto.Some? && d.producto.value.nombre != [] ==> n == d.producto.value.nombre
    ensures !(d.producto.Some? && d.producto.value.nombre != []) ==> n == "Producto sin nombre"
  {
    if d.producto.Some? && d.producto.value.nombre != [] then d.producto.value.nombre else "Producto sin nombre"
  }

  /** The code shown for a line: the product's code, empty when there is none. */
  function CodigoVisible(d: CompraDetalle): (c: string)
    ensures d.producto.Some? ==> c == d.producto.value.codigo
    ensures d.producto.None? ==> c == []
  {
    if d.producto.Some? then d.producto.value.codigo else ""
  }

  /** The product cell of a row of the purchase PDF, before truncation: the shown name,
      then, only when there is a code, a space and the code in parentheses. */
  function NombreFila(d: CompraDetalle): (r: string)
    ensures NombreVisible(d) <= r
    ensures CodigoVisible(d) == [] ==> r == NombreVisible(d)
    ensures CodigoVisible(d) != [] ==>
      |r| == |NombreVisible(d)| + |CodigoVisible(d)| + 3
      && r[|NombreVisible(d)|..] == " (" + CodigoVisible(d) + ")"
  {
    NombreVisible(d) + (if CodigoVisible(d) != [] then " (" + CodigoVisible(d) + ")" else "")
  }

  /** Two lines with the same shown name get the same cell exactly when they show the
      same code: the cell tells the codes apart. */
  lemma {:induction false} NombreFilaDistingueCodigo(a: CompraDetalle, b: CompraDetalle)
    requires NombreVisible(a) == NombreVisible(b)
    ensures NombreFila(a) == NombreFila(b) <==> CodigoVisible(a) == CodigoVisible(b)
  {
    var n, ca, cb := NombreVisible(a), CodigoVisible(a), CodigoVisible(b);
    if NombreFila(a) == NombreFila(b) && ca != [] && cb != [] {
      var ra, rb := NombreFila(a), NombreFila(b);
      assert |ca| == |cb|;
      assert ca == ra[|n|..][2..2 + |ca|];
      assert cb == rb[|n|..][2..2 + |cb|];
    }
  }

  /** The truncation rule for that cell: more than 32 characters become the first 29 plus
      '...', exactly 32; anything shorter is left alone. */
  function Truncar(s: string): (r: string)
    ensures |r| <= 32
    ensures |s| <= 32 ==> r == s
    ensures |s| > 32 ==> |r| == 32 && r[..29] == s[..29] && r[29..] == "..."
  {
    if |s| > 32 then s[..29] + "..." else s
  }

  /** Truncating twice is truncating once. */
  lemma TruncarIdempotente(s: string)
    ensures Truncar(Truncar(s)) == Truncar(s)
  {
  }

  /** The truthy product ids on a list of lines (0 is falsy and ignored). */
  function IdsLineas(ls: seq<CompraDetalle>): (ids: set<int>)
    ensures 0 !in ids
    ensures |ids| <= |ls|
    decreases |ls|
  {
    if ls == [] then {}
    else
      var n := |ls| - 1;
      IdsLineas(ls[..n]) + (if ls[n].productoId != 0 then {ls[n].productoId} else {})
  }

  /** Some line carries product id `x`. */
  predicate Aparece(ls: seq<CompraDetalle>, x: int) {
    exists k :: 0 <= k < |ls| && ls[k].productoId == x
  }

  /** One more line adds its product id, when truthy. */
  lemma IdsLineasPaso(ls: seq<CompraDetalle>, j: int)
    requires 0 <= j < |ls|
    ensures IdsLineas(ls[..j + 1]) == IdsLineas(ls[..j]) + (if ls[j].productoId != 0 then {ls[j].productoId} else {})
  {
    assert ls[..j + 1][..j] == ls[..j];
  }

  /** An id is collected exactly when it is truthy and some line carries it. */
  lemma {:induction false} IdsLineasExactos(ls: seq<CompraDetalle>, x: int)
    ensures x in IdsLineas(ls) <==> x != 0 && Aparece(ls, x)
  {
    if ls != [] {
      var n := |ls| - 1;
      IdsLineasExactos(ls[..n], x);
      if x != 0 && Aparece(ls, x) {
        var k :| 0 <= k < |ls| && ls[k].productoId == x;
        if k < n {
          assert ls[..n][k].productoId == x;
        }
      }
      if Aparece(ls[..n], x) {
        var k :| 0 <= k < n && ls[..n][k].productoId == x;
        assert ls[k].productoId == x;
      }
    }
  }

  /** Number of lines over a list of purchases. */
  function NumeroLineas(compras: seq<Compra>): nat
    decreases |compras|
  {
    if compras == [] then 0 else NumeroLineas(compras[..|compras| - 1]) + |LineasDe(compras[|compras| - 1])|
  }

  /** The truthy product ids over all lines of all the purchases; never more than there
      are lines. */
  function IdsCompras(compras: seq<Compra>): (ids: set<int>)
    ensures 0 !in ids
    ensures |ids| <= NumeroLineas(compras)
    decreases |compras|
  {
    if compras == [] then {}
    else
      var n := |compras| - 1;
      IdsCompras(compras[..n]) + IdsLineas(LineasDe(compras[n]))
  }

  /** Some purchase of the list has a line carrying product id `x`. */
  predicate ApareceEnCompras(compras: seq<Compra>, x: int) {
    exists i :: 0 <= i < |compras| && Aparece(LineasDe(compras[i]), x)
  }

  /** One more purchase adds the ids of its lines. */
  lemma IdsComprasPaso(compras: seq<Compra>, i: int)
    requires 0 <= i < |compras|
    ensures IdsCompras(compras[..i + 1]) == IdsCompras(compras[..i]) + IdsLineas(LineasDe(compras[i]))
  {
    assert compras[..i + 1][..i] == compras[..i];
  }

  /** An id is counted exactly when it is truthy and appears on a line of a purchase. */
  lemma {:induction false} IdsComprasExactos(compras: seq<Compra>, x: int)
    ensures x in IdsCompras(compras) <==> x != 0 && ApareceEnCompras(compras, x)
  {
    if compras != [] {
      var n := |compras| - 1;
      var previas := compras[..n];
      IdsComprasExactos(previas, x);
      IdsLineasExactos(LineasDe(compras[n]), x);
      assert IdsCompras(compras) == IdsCompras(previas) + IdsLineas(LineasDe(compras[n]));
      assert ApareceEnCompras(compras, x) <==> ApareceEnCompras(previas, x) || Aparece(LineasDe(compras[n]), x) by {
        if ApareceEnCompras(compras, x) {
          var i :| 0 <= i < |compras| && Aparece(LineasDe(compras[i]), x);
          if i < n {
            assert previas[i] == compras[i];
          }
        }
        if ApareceEnCompras(previas, x) {
          var i :| 0 <= i < n && Aparece(LineasDe(previas[i]), x);
          assert previas[i] == compras[i];
        }
      }
    }
  }

  /** The inner loop of `getTotalProductosGeneral`: adds the truthy product id of each
      line to `ids`. */
  method AnadirIds(ids: set<int>, lineas: seq<CompraDetalle>) returns (r: set<int>)
    ensures r == ids + IdsLineas(lineas)
  {
    r := ids;
    var j := 0;
    while j < |lineas|
      invariant 0 <= j <= |lineas|
      invariant r == ids + IdsLineas(lineas[..j])
    {
      if lineas[j].productoId != 0 {
        r := r + {lineas[j].productoId};
      }
      IdsLineasPaso(lineas, j);
      j := j + 1;
    }
    assert lineas[..j] == lineas;
  }

  /** The purchase-history screen. */
  class ListaComprasComponent {
    var compras: seq<Compra>
    var comprasFiltradas: seq<Compra>
    var busquedaSerie: string
    var busquedaNumero: string
    /** The date pickers, as instants; `None` when not chosen. */
    var fechaInicio: Option<int>
    var fechaFin: Option<int>

    constructor ()
      ensures compras == [] && comprasFiltradas == []
      ensures busquedaSerie == "" && busquedaNumero == "" && fechaInicio == None && fechaFin == None
    {
      compras, comprasFiltradas := [], [];
      busquedaSerie, busquedaNumero := "", "";
      fechaInicio, fechaFin := None, None;
    }

    /** `cargarCompras`; `respuesta` is the backend's answer, `None` for an error, which
        leaves the screen as it was. */
    method CargarCompras(respuesta: Option<seq<Compra>>)
      modifies this`compras, this`comprasFiltradas
      ensures respuesta.Some? ==> compras == respuesta.value && comprasFiltradas == respuesta.value
      ensures respuesta.None? ==> compras == old(compras) && comprasFiltradas == old(comprasFiltradas)
    {
      if respuesta.Some? {
        compras := respuesta.value;
        comprasFiltradas := respuesta.value;
      }
    }

    /** `buscarPorSerie`: a blank term (one whose trim is empty) shows every purchase
        without querying; otherwise the backend's answer, or nothing when the query fails. */
    method BuscarPorSerie(respuesta: Option<seq<Compra>>)
      modifies this`comprasFiltradas
      ensures EsBlanco(busquedaSerie) ==> comprasFiltradas == compras
      ensures !EsBlanco(busquedaSerie) ==> comprasFiltradas == respuesta.GetOr([])
    {
      if EsBlanco(busquedaSerie) {
        comprasFiltradas := compras;
        return;
      }
      comprasFiltradas := if respuesta.Some? then respuesta.value else [];
    }

    /** `buscarPorNumero`: the same rule for the number search. */
    method BuscarPorNumero(respuesta: Option<seq<Compra>>)
      modifies this`comprasFiltradas
      ensures EsBlanco(busquedaNumero) ==> comprasFiltradas == compras
      ensures !EsBlanco(busquedaNumero) ==> comprasFiltradas == respuesta.GetOr([])
    {
      if EsBlanco(busquedaNumero) {
        comprasFiltradas := compras;
        return;
      }
      comprasFiltradas := if respuesta.Some? then respuesta.value else [];
    }

    /** `buscarPorFechas`: without both dates it only warns (`avisado`) and changes
        nothing. */
    method BuscarPorFechas(respuesta: Option<seq<Compra>>) returns (avisado: bool)
      modifies this`comprasFiltradas
      ensures avisado <==> fechaInicio.None? || fechaFin.None?
      ensures avisado ==> comprasFiltradas == old(comprasFiltradas)
      ensures !avisado ==> comprasFiltradas == respuesta.GetOr([])
    {
      if fechaInicio.None? || fechaFin.None? {
        return true;
      }
      comprasFiltradas := if respuesta.Some? then respuesta.value else [];
      avisado := false;
    }

    method LimpiarFiltros()
      modifies this`busquedaSerie, this`busquedaNumero, this`fechaInicio, this`fechaFin, this`comprasFiltradas
      ensures busquedaSerie == "" && busquedaNumero == "" && fechaInicio == None && fechaFin == None
      ensures comprasFiltradas == compras
    {
      busquedaSerie := "";
      busquedaNumero := "";
      fechaInicio := None;
      fechaFin := None;
      comprasFiltradas := compras;
    }

    /** `totalCompras` over the purchases on screen. */
    function TotalComprasVisibles(): (t: real)
      reads this
      ensures t == TotalCompras(comprasFiltradas)
      ensures comprasFiltradas == [] ==> t == 0.0
      ensures (forall k :: 0 <= k < |comprasFiltradas| ==> Num(comprasFiltradas[k].total) >= 0.0) ==> t >= 0.0
    {
      TotalCompras(comprasFiltradas)
    }

    /** `getTotalProductosGeneral`: the number of distinct truthy product ids over the
        lines of the purchases on screen, collected purchase by purchase. */
    method TotalProductosGeneral() returns (n: nat)
      ensures n == |IdsCompras(comprasFiltradas)|
      ensures n <= NumeroLineas(comprasFiltradas)
    {
      var compras := comprasFiltradas;
      var productosUnicos: set<int> := {};
      var i := 0;
      while i < |compras|
        invariant 0 <= i <= |compras|
        invariant productosUnicos == IdsCompras(compras[..i])
      {
        productosUnicos := AnadirIds(productosUnicos, LineasDe(compras[i]));
        IdsComprasPaso(compras, i);
        i := i + 1;
      }
      assert compras[..i] == compras;
      n := |productosUnicos|;
    }
  }
}
