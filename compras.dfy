/** The purchase-entry screen (ComprasComponent): it chooses a supplier and products,
    validates what the user types before it reaches the basket, and builds the purchase
    sent to the backend. */
module Compras {
  import opened Wrappers
  import opened Modelo
  import opened Texto
  import opened Colecciones
  import opened CanastaCompras

  /** The alert `agregarACanasta` ends with. */
  datatype AvisoAgregar = SinProducto | CantidadNoPositiva | SinPrecioCompra | Agregado

  /** Why `generarCompra` refuses to send a purchase. */
  datatype AvisoCompra = SinProveedor | CanastaVacia

  /** One line of the purchase payload. */
  datatype LineaCompra = LineaCompra(productoId: int, cantidad: real, precio: real)

  /** The purchase payload posted to the backend. `proveedorId` is read with a non-null
      assertion, so a supplier without id sends no id. */
  datatype CompraNueva = CompraNueva(
    proveedorId: Option<int>, detalle: seq<LineaCompra>, formapagoId: int, descripcion: string)

  /** Purchase price of a product: `costoCompra || precioVenta || 0`. The sale price is a
      fallback only when the cost is missing or zero, and no price is ever invented. */
  function PrecioCompra(p: Producto): (r: real)
    ensures NumVerdadero(p.costoCompra) ==> r == p.costoCompra.value
    ensures !NumVerdadero(p.costoCompra) && NumVerdadero(p.precioVenta) ==> r == p.precioVenta.value
    ensures !NumVerdadero(p.costoCompra) && !NumVerdadero(p.precioVenta) ==> r == 0.0
  {
    if NumVerdadero(p.costoCompra) then p.costoCompra.value
    else if NumVerdadero(p.precioVenta) then p.precioVenta.value
    else 0.0
  }

  /** A negative cost is not replaced by the sale price: the product is refused even when
      its sale price is positive. */
  lemma CostoNegativoSeRechaza(p: Producto)
    requires p.costoCompra.Some? && p.costoCompra.value < 0.0
    ensures PrecioCompra(p) <= 0.0
  {
  }

  /** The checks of `agregarACanasta`, in order: a selected product with an id, a positive
      quantity, a positive purchase price. On success, the line handed to the basket. */
  function DecidirAgregar(sel: Option<Producto>, cantidad: real): (r: Result<CompraDetalle, AvisoAgregar>)
    ensures (sel.None? || sel.value.id.None?) <==> r == Failure(SinProducto)
    ensures sel.Some? && sel.value.id.Some? && cantidad <= 0.0 <==> r == Failure(CantidadNoPositiva)
    ensures sel.Some? && sel.value.id.Some? && cantidad > 0.0 && PrecioCompra(sel.value) <= 0.0
            <==> r == Failure(SinPrecioCompra)
    ensures r.Success? <==> sel.Some? && sel.value.id.Some? && cantidad > 0.0 && PrecioCompra(sel.value) > 0.0
    ensures r.Success? ==>
      && r.value.productoId == sel.value.id.value
      && r.value.cantidad == cantidad && r.value.cantidad > 0.0
      && r.value.precio == PrecioCompra(sel.value) && r.value.precio > 0.0
      && r.value.producto == sel
      && r.value.baseImponible.None? && r.value.igv.None? && r.value.total.None?
  {
    if sel.None? || sel.value.id.None? then Failure(SinProducto)
    else if cantidad <= 0.0 then Failure(CantidadNoPositiva)
    else
      var precio := PrecioCompra(sel.value);
      if precio <= 0.0 then Failure(SinPrecioCompra)
      else Success(CompraDetalle(None, cantidad, precio, None, None, None, sel.value.id.value, sel))
  }

  /** A line the screen hands to the basket obeys the basket's rules once its amounts are
      computed. */
  lemma LineaAceptadaEnRegla(sel: Option<Producto>, cantidad: real)
    requires DecidirAgregar(sel, cantidad).Success?
    ensures EnRegla(CalcularMontos(DecidirAgregar(sel, cantidad).value))
  {
  }

  /** The quantity and price edits reach the basket only for a parsed value above 0
      (a value that does not parse, NaN, is `None`). */
  predicate EdicionAceptada(valor: Option<real>) {
    valor.Some? && valor.value > 0.0
  }

  function CantidadDe(d: CompraDetalle): real { d.cantidad }

  /** `totalItems`: the units in the basket. Adding a product adds exactly its quantity,
      whether it merges into an existing line or opens a new one. */
  lemma {:induction false} TotalItemsTrasAgregar(c: seq<CompraDetalle>, d: CompraDetalle)
    ensures Sumar(Agregar(c, d), CantidadDe) == Sumar(c, CantidadDe) + d.cantidad
  {
    var i := Buscar(c, d.productoId);
    var r := Agregar(c, d);
    if i >= 0 {
      assert r == c[i := r[i]];
      SumarActualizar(c, i, r[i], CantidadDe);
    } else {
      SumarConcat(c, [CalcularMontos(d)], CantidadDe);
      assert [CalcularMontos(d)][..0] == [];
    }
  }

  /** `formapagoId`: 2 for Yape, 1 for anything else. */
  function FormaPago(metodoPago: string): (id: int)
    ensures id == 1 || id == 2
    ensures id == 2 <==> metodoPago == "yape"
  {
    if metodoPago == "yape" then 2 else 1
  }

  function ALinea(d: CompraDetalle): LineaCompra {
    LineaCompra(d.productoId, d.cantidad, d.precio)
  }

  /** The `detalle` of the payload: product, quantity and price of each basket line, in
      basket order. */
  function Lineas(c: seq<CompraDetalle>): (r: seq<LineaCompra>)
    ensures |r| == |c|
    ensures forall k :: 0 <= k < |c| ==>
      r[k].productoId == c[k].productoId && r[k].cantidad == c[k].cantidad && r[k].precio == c[k].precio
  {
    seq(|c|, k requires 0 <= k < |c| => ALinea(c[k]))
  }

  /** The checks and payload of `generarCompra`: a supplier must be selected and the
      basket must not be empty. */
  function ConstruirCompra(proveedor: Option<Proveedor>, c: seq<CompraDetalle>, metodoPago: string,
                           descripcion: string): (r: Result<CompraNueva, AvisoCompra>)
    ensures proveedor.None? <==> r == Failure(SinProveedor)
    ensures proveedor.Some? && c == [] <==> r == Failure(CanastaVacia)
    ensures r.Success? ==>
      && r.value.proveedorId == proveedor.value.id
      && r.value.detalle == Lineas(c)
      && r.value.formapagoId == FormaPago(metodoPago)
      && r.value.descripcion == descripcion
  {
    if proveedor.None? then Failure(SinProveedor)
    else if |c| == 0 then Failure(CanastaVacia)
    else Success(CompraNueva(proveedor.value.id, Lineas(c), FormaPago(metodoPago), descripcion))
  }

  function ImporteDe(l: LineaCompra): real { l.precio * l.cantidad }
  function UnidadesDe(l: LineaCompra): real { l.cantidad }

  /** What the backend can recompute from the payload agrees with what the screen showed:
      the units sum to `totalItems` and, while every line is up to date, price times
      quantity sums to `getTotal`. */
  lemma {:induction false} PagoCoincideConCanasta(c: seq<CompraDetalle>)
    ensures Sumar(Lineas(c), UnidadesDe) == Sumar(c, CantidadDe)
    ensures (forall k :: 0 <= k < |c| ==> AlDia(c[k])) ==> Sumar(Lineas(c), ImporteDe) == Sumar(c, TotalDe)
  {
    if c != [] {
      var n := |c| - 1;
      assert Lineas(c)[..n] == Lineas(c[..n]);
      PagoCoincideConCanasta(c[..n]);
      assert Lineas(c)[n] == ALinea(c[n]);
    }
  }

  /** What `aplicarFiltros` keeps for a non-blank search term: the lower-cased term occurs
      in the lower-cased name or code, or in a non-empty description. */
  predicate CoincideTermino(p: Producto, termino: string) {
    Contiene(Minusculas(p.nombre), termino)
    || Contiene(Minusculas(p.codigo), termino)
    || (TextoVerdadero(p.descripcion) && Contiene(Minusculas(p.descripcion.value), termino))
  }

  /** A selected category filters only when it is truthy (not null and not 0). */
  predicate CategoriaActiva(categoria: Option<int>) {
    categoria.Some? && categoria.value != 0
  }

  predicate EnCategoria(p: Producto, categoria: Option<int>) {
    p.categoria.Some? && p.categoria.value.id == categoria
  }

  /** `aplicarFiltros` on values: an order-preserving sublist of the products. A blank term
      and no category filter nothing; otherwise a kept product matches the term (when
      not blank) and the category (when one is chosen), and every matching product is kept. */
  function FiltrarProductos(productos: seq<Producto>, termino: string, categoria: Option<int>): (r: seq<Producto>)
    ensures Subsecuencia(r, productos)
    ensures Recortar(termino) == [] && !CategoriaActiva(categoria) ==> r == productos
    ensures forall k :: 0 <= k < |r| ==>
      (Recortar(termino) != [] ==> CoincideTermino(r[k], Minusculas(termino)))
      && (CategoriaActiva(categoria) ==> EnCategoria(r[k], categoria))
    ensures forall k :: 0 <= k < |productos| ==>
      (Recortar(termino) == [] || CoincideTermino(productos[k], Minusculas(termino)))
      && (!CategoriaActiva(categoria) || EnCategoria(productos[k], categoria))
      ==> productos[k] in r
  {
    var t := Minusculas(termino);
    var porTermino := (p: Producto) => Recortar(termino) == [] || CoincideTermino(p, t);
    var porCategoria := (p: Producto) => !CategoriaActiva(categoria) || EnCategoria(p, categoria);
    var ambos := (p: Producto) => porTermino(p) && porCategoria(p);
    var r1 := if Recortar(termino) != [] then Filtrar(productos, porTermino) else productos;
    var r := if CategoriaActiva(categoria) then Filtrar(r1, porCategoria) else r1;
    FiltrarFiltrar(productos, porTermino, porCategoria, ambos);
    assert r == Filtrar(Filtrar(productos, porTermino), porCategoria);
    r
  }

  /** The purchase screen. It shares the basket service and is its only caller. */
  class ComprasComponent {
    const servicio: CanastaComprasService

    var rucProveedor: string
    var proveedorSeleccionado: Option<Proveedor>
    var mostrarListaProveedores: bool

    var productos: seq<Producto>
    var productosFiltrados: seq<Producto>
    var categorias: seq<Categoria>
    var terminoBusquedaProducto: string
    var categoriaSeleccionada: Option<int>

    var canasta: seq<CompraDetalle>
    var metodoPago: string
    var descripcion: string

    var productoSeleccionado: Option<Producto>
    var cantidadCompra: real

    /** The basket keeps one line per product, and every line the screen let in has a
        positive quantity and price and up-to-date amounts. */
    ghost predicate Valid()
      reads this, servicio
    {
      servicio.Valid() && forall k :: 0 <= k < |servicio.canasta| ==> EnRegla(servicio.canasta[k])
    }

    constructor (servicio: CanastaComprasService)
      requires servicio.Valid() && forall k :: 0 <= k < |servicio.canasta| ==> EnRegla(servicio.canasta[k])
      ensures this.servicio == servicio && Valid()
      ensures proveedorSeleccionado == None && rucProveedor == "" && !mostrarListaProveedores
      ensures productos == [] && productosFiltrados == [] && categorias == []
      ensures terminoBusquedaProducto == "" && categoriaSeleccionada == None
      ensures canasta == [] && metodoPago == "efectivo" && descripcion == ""
      ensures productoSeleccionado == None && cantidadCompra == 1.0
    {
      this.servicio := servicio;
      rucProveedor, proveedorSeleccionado, mostrarListaProveedores := "", None, false;
      productos, productosFiltrados, categorias := [], [], [];
      terminoBusquedaProducto, categoriaSeleccionada := "", None;
      canasta, metodoPago, descripcion := [], "efectivo", "";
      productoSeleccionado, cantidadCompra := None, 1.0;
    }

    /** `actualizarCanasta`: refresh the screen's copy of the basket. */
    method ActualizarCanasta()
      modifies this`canasta
      ensures canasta == servicio.canasta
    {
      canasta := servicio.GetCanasta();
    }

    method SeleccionarProveedor(proveedor: Proveedor)
      modifies this`proveedorSeleccionado, this`mostrarListaProveedores, this`rucProveedor
      ensures proveedorSeleccionado == Some(proveedor) && !mostrarListaProveedores
      ensures rucProveedor == proveedor.ruc
    {
      proveedorSeleccionado := Some(proveedor);
      mostrarListaProveedores := false;
      rucProveedor := proveedor.ruc;
    }

    method LimpiarProveedorSeleccionado()
      modifies this`proveedorSeleccionado, this`mostrarListaProveedores, this`rucProveedor
      ensures proveedorSeleccionado == None && rucProveedor == "" && !mostrarListaProveedores
    {
      proveedorSeleccionado := None;
      rucProveedor := "";
      mostrarListaProveedores := false;
    }

    /** The success branch of `cargarProductos`: only products not marked inactive, then
        the filters are applied again. */
    method CargarProductos(respuesta: seq<Producto>)
      modifies this`productos, this`productosFiltrados
      ensures productos == Filtrar(respuesta, (p: Producto) => p.estado != Some(false))
      ensures productosFiltrados == FiltrarProductos(productos, terminoBusquedaProducto, categoriaSeleccionada)
    {
      productos := Filtrar(respuesta, (p: Producto) => p.estado != Some(false));
      AplicarFiltros();
    }

    /** The success branch of `cargarCategorias`: only categories not marked inactive. */
    method CargarCategorias(respuesta: seq<Categoria>)
      modifies this`categorias
      ensures categorias == Filtrar(respuesta, (c: Categoria) => c.estado != Some(false))
    {
      categorias := Filtrar(respuesta, (c: Categoria) => c.estado != Some(false));
    }

    method AplicarFiltros()
      modifies this`productosFiltrados
      ensures productosFiltrados == FiltrarProductos(productos, terminoBusquedaProducto, categoriaSeleccionada)
    {
      productosFiltrados := FiltrarProductos(productos, terminoBusquedaProducto, categoriaSeleccionada);
    }

    method LimpiarFiltrosProductos()
      modifies this`terminoBusquedaProducto, this`categoriaSeleccionada, this`productosFiltrados
      ensures terminoBusquedaProducto == "" && categoriaSeleccionada == None
      ensures productosFiltrados == productos
    {
      terminoBusquedaProducto := "";
      categoriaSeleccionada := None;
      AplicarFiltros();
    }

    method SeleccionarProducto(producto: Producto)
      modifies this`productoSeleccionado, this`cantidadCompra
      ensures productoSeleccionado == Some(producto) && cantidadCompra == 1.0
    {
      productoSeleccionado := Some(producto);
      cantidadCompra := 1.0;
    }

    /** `agregarACanasta`: on success exactly one `agregarProducto` call with the selected
        product, the typed quantity and the purchase price, then the selection is reset;
        on any refusal nothing changes. */
    method AgregarACanasta() returns (aviso: AvisoAgregar)
      requires Valid()
      modifies this`canasta, this`productoSeleccionado, this`cantidadCompra, servicio
      ensures Valid()
      ensures var decision := DecidirAgregar(old(productoSeleccionado), old(cantidadCompra));
        if decision.Success? then
          && aviso == Agregado
          && servicio.canasta == Agregar(old(servicio.canasta), decision.value)
          && canasta == servicio.canasta
          && productoSeleccionado == None && cantidadCompra == 1.0
        else
          && aviso == decision.error
          && servicio.canasta == old(servicio.canasta)
          && canasta == old(canasta)
          && productoSeleccionado == old(productoSeleccionado) && cantidadCompra == old(cantidadCompra)
    {
      if productoSeleccionado.None? || productoSeleccionado.value.id.None? {
        return SinProducto;
      }
      if cantidadCompra <= 0.0 {
        return CantidadNoPositiva;
      }
      var producto := productoSeleccionado.value;
      var precioCompra := PrecioCompra(producto);
      if precioCompra <= 0.0 {
        return SinPrecioCompra;
      }
      var detalle := CompraDetalle(None, cantidadCompra, precioCompra, None, None, None, producto.id.value, Some(producto));
      AgregarConserva(servicio.canasta, detalle);
      servicio.AgregarProducto(detalle);
      ActualizarCanasta();
      productoSeleccionado := None;
      cantidadCompra := 1.0;
      aviso := Agregado;
    }

    method EliminarItem(item: CompraDetalle)
      requires Valid()
      modifies this`canasta, servicio
      ensures Valid()
      ensures servicio.canasta == Eliminar(old(servicio.canasta), item.productoId)
      ensures canasta == servicio.canasta
    {
      ghost var antes := servicio.canasta;
      servicio.EliminarProducto(item.productoId);
      assert forall k :: 0 <= k < |servicio.canasta| ==> servicio.canasta[k] in antes;
      ActualizarCanasta();
    }

    /** `actualizarCantidad(item, event)`: the basket sees the new quantity only when it
        parses to a number above 0. */
    method ActualizarCantidad(item: CompraDetalle, valor: Option<real>)
      requires Valid()
      modifies this`canasta, servicio
      ensures Valid()
      ensures EdicionAceptada(valor) ==>
        servicio.canasta == ConCantidad(old(servicio.canasta), item.productoId, valor.value)
        && canasta == servicio.canasta
      ensures !EdicionAceptada(valor) ==> servicio.canasta == old(servicio.canasta) && canasta == old(canasta)
    {
      if valor.Some? && valor.value > 0.0 {
        ConCantidadConserva(servicio.canasta, item.productoId, valor.value);
        servicio.ActualizarCantidad(item.productoId, valor.value);
        ActualizarCanasta();
      }
    }

    /** `actualizarPrecio(item, event)`: the same gate for the price. */
    method ActualizarPrecio(item: CompraDetalle, valor: Option<real>)
      requires Valid()
      modifies this`canasta, servicio
      ensures Valid()
      ensures EdicionAceptada(valor) ==>
        servicio.canasta == ConPrecio(old(servicio.canasta), item.productoId, valor.value)
        && canasta == servicio.canasta
      ensures !EdicionAceptada(valor) ==> servicio.canasta == old(servicio.canasta) && canasta == old(canasta)
    {
      if valor.Some? && valor.value > 0.0 {
        ConPrecioConserva(servicio.canasta, item.productoId, valor.value);
        servicio.ActualizarPrecio(item.productoId, valor.value);
        ActualizarCanasta();
      }
    }

    /** `totalItems`: the units in the screen's copy of the basket. */
    function TotalItems(): (n: real)
      reads this
      ensures canasta == [] ==> n == 0.0
      ensures n == Sumar(Lineas(canasta), UnidadesDe)
    {
      PagoCoincideConCanasta(canasta);
      Sumar(canasta, CantidadDe)
    }

    /** `generarCompra`. `exito` is whether the backend accepted the purchase; on success
        the form is cleared, on failure nothing changes. */
    method GenerarCompra(exito: bool) returns (r: Result<CompraNueva, AvisoCompra>)
      requires Valid()
      modifies this, servicio
      ensures Valid()
      ensures r == ConstruirCompra(old(proveedorSeleccionado), old(canasta), old(metodoPago), old(descripcion))
      ensures r.Success? && exito ==>
        && servicio.canasta == [] && canasta == []
        && proveedorSeleccionado == None && rucProveedor == "" && !mostrarListaProveedores
        && metodoPago == "efectivo" && descripcion == ""
        && terminoBusquedaProducto == "" && categoriaSeleccionada == None && productosFiltrados == productos
        && productos == old(productos) && categorias == old(categorias)
        && productoSeleccionado == None && cantidadCompra == 1.0
      ensures !(r.Success? && exito) ==> unchanged(this) && unchanged(servicio)
    {
      if proveedorSeleccionado.None? {
        return Failure(SinProveedor);
      }
      if |canasta| == 0 {
        return Failure(CanastaVacia);
      }
      var detalle := Lineas(canasta);
      var formapagoId := if metodoPago == "yape" then 2 else 1;
      r := Success(CompraNueva(proveedorSeleccionado.value.id, detalle, formapagoId, descripcion));
      if exito {
        LimpiarFormulario();
      }
    }

    /** `limpiarFormulario`: empty basket, no supplier, default payment method, no filters,
        no selected product, quantity 1. */
    method LimpiarFormulario()
      requires Valid()
      modifies this, servicio
      ensures Valid()
      ensures servicio.canasta == [] && canasta == []
      ensures proveedorSeleccionado == None && rucProveedor == "" && !mostrarListaProveedores
      ensures descripcion == "" && metodoPago == "efectivo"
      ensures terminoBusquedaProducto == "" && categoriaSeleccionada == None && productosFiltrados == productos
      ensures productos == old(productos) && categorias == old(categorias)
      ensures productoSeleccionado == None && cantidadCompra == 1.0
    {
      servicio.VaciarCanasta();
      ActualizarCanasta();
      LimpiarProveedorSeleccionado();
      descripcion := "";
      metodoPago := "efectivo";
      LimpiarFiltrosProductos();
      productoSeleccionado := None;
      cantidadCompra := 1.0;
    }
  }
}
