/** The product-management screen (ProductosComponent): stock levels, counters, image
    upload checks and the set of products whose picture failed to load. */
module Productos {
  import opened Wrappers
  import opened Modelo
  import opened Texto
  import opened Colecciones

  /** `getStockClass`: the CSS class for a stock quantity. */
  function StockClase(cantidad: real): (r: string)
    ensures r == "stock-critico" <==> cantidad <= 5.0
    ensures r == "stock-bajo" <==> 5.0 < cantidad <= 15.0
    ensures r == "stock-medio" <==> 15.0 < cantidad <= 50.0
    ensures r == "stock-alto" <==> 50.0 < cantidad
  {
    if cantidad <= 5.0 then "stock-critico"
    else if cantidad <= 15.0 then "stock-bajo"
    else if cantidad <= 50.0 then "stock-medio"
    else "stock-alto"
  }

  /** `getStockIcon`: the icon for a stock quantity. */
  function StockIcono(cantidad: real): (r: string)
    ensures r == "error" <==> cantidad <= 5.0
    ensures r == "warning" <==> 5.0 < cantidad <= 15.0
    ensures r == "check_circle" <==> 15.0 < cantidad
  {
    if cantidad <= 5.0 then "error"
    else if cantidad <= 15.0 then "warning"
    else "check_circle"
  }

  /** Class and icon always agree: 'error' exactly for the critical class, 'warning' exactly
      for the low class, 'check_circle' for the two others. */
  lemma IconoSegunClase(cantidad: real)
    ensures StockIcono(cantidad) == "error" <==> StockClase(cantidad) == "stock-critico"
    ensures StockIcono(cantidad) == "warning" <==> StockClase(cantidad) == "stock-bajo"
    ensures StockIcono(cantidad) == "check_circle" <==>
      StockClase(cantidad) == "stock-medio" || StockClase(cantidad) == "stock-alto"
  {
  }

  /** The position of a class on the scale from critical (0) to high (3). */
  function Nivel(clase: string): nat {
    if clase == "stock-critico" then 0
    else if clase == "stock-bajo" then 1
    else if clase == "stock-medio" then 2
    else 3
  }

  /** More stock never gives a more alarming class. */
  lemma ClaseMonotona(a: real, b: real)
    requires a <= b
    ensures Nivel(StockClase(a)) <= Nivel(StockClase(b))
  {
  }

  predicate Activo(p: Producto) { p.estado == Some(true) }
  predicate NoActivo(p: Producto) { !Activo(p) }
  predicate StockBajo(p: Producto) { Num(p.cantidad) <= 10.0 }
  predicate StockSuficiente(p: Producto) { !StockBajo(p) }
  predicate StockCritico(p: Producto) { StockClase(Num(p.cantidad)) == "stock-critico" }

  /** `getProductosActivos`: products whose `estado` is true; with the products that are
      not, they account for the whole list. */
  function ProductosActivos(productos: seq<Producto>): (n: nat)
    ensures n <= |productos|
    ensures n + |Filtrar(productos, NoActivo)| == |productos|
    ensures n == |productos| <==> forall k :: 0 <= k < |productos| ==> productos[k].estado == Some(true)
  {
    FiltrarComplemento(productos, Activo, NoActivo);
    assert (forall k :: 0 <= k < |productos| ==> productos[k].estado == Some(true)) ==>
      Filtrar(productos, Activo) == productos;
    |Filtrar(productos, Activo)|
  }

  /** `getStockBajo`: products with at most 10 units, a missing quantity counting 0. Every
      product shown with the critical class is among them; with the products above 10
      units, they account for the whole list. */
  function ProductosStockBajo(productos: seq<Producto>): (n: nat)
    ensures n <= |productos|
    ensures n + |Filtrar(productos, StockSuficiente)| == |productos|
    ensures n == |productos| <==> forall k :: 0 <= k < |productos| ==> Num(productos[k].cantidad) <= 10.0
    ensures |Filtrar(productos, StockCritico)| <= n
    ensures forall k :: 0 <= k < |productos| && productos[k].cantidad.None? ==> productos[k] in Filtrar(productos, StockBajo)
  {
    FiltrarMonotono(productos, StockCritico, StockBajo);
    FiltrarComplemento(productos, StockBajo, StockSuficiente);
    assert (forall k :: 0 <= k < |productos| ==> Num(productos[k].cantidad) <= 10.0) ==>
      Filtrar(productos, StockBajo) == productos;
    |Filtrar(productos, StockBajo)|
  }

  /** The outcome of `processFile`. */
  datatype AvisoArchivo = NoEsImagen | DemasiadoGrande | Aceptado

  const TAMANO_MAXIMO: nat := 5 * 1024 * 1024

  /** The checks of `processFile`, in order: the MIME type must start with 'image/', then
      the size must not exceed 5 MB. */
  function ValidarArchivo(f: Archivo): (r: AvisoArchivo)
    ensures r == Aceptado <==> "image/" <= f.tipo && f.tamano <= 5242880
    ensures r == NoEsImagen <==> !("image/" <= f.tipo)
  {
    if !("image/" <= f.tipo) then NoEsImagen
    else if f.tamano > TAMANO_MAXIMO then DemasiadoGrande
    else Aceptado
  }

  /** What replaces a broken picture: the placeholder file, or, when the placeholder (or
      the embedded picture) is what failed, an SVG embedded as a data URL. */
  datatype Reemplazo = Placeholder | SvgEmbebido

  const PLACEHOLDER := "/no-image.svg"
  /** The start of the embedded picture's data URL; its payload is not modelled. */
  const PREFIJO_SVG := "data:image/svg+xml"

  function SrcDe(r: Reemplazo): string {
    match r
    case Placeholder => PLACEHOLDER
    case SvgEmbebido => PREFIJO_SVG + ";base64,"
  }

  /** The replacement `onImageError` puts in the image. */
  function Reemplazar(src: string): (r: Reemplazo)
    ensures r == SvgEmbebido <==> Contiene(src, "no-image.svg") || Contiene(src, PREFIJO_SVG)
  {
    if !Contiene(src, "no-image.svg") && !Contiene(src, PREFIJO_SVG) then Placeholder else SvgEmbebido
  }

  /** The fallbacks do not loop: a failing placeholder gives way to the embedded picture,
      and a failing embedded picture keeps it. */
  lemma ReemplazoTermina()
    ensures Reemplazar(SrcDe(Placeholder)) == SvgEmbebido
    ensures Reemplazar(SrcDe(SvgEmbebido)) == SvgEmbebido
  {
    assert "no-image.svg" <= SrcDe(Placeholder)[1..];
    ContienePrefijo(PREFIJO_SVG, SrcDe(SvgEmbebido));
  }

  /** A truthy product id (`producto?.id`). */
  predicate IdVerdadero(id: Option<int>) { id.Some? && id.value != 0 }

  /** `shouldShowPlaceholder` against a set of failed ids. */
  predicate Marcado(fallidas: set<string>, p: Producto) {
    IdVerdadero(p.id) && EnteroATexto(p.id.value) in fallidas
  }

  /** Recording a failure for one id marks exactly the products with that id: ids are
      stored as decimal text, and distinct ids have distinct texts. */
  lemma MarcaSoloSuId(fallidas: set<string>, id: int, q: Producto)
    requires id != 0
    ensures Marcado(fallidas + {EnteroATexto(id)}, q) <==> Marcado(fallidas, q) || q.id == Some(id)
  {
    if IdVerdadero(q.id) && EnteroATexto(q.id.value) == EnteroATexto(id) {
      EnteroATextoInyectivo(q.id.value, id);
    }
  }

  class ProductosComponent {
    /** The table's data. */
    var productos: seq<Producto>
    var failedImages: set<string>
    var categorias: seq<Categoria>
    var selectedFile: Option<Archivo>

    constructor ()
      ensures productos == [] && failedImages == {} && categorias == [] && selectedFile == None
    {
      productos, failedImages, categorias, selectedFile := [], {}, [], None;
    }

    /** `cargarProductos`: forget the failed pictures, then take the backend's list
        (`None` for an error, which keeps the table). */
    method CargarProductos(respuesta: Option<seq<Producto>>)
      modifies this`failedImages, this`productos
      ensures failedImages == {}
      ensures productos == if respuesta.Some? then respuesta.value else old(productos)
    {
      failedImages := {};
      if respuesta.Some? {
        productos := respuesta.value;
      }
    }

    /** The success branch of `cargarCategorias`: categories not marked inactive, in order. */
    method CargarCategorias(respuesta: seq<Categoria>)
      modifies this`categorias
      ensures categorias == Filtrar(respuesta, (c: Categoria) => c.estado != Some(false))
    {
      categorias := Filtrar(respuesta, (c: Categoria) => c.estado != Some(false));
    }

    /** `processFile`: a file passing the checks becomes the selected file; otherwise the
        selection is kept. */
    method ProcessFile(f: Archivo) returns (aviso: AvisoArchivo)
      modifies this`selectedFile
      ensures aviso == ValidarArchivo(f)
      ensures aviso == Aceptado ==> selectedFile == Some(f)
      ensures aviso != Aceptado ==> selectedFile == old(selectedFile)
    {
      if !("image/" <= f.tipo) {
        return NoEsImagen;
      }
      if f.tamano > 5 * 1024 * 1024 {
        return DemasiadoGrande;
      }
      selectedFile := Some(f);
      aviso := Aceptado;
    }

    /** `onImageError`: record the product's id when it has a truthy one, and pick the
        replacement picture from the source that failed. */
    method OnImageError(src: string, producto: Option<Producto>) returns (r: Reemplazo)
      modifies this`failedImages
      ensures r == Reemplazar(src)
      ensures producto.Some? && IdVerdadero(producto.value.id) ==>
        failedImages == old(failedImages) + {EnteroATexto(producto.value.id.value)}
      ensures !(producto.Some? && IdVerdadero(producto.value.id)) ==> failedImages == old(failedImages)
    {
      if producto.Some? && IdVerdadero(producto.value.id) {
        failedImages := failedImages + {EnteroATexto(producto.value.id.value)};
      }
      r := if !Contiene(src, "no-image.svg") && !Contiene(src, PREFIJO_SVG) then Placeholder else SvgEmbebido;
    }

    function ShouldShowPlaceholder(p: Producto): (b: bool)
      reads this
      ensures b <==> Marcado(failedImages, p)
      ensures failedImages == {} ==> !b
    {
      IdVerdadero(p.id) && EnteroATexto(p.id.value) in failedImages
    }
  }
}
