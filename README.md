# Purchasing screens and book catalogue, modelled in Dafny

This project models the core of a small sales system. It has two parts.

**The Angular front end:**

- **The purchase basket service.** It keeps one line per product. Adding a product that is already in the basket merges the two lines. Every line's tax base, IGV (18 % value-added tax) and total are recomputed from price and quantity. The service also answers basket totals.
- **The purchase screen.** It covers choosing a supplier, filtering products, adding lines, editing quantities and prices, and building the purchase payload.
- **The purchase list.** It covers searching, totals, the product summary, the PDF row name and its truncation, and counting distinct products.
- **The product screen.** It covers stock classes and icons, counters, validation of image uploads, and the fallback chain for broken images.
- **The product service.** It covers the multipart form fields and the image URLs.
- **The category, supplier and client maintenance screens.** They cover labels, validators, table filters, statistics and status toggles.

**The Java catalogue service:** `LibroServiceImpl` over the `Libro` JPA entity.

How the parts are modelled:

- Screens and services that update their own fields are Dafny classes. Each has `modifies` frames.
- Each state change is tied to a specification function. The properties are proved about those functions: uniqueness of basket lines, totals that add up, round trips, counts and filter behaviour.
- The Java repository is a map from id to row. Its invariant `RepoValido` holds the not-null columns, a unique code and a unique ISBN. Every service operation is proved to preserve it.

Files, one module each:

- `wrappers.dfy`: Option and Result.
- `texto.dfy`: JavaScript `trim`, `toLowerCase`, `includes`, digit patterns and number printing.
- `colecciones.dfy`: filtering and summing over sequences.
- `modelo.dfy`: the TypeScript interfaces.
- `estados.dfy`: status labels.
- `canasta.dfy`, `compras.dfy`, `lista_compras.dfy`, `productos.dfy`, `producto_servicio.dfy`, `categorias.dfy`, `proveedores.dfy`, `clientes.dfy`: one front-end file each.
- `libro.dfy`: the entity.
- `catalogo.dfy`: the service and its repository.

JavaScript semantics are written out:

- Truthiness: `0`, `""`, `null` and `undefined` are falsy.
- `x || d` defaults.
- `!== false` compared with `=== true`.
- `parseFloat`: its result is an `Option<real>`, where `None` stands for NaN.

Java semantics are written out too:

- Unboxing a null `Integer` is a `PunteroNulo` failure.
- `findById(...).orElseThrow` is a `NoEncontrado` failure.
- `existsBy...` is a duplicate check, and a duplicate is a `Duplicado` failure.
- A save that breaks a column constraint is a `RestriccionViolada` failure. The constraints are the not-null columns, the unique code and ISBN, and the `categoria_id` foreign key (Libro.java:47-49): a book's category, when it has one, must be an id of the category table. That table is a parameter (`categorias`) that the service only reads.

The basket service's `actualizarCantidad` and `actualizarPrecio` (canasta-compras.service.ts:40-54) store whatever value they are given. Only the purchase screen checks that the value is above 0, before it calls the service (compras.component.ts:242 and 251). The model follows the code. `CanastaCompras.CanastaComprasService.ActualizarCantidad` and `ActualizarPrecio` accept any value, and `Compras.ComprasComponent.ActualizarCantidad` and `ActualizarPrecio` hold the positivity gate.

## Model

| member | source | states |
|---|---|---|
| Texto.Recortar | sistema-ventas-frontend/src/app/pages/categorias/categorias.component.ts:163 | `trim()`: the result is the slice of the input that starts after its leading blank run (`Sangria`) and is followed only by white space; it is empty exactly when the input is all JavaScript white space, otherwise it starts and ends with a non-space |
| Texto.SaltarInicio | sistema-ventas-frontend/src/app/pages/categorias/categorias.component.ts:163 | the first index at or after the start point that is not white space, everything skipped being white space |
| Texto.SaltarFin | sistema-ventas-frontend/src/app/pages/categorias/categorias.component.ts:163 | the end of a range once its trailing white space is dropped: it ends on a non-space or is empty, and everything dropped is white space |
| Texto.Sangria | sistema-ventas-frontend/src/app/pages/categorias/categorias.component.ts:163 | the leading blank run of a string: all white space, followed by a non-space or the end |
| Texto.RecortarIdempotente | sistema-ventas-frontend/src/app/pages/categorias/categorias.component.ts:163 | trimming twice is trimming once |
| Texto.Minusculas | sistema-ventas-frontend/src/app/pages/proveedores/proveedores.component.ts:112-118 | `toLowerCase()` keeps the length and lowers each character independently |
| Texto.MinusculasIdempotente | sistema-ventas-frontend/src/app/pages/proveedores/proveedores.component.ts:112-118 | lower-casing twice is lower-casing once |
| Texto.FiltroDe | sistema-ventas-frontend/src/app/pages/proveedores/proveedores.component.ts:137-144 | the installed filter is empty exactly when the typed text is blank, and never longer than it |
| Texto.FiltroIgnoraEspacios | sistema-ventas-frontend/src/app/pages/clientes/clientes.component.ts:139-145 | surrounding blanks in the typed filter do not change the installed filter |
| Texto.NatATextoInyectivo | sistema-ventas-frontend/src/app/pages/lista-compras/lista-compras.component.ts:654 | different counts print as different decimal texts |
| Texto.EnteroATextoInyectivo | sistema-ventas-frontend/src/app/pages/productos/productos.component.ts:399 | different ids print as different keys (`id.toString()`), so the failed-image set is keyed per product |
| Estados.EstadoClase | sistema-ventas-frontend/src/app/pages/proveedores/proveedores.component.ts:242-244 | `estado-activo` exactly for an active record, `estado-inactivo` exactly for an inactive one |
| Estados.EstadoTexto | sistema-ventas-frontend/src/app/pages/proveedores/proveedores.component.ts:250-252 | `Activo` / `Inactivo` exactly by the flag |
| Estados.EstadoIcono | sistema-ventas-frontend/src/app/pages/proveedores/proveedores.component.ts:246-248 | `check_circle` / `cancel` exactly by the flag |
| Estados.EtiquetasCoherentes | sistema-ventas-frontend/src/app/pages/clientes/clientes.component.ts:235-245 | text, class and icon always agree: two flags get the same text iff they get the same class iff the same icon |
| CanastaCompras.CalcularMontos | sistema-ventas-frontend/src/app/services/canasta-compras.service.ts:25-34 | with price and quantity truthy, base = total / 1.18, igv = total - base and total = price * quantity, so the line adds up and igv is 18% of the base; otherwise the line is returned unchanged; id, product, quantity and price are never touched |
| CanastaCompras.Buscar | sistema-ventas-frontend/src/app/services/canasta-compras.service.ts:13 | `findIndex`: -1 iff no line has the product, else the first line with it |
| CanastaCompras.Agregar | sistema-ventas-frontend/src/app/services/canasta-compras.service.ts:12-23 | an existing line for the product becomes exactly that line with the quantities added and the new price, recomputed; every other line stays; otherwise the recomputed line is appended |
| CanastaCompras.AgregarConserva | sistema-ventas-frontend/src/app/services/canasta-compras.service.ts:12-23 | adding keeps one line per product, keeps every line's amounts adding up, and keeps every line positive and up to date |
| CanastaCompras.Eliminar | sistema-ventas-frontend/src/app/services/canasta-compras.service.ts:36-38 | no line of the product remains; every other line remains, in order; a basket without it is unchanged |
| CanastaCompras.EliminarQuitaSuLinea | sistema-ventas-frontend/src/app/services/canasta-compras.service.ts:36-38 | with one line per product, removing drops exactly the one line found and keeps uniqueness |
| CanastaCompras.ConCantidad | sistema-ventas-frontend/src/app/services/canasta-compras.service.ts:40-46 | only the found line changes, and it becomes exactly that line with the new quantity, recomputed; product ids and prices never change; an absent product changes nothing |
| CanastaCompras.ConCantidadConserva | sistema-ventas-frontend/src/app/services/canasta-compras.service.ts:40-46 | a quantity edit keeps uniqueness and balanced lines, and keeps lines in order when the quantity is positive |
| CanastaCompras.ConPrecio | sistema-ventas-frontend/src/app/services/canasta-compras.service.ts:48-54 | only the found line changes, and it becomes exactly that line with the new price, recomputed; product ids and quantities never change; an absent product changes nothing |
| CanastaCompras.ConPrecioConserva | sistema-ventas-frontend/src/app/services/canasta-compras.service.ts:48-54 | a price edit keeps uniqueness and balanced lines, and keeps lines in order when the price is positive |
| CanastaCompras.TotalesCuadran | sistema-ventas-frontend/src/app/services/canasta-compras.service.ts:64-74 | for balanced lines the basket total is base plus IGV and base * 1.18 is the total |
| CanastaCompras.TotalTrasAgregar | sistema-ventas-frontend/src/app/services/canasta-compras.service.ts:12-23 | after adding a new product the total grows by price * quantity; after merging, by the new price on the merged quantity minus the old line total |
| CanastaCompras.TotalTrasAlta | sistema-ventas-frontend/src/app/services/canasta-compras.service.ts:19-22 | appending a line adds exactly price * quantity to the total |
| CanastaCompras.TotalTrasFusion | sistema-ventas-frontend/src/app/services/canasta-compras.service.ts:13-18 | merging into an existing line changes the total by new price * merged quantity minus the old line total |
| CanastaCompras.CantidadCeroDejaTotalDesfasado | sistema-ventas-frontend/src/app/services/canasta-compras.service.ts:42 | a quantity of 0 is falsy, so amounts are not recomputed and a non-zero line total goes stale |
| CanastaCompras.EjemploFusion | sistema-ventas-frontend/src/app/services/canasta-compras.service.ts:12-23 | two additions of product 5 (2 and 3 units at 118) merge into one line: 5 units, base 500, IGV 90, total 590 |
| CanastaCompras.CanastaComprasService.constructor | sistema-ventas-frontend/src/app/services/canasta-compras.service.ts:8-10 | the basket starts empty |
| CanastaCompras.CanastaComprasService.AgregarProducto | sistema-ventas-frontend/src/app/services/canasta-compras.service.ts:12-23 | the new basket is `Agregar` of the old one; one line per product is kept |
| CanastaCompras.CanastaComprasService.EliminarProducto | sistema-ventas-frontend/src/app/services/canasta-compras.service.ts:36-38 | the new basket is `Eliminar` of the old one |
| CanastaCompras.CanastaComprasService.ActualizarCantidad | sistema-ventas-frontend/src/app/services/canasta-compras.service.ts:40-46 | the new basket is `ConCantidad` of the old one |
| CanastaCompras.CanastaComprasService.ActualizarPrecio | sistema-ventas-frontend/src/app/services/canasta-compras.service.ts:48-54 | the new basket is `ConPrecio` of the old one |
| CanastaCompras.CanastaComprasService.GetCanasta | sistema-ventas-frontend/src/app/services/canasta-compras.service.ts:56-58 | returns a copy holding the same lines in the same order |
| CanastaCompras.CanastaComprasService.VaciarCanasta | sistema-ventas-frontend/src/app/services/canasta-compras.service.ts:60-62 | the basket becomes empty |
| CanastaCompras.CanastaComprasService.GetTotal | sistema-ventas-frontend/src/app/services/canasta-compras.service.ts:64-66 | 0 for an empty basket; for balanced lines, the sum of bases plus the sum of IGVs |
| CanastaCompras.CanastaComprasService.GetBaseImponible | sistema-ventas-frontend/src/app/services/canasta-compras.service.ts:68-70 | 0 for an empty basket; for balanced lines, base * 1.18 equals the total |
| CanastaCompras.CanastaComprasService.GetIgv | sistema-ventas-frontend/src/app/services/canasta-compras.service.ts:72-74 | 0 for an empty basket; for balanced lines, total minus base |
| Compras.PrecioCompra | sistema-ventas-frontend/src/app/pages/compras/compras.component.ts:211 | the purchase cost if truthy, else the sale price if truthy, else 0 |
| Compras.CostoNegativoSeRechaza | sistema-ventas-frontend/src/app/pages/compras/compras.component.ts:211-216 | a negative cost is truthy and used as is, so the line is refused as non-positive |
| Compras.DecidirAgregar | sistema-ventas-frontend/src/app/pages/compras/compras.component.ts:199-232 | no product (or no id) is `SinProducto`, a non-positive quantity `CantidadNoPositiva`, a purchase price that is not positive `SinPrecioCompra`, each exactly in its case; otherwise a line with the product's id, the quantity and the price, amounts still unset |
| Compras.LineaAceptadaEnRegla | sistema-ventas-frontend/src/app/pages/compras/compras.component.ts:218-229 | an accepted line, once priced by the service, is positive and up to date |
| Compras.TotalItemsTrasAgregar | sistema-ventas-frontend/src/app/pages/compras/compras.component.ts:270-272 | adding to the basket raises the item count by exactly the added quantity, merged or not |
| Compras.FormaPago | sistema-ventas-frontend/src/app/pages/compras/compras.component.ts:292 | payment type 2 exactly for `yape`, 1 otherwise |
| Compras.Lineas | sistema-ventas-frontend/src/app/pages/compras/compras.component.ts:286-299 | one payload line per basket line, carrying its product id, quantity and price |
| Compras.ConstruirCompra | sistema-ventas-frontend/src/app/pages/compras/compras.component.ts:275-299 | no supplier is `SinProveedor`, an empty basket `CanastaVacia`; otherwise the supplier's id, the basket as lines, the payment type and the description |
| Compras.PagoCoincideConCanasta | sistema-ventas-frontend/src/app/pages/compras/compras.component.ts:286-299 | the payload's units equal the basket's, and its price * quantity sum equals the basket total when every line is up to date |
| Compras.FiltrarProductos | sistema-ventas-frontend/src/app/pages/compras/compras.component.ts:160-181 | keeps products in order; a blank term and no category keeps all; every kept product contains the lower-cased term (not trimmed: only the blank test trims) in its name, code or description and is in the category; every matching product is kept |
| Compras.ComprasComponent.constructor | sistema-ventas-frontend/src/app/pages/compras/compras.component.ts:56-76 | the initial screen state: no supplier, empty lists, cash payment, quantity 1 |
| Compras.ComprasComponent.ActualizarCanasta | sistema-ventas-frontend/src/app/pages/compras/compras.component.ts:195-197 | the screen's basket is the service's basket |
| Compras.ComprasComponent.SeleccionarProveedor | sistema-ventas-frontend/src/app/pages/compras/compras.component.ts:124-128 | the supplier is selected, its RUC shown and the list closed |
| Compras.ComprasComponent.LimpiarProveedorSeleccionado | sistema-ventas-frontend/src/app/pages/compras/compras.component.ts:130-134 | no supplier, empty RUC, list closed |
| Compras.ComprasComponent.CargarProductos | sistema-ventas-frontend/src/app/pages/compras/compras.component.ts:137-142 | keeps the products whose `estado` is not `false` and re-applies the filters |
| Compras.ComprasComponent.CargarCategorias | sistema-ventas-frontend/src/app/pages/compras/compras.component.ts:144-158 | keeps the categories whose `estado` is not `false` |
| Compras.ComprasComponent.AplicarFiltros | sistema-ventas-frontend/src/app/pages/compras/compras.component.ts:160-181 | the visible products are `FiltrarProductos` of the loaded ones |
| Compras.ComprasComponent.LimpiarFiltrosProductos | sistema-ventas-frontend/src/app/pages/compras/compras.component.ts:183-187 | term and category cleared, every loaded product visible |
| Compras.ComprasComponent.SeleccionarProducto | sistema-ventas-frontend/src/app/pages/compras/compras.component.ts:189-193 | the product is selected and the quantity reset to 1 |
| Compras.ComprasComponent.AgregarACanasta | sistema-ventas-frontend/src/app/pages/compras/compras.component.ts:199-232 | an accepted line goes into the service's basket through `Agregar` and the selection is reset; a refusal reports its reason and changes nothing |
| Compras.ComprasComponent.EliminarItem | sistema-ventas-frontend/src/app/pages/compras/compras.component.ts:234-237 | the service's basket loses the item's product and the screen shows it |
| Compras.ComprasComponent.ActualizarCantidad | sistema-ventas-frontend/src/app/pages/compras/compras.component.ts:239-246 | a positive numeric value updates the quantity through the service; anything else changes nothing |
| Compras.ComprasComponent.ActualizarPrecio | sistema-ventas-frontend/src/app/pages/compras/compras.component.ts:248-255 | a positive numeric value updates the price through the service; anything else changes nothing |
| Compras.ComprasComponent.TotalItems | sistema-ventas-frontend/src/app/pages/compras/compras.component.ts:270-272 | 0 for an empty basket; equals the units sent in the purchase payload |
| Compras.ComprasComponent.GenerarCompra | sistema-ventas-frontend/src/app/pages/compras/compras.component.ts:275-311 | the payload is `ConstruirCompra` of the form; an accepted, successful purchase clears basket, supplier, search, form, filters and selection and keeps the loaded products and categories; otherwise the screen and the basket service are unchanged |
| Compras.ComprasComponent.LimpiarFormulario | sistema-ventas-frontend/src/app/pages/compras/compras.component.ts:313-322 | basket, supplier, description, payment type, filters and selection reset; loaded products and categories kept |
| ListaCompras.TotalCompras | sistema-ventas-frontend/src/app/pages/lista-compras/lista-compras.component.ts:638-640 | 0 for no purchases; a single purchase gives its own total (0 when missing); non-negative when every total is |
| ListaCompras.TotalComprasConcat | sistema-ventas-frontend/src/app/pages/lista-compras/lista-compras.component.ts:638-640 | the sum over two lists is the sum of the sums |
| ListaCompras.TotalProductos | sistema-ventas-frontend/src/app/pages/lista-compras/lista-compras.component.ts:658-660 | 0 without lines; a single line gives its own quantity; non-negative when every quantity is |
| ListaCompras.TotalProductosConcat | sistema-ventas-frontend/src/app/pages/lista-compras/lista-compras.component.ts:658-660 | a purchase whose lines are those of two others in turn has the units of both |
| ListaCompras.PrimerNombre | sistema-ventas-frontend/src/app/pages/lista-compras/lista-compras.component.ts:649 | the first product's name when present and non-empty, otherwise the non-empty fallback `Producto` |
| ListaCompras.ProductosResumen | sistema-ventas-frontend/src/app/pages/lista-compras/lista-compras.component.ts:643-656 | `Sin productos` without lines, the first name for one line, otherwise the first name, ` y `, the count of the others and ` más` |
| ListaCompras.ResumenDistingueCantidad | sistema-ventas-frontend/src/app/pages/lista-compras/lista-compras.component.ts:643-656 | two summaries with the same first name are equal only if the purchases have the same number of lines |
| ListaCompras.NombreFila | sistema-ventas-frontend/src/app/pages/lista-compras/lista-compras.component.ts:406-407 | the cell starts with the shown name (the product's name, or `Producto sin nombre` when there is none); with no code it is just that name, with a code it continues with ` (`, the code and `)` |
| ListaCompras.NombreVisible | sistema-ventas-frontend/src/app/pages/lista-compras/lista-compras.component.ts:406 | the product's name when it is non-empty, `Producto sin nombre` otherwise |
| ListaCompras.CodigoVisible | sistema-ventas-frontend/src/app/pages/lista-compras/lista-compras.component.ts:407 | the product's code, empty without a product |
| ListaCompras.NombreFilaDistingueCodigo | sistema-ventas-frontend/src/app/pages/lista-compras/lista-compras.component.ts:406-407 | two lines with the same shown name get the same cell exactly when they show the same code |
| ListaCompras.Truncar | sistema-ventas-frontend/src/app/pages/lista-compras/lista-compras.component.ts:425-428 | names of at most 32 characters are kept; longer ones become their first 29 characters and `...`, 32 in all |
| ListaCompras.TruncarIdempotente | sistema-ventas-frontend/src/app/pages/lista-compras/lista-compras.component.ts:425-428 | truncating twice is truncating once |
| ListaCompras.IdsLineasExactos | sistema-ventas-frontend/src/app/pages/lista-compras/lista-compras.component.ts:665-669 | a product id is collected iff it is non-zero and appears on a line |
| ListaCompras.IdsComprasExactos | sistema-ventas-frontend/src/app/pages/lista-compras/lista-compras.component.ts:662-672 | a product id is collected iff it is non-zero and appears on a line of some purchase |
| ListaCompras.AnadirIds | sistema-ventas-frontend/src/app/pages/lista-compras/lista-compras.component.ts:665-669 | adds to the set exactly the truthy product ids of the lines |
| ListaCompras.ListaComprasComponent.constructor | sistema-ventas-frontend/src/app/pages/lista-compras/lista-compras.component.ts:57-64 | no purchases, empty search terms and no dates |
| ListaCompras.ListaComprasComponent.CargarCompras | sistema-ventas-frontend/src/app/pages/lista-compras/lista-compras.component.ts:104-114 | a response replaces both the full and the visible list; a failure keeps them |
| ListaCompras.ListaComprasComponent.BuscarPorSerie | sistema-ventas-frontend/src/app/pages/lista-compras/lista-compras.component.ts:116-131 | a blank series shows every purchase; otherwise the response, or nothing on error |
| ListaCompras.ListaComprasComponent.BuscarPorNumero | sistema-ventas-frontend/src/app/pages/lista-compras/lista-compras.component.ts:133-148 | a blank number shows every purchase; otherwise the response, or nothing on error |
| ListaCompras.ListaComprasComponent.BuscarPorFechas | sistema-ventas-frontend/src/app/pages/lista-compras/lista-compras.component.ts:150-168 | a missing date warns and changes nothing; otherwise the response, or nothing on error |
| ListaCompras.ListaComprasComponent.LimpiarFiltros | sistema-ventas-frontend/src/app/pages/lista-compras/lista-compras.component.ts:170-176 | all search terms cleared and every purchase visible |
| ListaCompras.ListaComprasComponent.TotalComprasVisibles | sistema-ventas-frontend/src/app/pages/lista-compras/lista-compras.component.ts:638-640 | `TotalCompras` of the purchases on screen: 0 with nothing visible, non-negative when every total is |
| ListaCompras.ListaComprasComponent.TotalProductosGeneral | sistema-ventas-frontend/src/app/pages/lista-compras/lista-compras.component.ts:662-672 | the number of distinct truthy product ids over the visible purchases, at most their number of lines |
| Productos.StockClase | sistema-ventas-frontend/src/app/pages/productos/productos.component.ts:418-423 | critical up to 5, low up to 15, medium up to 50, high above, each exactly on its range |
| Productos.StockIcono | sistema-ventas-frontend/src/app/pages/productos/productos.component.ts:425-429 | `error` up to 5, `warning` up to 15, `check_circle` above, each exactly on its range |
| Productos.IconoSegunClase | sistema-ventas-frontend/src/app/pages/productos/productos.component.ts:418-429 | the icon follows the class: error iff critical, warning iff low, check iff medium or high |
| Productos.ClaseMonotona | sistema-ventas-frontend/src/app/pages/productos/productos.component.ts:418-423 | more stock never gives a more severe class |
| Productos.ProductosActivos | sistema-ventas-frontend/src/app/pages/productos/productos.component.ts:431-433 | active plus non-active is the total; all are active iff every `estado` is `true` |
| Productos.ProductosStockBajo | sistema-ventas-frontend/src/app/pages/productos/productos.component.ts:435-437 | with the products above 10 units it makes up the whole list; it equals the total exactly when every product has at most 10 units (a missing quantity counting 0); every critical product is counted; a product without stock is counted |
| Productos.ValidarArchivo | sistema-ventas-frontend/src/app/pages/productos/productos.component.ts:246-267 | accepted iff the type starts with `image/` and the size is at most 5 MB; a non-image is reported as such |
| Productos.Reemplazar | sistema-ventas-frontend/src/app/pages/productos/productos.component.ts:393-412 | a source that is already the placeholder or the embedded SVG gets the embedded SVG; anything else the placeholder file |
| Productos.ReemplazoTermina | sistema-ventas-frontend/src/app/pages/productos/productos.component.ts:393-412 | after at most two failures the image is the embedded SVG and stays so, so the error handler cannot loop |
| Productos.MarcaSoloSuId | sistema-ventas-frontend/src/app/pages/productos/productos.component.ts:399 | marking a failed image affects exactly the product with that id |
| Productos.ProductosComponent.constructor | sistema-ventas-frontend/src/app/pages/productos/productos.component.ts:78-91 | no products, no failed images, no categories, no file |
| Productos.ProductosComponent.CargarProductos | sistema-ventas-frontend/src/app/pages/productos/productos.component.ts:120-133 | the failed-image set is cleared; a response replaces the products |
| Productos.ProductosComponent.CargarCategorias | sistema-ventas-frontend/src/app/pages/productos/productos.component.ts:135-146 | keeps the categories whose `estado` is not `false` |
| Productos.ProductosComponent.ProcessFile | sistema-ventas-frontend/src/app/pages/productos/productos.component.ts:246-267 | the file is kept only when `ValidarArchivo` accepts it |
| Productos.ProductosComponent.OnImageError | sistema-ventas-frontend/src/app/pages/productos/productos.component.ts:393-412 | the replacement is `Reemplazar` of the source; a product with a truthy id is added to the failed set, nothing else is |
| Productos.ProductosComponent.ShouldShowPlaceholder | sistema-ventas-frontend/src/app/pages/productos/productos.component.ts:414-416 | true iff the product's id is in the failed set; never with an empty set |
| ProductoServicio.ImagenUrlOrDefault | sistema-ventas-frontend/src/app/services/producto.service.ts:119-126 | no name or a blank one gives the placeholder, any other the server URL |
| ProductoServicio.ImagenUrl | sistema-ventas-frontend/src/app/services/producto.service.ts:108-114 | no name or an empty one gives the placeholder, any other the server URL |
| ProductoServicio.ServidorNoEsPlaceholder | sistema-ventas-frontend/src/app/services/producto.service.ts:108-126 | a server URL is never the placeholder |
| ProductoServicio.UrlsDifierenSoloEnBlancos | sistema-ventas-frontend/src/app/services/producto.service.ts:108-126 | the two URL helpers disagree exactly on a non-empty all-blank name |
| ProductoServicio.Leer | sistema-ventas-frontend/src/app/services/producto.service.ts:64-95 | reading a form field finds a value iff a field of that name was appended |
| ProductoServicio.EstadoTexto | sistema-ventas-frontend/src/app/services/producto.service.ts:87 | `true` exactly for an estado of `true` |
| ProductoServicio.CamposCrear | sistema-ventas-frontend/src/app/services/producto.service.ts:64-78 | 6 fields, plus description when truthy, plus the image when given |
| ProductoServicio.CamposActualizar | sistema-ventas-frontend/src/app/services/producto.service.ts:80-95 | 7 to 9 fields |
| ProductoServicio.ActualizarEsCrearConEstado | sistema-ventas-frontend/src/app/services/producto.service.ts:80-95 | the update form is the create form's common fields, then estado, then the optional ones |
| ProductoServicio.CrearLegible | sistema-ventas-frontend/src/app/services/producto.service.ts:66-68 | the create form carries the product's code, name and quantity |
| ProductoServicio.CrearPreciosLegibles | sistema-ventas-frontend/src/app/services/producto.service.ts:69-71 | the create form carries sale price, cost and category id (0 without category) |
| ProductoServicio.CrearSinEstado | sistema-ventas-frontend/src/app/services/producto.service.ts:64-78 | the create form carries no estado |
| ProductoServicio.CrearOpcionalesLegibles | sistema-ventas-frontend/src/app/services/producto.service.ts:72-77 | description is present iff truthy, image iff given |
| ProductoServicio.LeerOpcionales | sistema-ventas-frontend/src/app/services/producto.service.ts:72-77 | the optional part holds only description and image |
| ProductoServicio.ActualizarLegible | sistema-ventas-frontend/src/app/services/producto.service.ts:82-90 | the update form carries the estado text, the category id and the code |
| ProductoServicio.ActualizarOpcionalesLegibles | sistema-ventas-frontend/src/app/services/producto.service.ts:88-94 | description is present iff truthy, image iff given |
| Categorias.EtiquetasCategoria | sistema-ventas-frontend/src/app/pages/categorias/categorias.component.ts:245-255 | a category is labelled Activo unless its estado is `false`, so a missing estado shows as active |
| Categorias.NuevaCategoria | sistema-ventas-frontend/src/app/pages/categorias/categorias.component.ts:162-165 | the trimmed name and estado `true`, without id |
| Categorias.NombreBlancoPasa | sistema-ventas-frontend/src/app/pages/categorias/categorias.component.ts:78 | a name of two spaces passes the length validator and is sent as an empty name |
| Categorias.Enviar | sistema-ventas-frontend/src/app/pages/categorias/categorias.component.ts:157-199 | nothing is sent for an invalid name; otherwise the new record, as an update of the edited id or as a creation |
| Categorias.ToggleEstado | sistema-ventas-frontend/src/app/pages/categorias/categorias.component.ts:201-228 | deactivates exactly when estado is `true`; otherwise re-sends the record with estado `true` |
| Categorias.ToggleContradiceEtiqueta | sistema-ventas-frontend/src/app/pages/categorias/categorias.component.ts:201-255 | a category without estado is labelled Activo, yet toggling it reactivates it |
| Categorias.ToggleEstadoCorregido | sistema-ventas-frontend/src/app/pages/categorias/categorias.component.ts:201-228 | same id; a reactivation re-sends the record with estado `true` |
| Categorias.ToggleCorregidoSigueEtiqueta | sistema-ventas-frontend/src/app/pages/categorias/categorias.component.ts:201-255 | the corrected toggle deactivates exactly what the label calls Activo |
| Categorias.IdTexto | sistema-ventas-frontend/src/app/pages/categorias/categorias.component.ts:114-121 | the id's text is non-empty and has no surrounding blanks |
| Categorias.BusquedaEmpiezaPorId | sistema-ventas-frontend/src/app/pages/categorias/categorias.component.ts:114-121 | the searchable text begins with the id |
| Categorias.CoincideConSuId | sistema-ventas-frontend/src/app/pages/categorias/categorias.component.ts:114-121 | every category matches the empty filter and its own id (`undefined` when it has none) |
| Categorias.CategoriasComponent.constructor | sistema-ventas-frontend/src/app/pages/categorias/categorias.component.ts:57-70 | no categories, all counters 0 |
| Categorias.CategoriasComponent.CargarCategorias | sistema-ventas-frontend/src/app/pages/categorias/categorias.component.ts:91-101 | a response replaces the list and recomputes the statistics; a failure keeps both |
| Categorias.CategoriasComponent.CalcularEstadisticas | sistema-ventas-frontend/src/app/pages/categorias/categorias.component.ts:104-108 | total, active (estado not `false`) and inactive (estado `false`) counts of the list |
| Proveedores.EtiquetasProveedor | sistema-ventas-frontend/src/app/pages/proveedores/proveedores.component.ts:242-252 | a supplier is labelled Activo exactly when estado is `true`; a missing estado shows Inactivo |
| Proveedores.ConvencionesDifierenEnAusente | sistema-ventas-frontend/src/app/pages/proveedores/proveedores.component.ts:81-87 | the supplier and category screens disagree exactly on a missing estado |
| Proveedores.FormularioValido | sistema-ventas-frontend/src/app/pages/proveedores/proveedores.component.ts:95-99 | valid exactly when the RUC is 11 digits, the name has at least 2 characters, the phone is empty or 9 digits and the e-mail is empty or accepted by the validator; a non-numeric phone is refused |
| Proveedores.ConsultaRuc | sistema-ventas-frontend/src/app/pages/proveedores/proveedores.component.ts:257 | the lookup is sent exactly for a RUC of length 11 |
| Proveedores.ConsultaRucMasAmplia | sistema-ventas-frontend/src/app/pages/proveedores/proveedores.component.ts:255-275 | every valid RUC is looked up, and so is an 11-letter one the validator refuses |
| Proveedores.Parchear | sistema-ventas-frontend/src/app/pages/proveedores/proveedores.component.ts:260-262 | RUC and name from the response; phone, address and e-mail from it when present, else kept |
| Proveedores.CoincideConSusDatos | sistema-ventas-frontend/src/app/pages/proveedores/proveedores.component.ts:112-118 | every supplier matches the empty filter, its lower-cased RUC and its lower-cased name |
| Proveedores.ProveedoresComponent.constructor | sistema-ventas-frontend/src/app/pages/proveedores/proveedores.component.ts:64-70 | no suppliers, empty form and filter |
| Proveedores.ProveedoresComponent.CargarProveedores | sistema-ventas-frontend/src/app/pages/proveedores/proveedores.component.ts:121-135 | a response replaces the list; a failure keeps it |
| Proveedores.ProveedoresComponent.AplicarFiltro | sistema-ventas-frontend/src/app/pages/proveedores/proveedores.component.ts:137-144 | the filter becomes the trimmed lower-cased text; a blank text shows every supplier |
| Proveedores.ProveedoresComponent.BuscarPorRuc | sistema-ventas-frontend/src/app/pages/proveedores/proveedores.component.ts:255-275 | looks up only an 11-character RUC and patches the form from a response; otherwise the form is kept |
| Proveedores.ProveedoresComponent.TotalProveedores | sistema-ventas-frontend/src/app/pages/proveedores/proveedores.component.ts:77-79 | the number of suppliers |
| Proveedores.ProveedoresComponent.ProveedoresActivos | sistema-ventas-frontend/src/app/pages/proveedores/proveedores.component.ts:81-83 | active plus inactive is the total; all are active iff every estado is `true` |
| Proveedores.ProveedoresComponent.ProveedoresInactivos | sistema-ventas-frontend/src/app/pages/proveedores/proveedores.component.ts:85-87 | with the active suppliers it makes up the whole table; none exactly when every supplier's estado is `true`; a supplier without estado counts as inactive |
| Clientes.ClienteConmutado | sistema-ventas-frontend/src/app/pages/clientes/clientes.component.ts:215-232 | only `activo` flips, and the label changes |
| Clientes.ConmutarDosVeces | sistema-ventas-frontend/src/app/pages/clientes/clientes.component.ts:215-232 | toggling twice gives the original client |
| Clientes.ConmutarMueveUno | sistema-ventas-frontend/src/app/pages/clientes/clientes.component.ts:77-87 | toggling one client moves exactly one client between active and inactive |
| Clientes.FormularioValido | sistema-ventas-frontend/src/app/pages/clientes/clientes.component.ts:94-101 | valid exactly when the DNI is 8 digits, the name has at least 2 characters and the e-mail is non-empty and accepted by the validator |
| Clientes.CoincideConSusDatos | sistema-ventas-frontend/src/app/pages/clientes/clientes.component.ts:113-120 | every client matches the empty filter, its lower-cased DNI and its lower-cased e-mail |
| Clientes.ClientesComponent.constructor | sistema-ventas-frontend/src/app/pages/clientes/clientes.component.ts:64-70 | no clients and an empty filter |
| Clientes.ClientesComponent.CargarClientes | sistema-ventas-frontend/src/app/pages/clientes/clientes.component.ts:123-136 | a response replaces the list; a failure keeps it |
| Clientes.ClientesComponent.AplicarFiltro | sistema-ventas-frontend/src/app/pages/clientes/clientes.component.ts:139-145 | the filter becomes the trimmed lower-cased text; a blank text shows every client |
| Clientes.ClientesComponent.TotalClientes | sistema-ventas-frontend/src/app/pages/clientes/clientes.component.ts:77-79 | the number of clients |
| Clientes.ClientesComponent.ClientesActivos | sistema-ventas-frontend/src/app/pages/clientes/clientes.component.ts:81-83 | active plus inactive is the total; none is active iff every client is inactive |
| Clientes.ClientesComponent.ClientesInactivos | sistema-ventas-frontend/src/app/pages/clientes/clientes.component.ts:85-87 | with the active clients it makes up the whole table; none exactly when every client is active |
| LibroEntidad.Libro.constructor | jea-catalogo/src/main/java/com/example/mscatalogo/entity/Libro.java:65 | an empty book with stock 0/0 and estado `true` |
| LibroEntidad.Libro.Completo | jea-catalogo/src/main/java/com/example/mscatalogo/entity/Libro.java:67-88 | the book holds exactly the given values |
| LibroEntidad.Libro.OnCreate | jea-catalogo/src/main/java/com/example/mscatalogo/entity/Libro.java:54-58 | both timestamps set to the same instant, nothing else changes |
| LibroEntidad.Libro.OnUpdate | jea-catalogo/src/main/java/com/example/mscatalogo/entity/Libro.java:60-63 | only the update timestamp changes |
| LibroEntidad.Libro.SetId | jea-catalogo/src/main/java/com/example/mscatalogo/entity/Libro.java:94-96 | only that field changes |
| LibroEntidad.Libro.SetCodigo | jea-catalogo/src/main/java/com/example/mscatalogo/entity/Libro.java:102-104 | only that field changes |
| LibroEntidad.Libro.SetTitulo | jea-catalogo/src/main/java/com/example/mscatalogo/entity/Libro.java:110-112 | only that field changes |
| LibroEntidad.Libro.SetDescripcion | jea-catalogo/src/main/java/com/example/mscatalogo/entity/Libro.java:118-120 | only that field changes |
| LibroEntidad.Libro.SetAutor | jea-catalogo/src/main/java/com/example/mscatalogo/entity/Libro.java:126-128 | only that field changes |
| LibroEntidad.Libro.SetEditorial | jea-catalogo/src/main/java/com/example/mscatalogo/entity/Libro.java:134-136 | only that field changes |
| LibroEntidad.Libro.SetIsbn | jea-catalogo/src/main/java/com/example/mscatalogo/entity/Libro.java:142-144 | only that field changes |
| LibroEntidad.Libro.SetAnioPublicacion | jea-catalogo/src/main/java/com/example/mscatalogo/entity/Libro.java:150-152 | only that field changes |
| LibroEntidad.Libro.SetStockTotal | jea-catalogo/src/main/java/com/example/mscatalogo/entity/Libro.java:158-160 | only that field changes |
| LibroEntidad.Libro.SetStockDisponible | jea-catalogo/src/main/java/com/example/mscatalogo/entity/Libro.java:166-168 | only that field changes |
| LibroEntidad.Libro.SetEstado | jea-catalogo/src/main/java/com/example/mscatalogo/entity/Libro.java:174-176 | only that field changes |
| LibroEntidad.Libro.SetFechaCreacion | jea-catalogo/src/main/java/com/example/mscatalogo/entity/Libro.java:182-184 | only that field changes |
| LibroEntidad.Libro.SetFechaActualizacion | jea-catalogo/src/main/java/com/example/mscatalogo/entity/Libro.java:190-192 | only that field changes |
| LibroEntidad.Libro.SetCategoria | jea-catalogo/src/main/java/com/example/mscatalogo/entity/Libro.java:198-200 | only that field changes |
| LibroEntidad.Libro.SetPortada | jea-catalogo/src/main/java/com/example/mscatalogo/entity/Libro.java:206-208 | only that field changes |
| Catalogo.FijarFilaConserva | jea-catalogo/src/main/java/com/example/mscatalogo/entity/Libro.java:15-49 | storing a row that meets the not-null, unique and category-reference constraints keeps the repository valid |
| Catalogo.ConCamposDe | jea-catalogo/src/main/java/com/example/mscatalogo/service/serviceImpl/LibroServiceImpl.java:69-79 | the eleven copied fields come from the request; id, cover and timestamps stay |
| Catalogo.GuardarExistente | jea-catalogo/src/main/java/com/example/mscatalogo/service/serviceImpl/LibroServiceImpl.java:81 | saving a managed book fails on a violated constraint (a missing required column, a code or ISBN already used by another row, or a category that is not in the category table) and changes nothing; otherwise stores it, stamping the update time only when the row changed |
| Catalogo.GuardarExistenteConserva | jea-catalogo/src/main/java/com/example/mscatalogo/service/serviceImpl/LibroServiceImpl.java:81 | saving a managed book keeps the repository valid |
| Catalogo.EfectoGuardarConImagen | jea-catalogo/src/main/java/com/example/mscatalogo/service/serviceImpl/LibroServiceImpl.java:28-51 | a duplicate code or title fails with nothing stored; the creation succeeds exactly when neither is taken and the new row (`FilaNueva`) satisfies the table's constraints, its category among them, and is refused with nothing stored otherwise; the stored book gets the new id, both timestamps and the cover when given |
| Catalogo.FilaNueva | jea-catalogo/src/main/java/com/example/mscatalogo/service/serviceImpl/LibroServiceImpl.java:28-51 | the inserted row: the request with the new id, both timestamps now and the uploaded cover when there is one, nothing else changed |
| Catalogo.GuardarConImagenConserva | jea-catalogo/src/main/java/com/example/mscatalogo/service/serviceImpl/LibroServiceImpl.java:28-51 | creation keeps the repository valid; a new book's code and title differ from every other row's; a request with a fresh code and title, the required columns, an unused or absent ISBN and an existing or absent category is always stored |
| Catalogo.GuardarCategoriaInexistente | jea-catalogo/src/main/java/com/example/mscatalogo/service/serviceImpl/LibroServiceImpl.java:28-51 | creating a book whose category is not in the category table fails (as a duplicate or a constraint violation) and stores nothing |
| Catalogo.EfectoActualizar | jea-catalogo/src/main/java/com/example/mscatalogo/service/serviceImpl/LibroServiceImpl.java:63-82 | an absent id is not found and changes nothing; for a stored id it succeeds exactly when the old row with the request's fields satisfies the table's constraints, its category existing or absent (otherwise a constraint failure with nothing changed), and then only that row changes, to that merged row |
| Catalogo.ActualizarConserva | jea-catalogo/src/main/java/com/example/mscatalogo/service/serviceImpl/LibroServiceImpl.java:63-82 | updating keeps the repository valid |
| Catalogo.ActualizarPermiteTituloRepetido | jea-catalogo/src/main/java/com/example/mscatalogo/service/serviceImpl/LibroServiceImpl.java:63-82 | an update can leave two books with the same title, since only creation checks titles |
| Catalogo.ActualizarCategoriaInexistente | jea-catalogo/src/main/java/com/example/mscatalogo/service/serviceImpl/LibroServiceImpl.java:63-82 | updating a stored book to a category that is not in the category table is a constraint failure that changes nothing |
| Catalogo.EfectoActualizarConImagen | jea-catalogo/src/main/java/com/example/mscatalogo/service/serviceImpl/LibroServiceImpl.java:113-145 | as `EfectoActualizar`: it succeeds for a stored id exactly when the merged row satisfies the constraints, its category included; the stored row is the merged row, with the cover replaced when given; without a cover it is exactly `EfectoActualizar` |
| Catalogo.ActualizarConImagenConserva | jea-catalogo/src/main/java/com/example/mscatalogo/service/serviceImpl/LibroServiceImpl.java:113-145 | updating with an image keeps the repository valid |
| Catalogo.EfectoEliminar | jea-catalogo/src/main/java/com/example/mscatalogo/service/serviceImpl/LibroServiceImpl.java:84-87 | the id is gone and every other row stays; an absent id changes nothing |
| Catalogo.EliminarConserva | jea-catalogo/src/main/java/com/example/mscatalogo/service/serviceImpl/LibroServiceImpl.java:84-87 | deleting keeps the repository valid |
| Catalogo.EfectoDesactivar | jea-catalogo/src/main/java/com/example/mscatalogo/service/serviceImpl/LibroServiceImpl.java:89-96 | an absent id is not found; otherwise only estado (and the timestamp) of that row changes, to `false` |
| Catalogo.DesactivarConservaEIdempotente | jea-catalogo/src/main/java/com/example/mscatalogo/service/serviceImpl/LibroServiceImpl.java:89-96 | deactivating a stored book succeeds, keeps the repository valid and a second deactivation changes nothing |
| Catalogo.EfectoActualizarCantidad | jea-catalogo/src/main/java/com/example/mscatalogo/service/serviceImpl/LibroServiceImpl.java:98-111 | an absent id is not found; a null quantity or null stock is a null-pointer failure; otherwise it succeeds exactly when the row with the new total satisfies the constraints, total becomes the quantity and available the smaller of the two, and no other field but the update time changes |
| Catalogo.ActualizarCantidadConserva | jea-catalogo/src/main/java/com/example/mscatalogo/service/serviceImpl/LibroServiceImpl.java:98-111 | a stock update keeps the repository valid, and on a valid repository it always succeeds for a stored book when neither the quantity nor the available stock is null |
| Catalogo.SoloActualizarCantidadAcotaStock | jea-catalogo/src/main/java/com/example/mscatalogo/service/serviceImpl/LibroServiceImpl.java:63-111 | a general update can store more available than total stock; only the stock update caps it |
| Catalogo.CodigoIdentifica | jea-catalogo/src/main/java/com/example/mscatalogo/entity/Libro.java:15-16 | in a valid repository a code identifies one row |
| Catalogo.ObtenerPorId | jea-catalogo/src/main/java/com/example/mscatalogo/service/serviceImpl/LibroServiceImpl.java:58-61 | found iff the id is stored; the row found carries that id |
| Catalogo.ObtenerTrasActualizar | jea-catalogo/src/main/java/com/example/mscatalogo/service/serviceImpl/LibroServiceImpl.java:58-82 | after an update, reading the id gives the updated row with the request's code, title, stock and estado |
| Catalogo.LibroServiceImpl.constructor | jea-catalogo/src/main/java/com/example/mscatalogo/service/serviceImpl/LibroServiceImpl.java:22-23 | an empty, valid repository over the given category table |
| Catalogo.LibroServiceImpl.Cargar | jea-catalogo/src/main/java/com/example/mscatalogo/service/serviceImpl/LibroServiceImpl.java:66-67 | a fresh entity holding the stored row |
| Catalogo.LibroServiceImpl.Guardar | jea-catalogo/src/main/java/com/example/mscatalogo/service/serviceImpl/LibroServiceImpl.java:81 | the result and new repository are `GuardarExistente`; the entity's update callback runs only on a changed row |
| Catalogo.LibroServiceImpl.CopiarCampos | jea-catalogo/src/main/java/com/example/mscatalogo/service/serviceImpl/LibroServiceImpl.java:69-79 | the entity's data becomes `ConCamposDe` of its old data and the request |
| Catalogo.LibroServiceImpl.GuardarConImagen | jea-catalogo/src/main/java/com/example/mscatalogo/service/serviceImpl/LibroServiceImpl.java:28-51 | the result and new repository are `EfectoGuardarConImagen`: it succeeds exactly when code and title are new and the row meets the constraints, its category included; the repository stays valid |
| Catalogo.LibroServiceImpl.ObtenerPorIdServicio | jea-catalogo/src/main/java/com/example/mscatalogo/service/serviceImpl/LibroServiceImpl.java:58-61 | the result is `ObtenerPorId` and carries the asked id |
| Catalogo.LibroServiceImpl.Actualizar | jea-catalogo/src/main/java/com/example/mscatalogo/service/serviceImpl/LibroServiceImpl.java:63-82 | the result and new repository are `EfectoActualizar`: a stored id succeeds exactly when the merged row meets the constraints, its category included; the repository stays valid |
| Catalogo.LibroServiceImpl.Eliminar | jea-catalogo/src/main/java/com/example/mscatalogo/service/serviceImpl/LibroServiceImpl.java:84-87 | the new repository is `EfectoEliminar`, and stays valid |
| Catalogo.LibroServiceImpl.Desactivar | jea-catalogo/src/main/java/com/example/mscatalogo/service/serviceImpl/LibroServiceImpl.java:89-96 | the result and new repository are `EfectoDesactivar`, and the repository stays valid |
| Catalogo.LibroServiceImpl.ActualizarCantidad | jea-catalogo/src/main/java/com/example/mscatalogo/service/serviceImpl/LibroServiceImpl.java:98-111 | the result and new repository are `EfectoActualizarCantidad`: it always succeeds for a stored book with a quantity and a stock; the repository stays valid |
| Catalogo.LibroServiceImpl.ActualizarConImagen | jea-catalogo/src/main/java/com/example/mscatalogo/service/serviceImpl/LibroServiceImpl.java:113-145 | the result and new repository are `EfectoActualizarConImagen`: a stored id succeeds exactly when the merged row meets the constraints, its category included; the repository stays valid |
| Catalogo.LibroServiceImpl.BuscarPorCodigo | jea-catalogo/src/main/java/com/example/mscatalogo/service/serviceImpl/LibroServiceImpl.java:147-150 | none iff no book has the code; otherwise the one book with that code, readable by its id |

## Left out

- Floating point: JavaScript numbers are modelled as exact reals. Rounding, NaN arithmetic and `toFixed` formatting are not modelled.
- `toLowerCase`: only ASCII and Latin-1 capitals are lowered.
- ListaCompras.Truncar: JavaScript's `length` and `substring` count UTF-16 code units, and the model counts code points. For text outside the Basic Multilingual Plane (emoji, for instance) the 32-character limit is not the source's, and a cut can fall between the two halves of a surrogate pair in the source. The same difference applies to the `minLength` checks in Categorias.NombreValido, Proveedores.NombreValido and Clientes.FormularioValido; the `\d{n}` patterns match only ASCII digits, one code unit each, so they agree.
- The `Validators.email` check is passed in as a predicate. Its regular expression is not modelled.
- HTTP calls and Observables become response parameters: `Option` for success or failure.
- Snackbars, alerts, dialogs, `isLoading` flags and console logging are not modelled.
- The PDF layout of the purchase list is not modelled. Only the row name and its truncation are.
- The date-search query parameters and date formatting of the purchase list are not modelled. The search result is a parameter.
- The `listar`/`findAll` operations are not modelled. They only read.
- Entity getters are not modelled. They are field reads, shown through `Datos()`.
- CanastaCompras.CanastaComprasService.GetCanasta: a copy of the array still shares its line objects with the service; the model uses values, so that aliasing is not captured.
- CanastaCompras.CalcularMontos: the source assigns the amounts into the caller's object; the model returns an updated value.
- The supplier search by RUC from the purchase screen is not modelled. It is an HTTP lookup whose result only fills the form.
- The status-toggle HTTP calls of the supplier screen and the client-side table filter of the product screen are not modelled.
- Image file storage is not modelled: the directory, UUID file names and copying. The stored file name is a parameter (`portada`).
- The `IOException` path of image storage is not modelled.
- Catalogo.EfectoGuardarConImagen: the new row gets the caller's fresh id; a request that carries an existing id (a JPA merge) is not modelled.
- The category table is fixed for the life of the service. Deleting a category that books still reference is done elsewhere and is not modelled.
- Managed-entity identity is not modelled: an entity the caller still holds after `save` does not alias the stored row.
- The generated `id`, the clock and the image host URL are parameters.

## Findings

| source | as written | input that shows it | evidently intended | confidence | as-written member | corrected member |
|---|---|---|---|---|---|---|
| sistema-ventas-frontend/src/app/pages/categorias/categorias.component.ts:202 | the toggle deactivates only when `estado` is truthy, while the labels at lines 245-255 show every category whose `estado` is not `false` as Activo | `{ id: 1, nombre: "Bebidas" }` with no `estado`: labelled Activo, but the toggle sends a reactivation | the toggle deactivates exactly the categories labelled Activo | low, not executed | Categorias.ToggleContradiceEtiqueta | Categorias.ToggleCorregidoSigueEtiqueta |
