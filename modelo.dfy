/** The records the console exchanges with the REST API. Fields the code reads through
    `?.`, `||` or a truthiness test are optional here even where the TypeScript interface
    declares them required, because the code is written for them to be missing. */
module Modelo {
  import opened Wrappers

  datatype Categoria = Categoria(id: Option<int>, nombre: string, estado: Option<bool>)

  datatype Producto = Producto(
    id: Option<int>,
    codigo: string,
    nombre: string,
    descripcion: Option<string>,
    cantidad: Option<real>,
    precioVenta: Option<real>,
    costoCompra: Option<real>,
    categoria: Option<Categoria>,
    imagen: Option<string>,
    estado: Option<bool>)

  /** A purchase line. `baseImponible`, `igv` and `total` are derived by the basket. */
  datatype CompraDetalle = CompraDetalle(
    id: Option<int>,
    cantidad: real,
    precio: real,
    baseImponible: Option<real>,
    igv: Option<real>,
    total: Option<real>,
    productoId: int,
    producto: Option<Producto>)

  datatype Proveedor = Proveedor(
    id: Option<int>,
    ruc: string,
    nombre: string,
    telefono: Option<string>,
    direccion: Option<string>,
    correo: Option<string>,
    estado: Option<bool>)

  datatype Compra = Compra(
    id: Option<int>,
    serie: Option<string>,
    numero: Option<string>,
    descripcion: Option<string>,
    proveedorId: int,
    proveedor: Option<Proveedor>,
    detalle: Option<seq<CompraDetalle>>,
    baseImponible: Option<real>,
    igv: Option<real>,
    total: Option<real>,
    formapagoId: int)

  datatype Cliente = Cliente(
    id: int,
    dni: string,
    nombre: string,
    apellido: Option<string>,
    email: string,
    telefono: Option<string>,
    direccion: Option<string>,
    activo: bool)

  /** A browser `File`: its MIME type and size in bytes. */
  datatype Archivo = Archivo(nombre: string, tipo: string, tamano: nat)

  /** `x || 0` on a number that may be missing (NaN is not modelled). */
  function Num(x: Option<real>): real {
    x.GetOr(0.0)
  }

  /** JavaScript truthiness of a number that may be missing. */
  predicate NumVerdadero(x: Option<real>) {
    x.Some? && x.value != 0.0
  }

  /** JavaScript truthiness of a string that may be missing. */
  predicate TextoVerdadero(s: Option<string>) {
    s.Some? && s.value != ""
  }
}
