/** The parts of ProductoService that compute something rather than only call HTTP: the
    picture URLs and the multipart form sent when a product is created or updated. */
module ProductoServicio {
  import opened Wrappers
  import opened Modelo
  import opened Texto

  const SIN_IMAGEN := "/no-image.svg"

  /** The server URL of a stored picture. `host` is the configured backend address. */
  function UrlServidor(host: string, nombre: string): string {
    host + "/imagenes/" + nombre
  }

  /** `getImagenUrlOrDefault`: the placeholder for a missing, empty or blank name, the
      server URL with the name unchanged otherwise. */
  function ImagenUrlOrDefault(host: string, nombre: Option<string>): (r: string)
    ensures nombre.None? || EsBlanco(nombre.value) ==> r == SIN_IMAGEN
    ensures nombre.Some? && !EsBlanco(nombre.value) ==> r == UrlServidor(host, nombre.value)
  {
    if nombre.None? || nombre.value == "" || Recortar(nombre.value) == "" then SIN_IMAGEN
    else UrlServidor(host, nombre.value)
  }

  /** `getImagenUrl`: only a missing or empty name gets the placeholder. */
  function ImagenUrl(host: string, nombre: Option<string>): (r: string)
    ensures nombre.None? || nombre.value == "" ==> r == SIN_IMAGEN
    ensures nombre.Some? && nombre.value != "" ==> r == UrlServidor(host, nombre.value)
  {
    if nombre.None? || nombre.value == "" then ImagenUrlOrDefault(host, None)
    else UrlServidor(host, nombre.value)
  }

  /** No server URL is the placeholder, whatever the host. */
  lemma ServidorNoEsPlaceholder(host: string, nombre: string)
    ensures UrlServidor(host, nombre) != SIN_IMAGEN
  {
    var u := UrlServidor(host, nombre);
    if |host| == 0 {
      assert u[1] == 'i';
    } else if |host| == 1 {
      assert u[1] == '/';
    } else if |host| == 2 {
      assert u[2] == '/';
    } else {
      assert |u| >= 13 + |nombre|;
      if |u| == 13 {
        assert u[|host|] == '/';
        assert u[12] == '/';
      }
    }
  }

  /** The two URL helpers disagree exactly on a non-empty name made only of white space:
      `getImagenUrl` sends it to the server, `getImagenUrlOrDefault` shows the placeholder. */
  lemma UrlsDifierenSoloEnBlancos(host: string, nombre: Option<string>)
    ensures ImagenUrl(host, nombre) != ImagenUrlOrDefault(host, nombre) <==>
      nombre.Some? && nombre.value != "" && EsBlanco(nombre.value)
  {
    if nombre.Some? && nombre.value != "" {
      ServidorNoEsPlaceholder(host, nombre.value);
    }
  }

  /** A value appended to the multipart form. Numbers stand for their decimal text. */
  datatype Valor = Texto(s: string) | Numero(x: real) | Entero(i: int) | Fichero(f: Archivo)

  /** The form's field names. */
  datatype Clave = Codigo | Nombre | Cantidad | PrecioVenta | CostoCompra | Estado | CategoriaId | Descripcion | Imagen

  /** The name each field is sent under. */
  function TextoClave(c: Clave): string {
    match c
    case Codigo => "codigo"
    case Nombre => "nombre"
    case Cantidad => "cantidad"
    case PrecioVenta => "precioVenta"
    case CostoCompra => "costoCompra"
    case Estado => "estado"
    case CategoriaId => "categoriaId"
    case Descripcion => "descripcion"
    case Imagen => "imagen"
  }

  datatype Campo = Campo(nombre: Clave, valor: Valor)

  /** What the backend reads for a field name: the first value appended under it. */
  function Leer(campos: seq<Campo>, nombre: Clave): (r: Option<Valor>)
    ensures r.Some? <==> exists k :: 0 <= k < |campos| && campos[k].nombre == nombre
  {
    if campos == [] then None
    else if campos[0].nombre == nombre then Some(campos[0].valor)
    else
      var r := Leer(campos[1..], nombre);
      assert forall k :: 1 <= k < |campos| ==> campos[k] == campos[1..][k - 1];
      r
  }

  /** The value read for a name is the one at its first occurrence. */
  lemma {:induction false} LeerEn(campos: seq<Campo>, k: nat, nombre: Clave)
    requires k < |campos| && campos[k].nombre == nombre
    requires forall j :: 0 <= j < k ==> campos[j].nombre != nombre
    ensures Leer(campos, nombre) == Some(campos[k].valor)
  {
    if k > 0 {
      LeerEn(campos[1..], k - 1, nombre);
    }
  }

  /** Looking a name up in two lists appended reads the first list, then the second. */
  lemma {:induction false} LeerConcat(a: seq<Campo>, b: seq<Campo>, nombre: Clave)
    ensures Leer(a + b, nombre) == if Leer(a, nombre).Some? then Leer(a, nombre) else Leer(b, nombre)
  {
    if a != [] {
      assert (a + b)[1..] == a[1..] + b;
      LeerConcat(a[1..], b, nombre);
    } else {
      assert a + b == b;
    }
  }

  /** `producto.categoria?.id?.toString() || '0'`. */
  function IdCategoria(p: Producto): int {
    if p.categoria.Some? && p.categoria.value.id.Some? then p.categoria.value.id.value else 0
  }

  /** `producto.estado?.toString() || 'false'`. */
  function EstadoTexto(estado: Option<bool>): (r: string)
    ensures r == "true" <==> estado == Some(true)
  {
    if estado == Some(true) then "true" else "false"
  }

  /** The five fields both forms start with; missing numbers are sent as 0. */
  function Comunes(p: Producto): seq<Campo> {
    [ Campo(Codigo, Texto(p.codigo)), Campo(Nombre, Texto(p.nombre)),
      Campo(Cantidad, Numero(Num(p.cantidad))), Campo(PrecioVenta, Numero(Num(p.precioVenta))),
      Campo(CostoCompra, Numero(Num(p.costoCompra))) ]
  }

  /** The optional tail: the description when it is non-empty, the picture when given. */
  function Opcionales(p: Producto, imagen: Option<Archivo>): seq<Campo> {
    (if TextoVerdadero(p.descripcion) then [Campo(Descripcion, Texto(p.descripcion.value))] else [])
    + (if imagen.Some? then [Campo(Imagen, Fichero(imagen.value))] else [])
  }

  /** The form of `crearConImagen`. */
  function CamposCrear(p: Producto, imagen: Option<Archivo>): (r: seq<Campo>)
    ensures 6 <= |r| <= 8
    ensures |r| == 6 + (if TextoVerdadero(p.descripcion) then 1 else 0) + (if imagen.Some? then 1 else 0)
  {
    Comunes(p) + [Campo(CategoriaId, Entero(IdCategoria(p)))] + Opcionales(p, imagen)
  }

  /** The form of `actualizarConImagen`. */
  function CamposActualizar(p: Producto, imagen: Option<Archivo>): (r: seq<Campo>)
    ensures 7 <= |r| <= 9
  {
    Comunes(p) + [Campo(Estado, Texto(EstadoTexto(p.estado))), Campo(CategoriaId, Entero(IdCategoria(p)))]
    + Opcionales(p, imagen)
  }

  /** The update form is the create form with `estado` inserted before `categoriaId`. */
  lemma ActualizarEsCrearConEstado(p: Producto, imagen: Option<Archivo>)
    ensures CamposActualizar(p, imagen) ==
      CamposCrear(p, imagen)[..5] + [Campo(Estado, Texto(EstadoTexto(p.estado)))] + CamposCrear(p, imagen)[5..]
  {
    var c := CamposCrear(p, imagen);
    assert c[..5] == Comunes(p);
    assert c[5..] == [Campo(CategoriaId, Entero(IdCategoria(p)))] + Opcionales(p, imagen);
  }

  /** Reading the create form by name gives back the product's data: code and name as
      typed and the quantity, 0 when missing. */
  lemma CrearLegible(p: Producto, imagen: Option<Archivo>)
    ensures Leer(CamposCrear(p, imagen), Codigo) == Some(Texto(p.codigo))
    ensures Leer(CamposCrear(p, imagen), Nombre) == Some(Texto(p.nombre))
    ensures Leer(CamposCrear(p, imagen), Cantidad) == Some(Numero(Num(p.cantidad)))
  {
    var fijos := Comunes(p) + [Campo(CategoriaId, Entero(IdCategoria(p)))];
    var extra := Opcionales(p, imagen);
    LeerEn(fijos, 0, Codigo);
    LeerConcat(fijos, extra, Codigo);
    LeerEn(fijos, 1, Nombre);
    LeerConcat(fijos, extra, Nombre);
    LeerEn(fijos, 2, Cantidad);
    LeerConcat(fijos, extra, Cantidad);
  }

  /** The create form's prices read back as the product's, 0 when missing, and its
      category id as the category's id or 0. */
  lemma CrearPreciosLegibles(p: Producto, imagen: Option<Archivo>)
    ensures Leer(CamposCrear(p, imagen), PrecioVenta) == Some(Numero(Num(p.precioVenta)))
    ensures Leer(CamposCrear(p, imagen), CostoCompra) == Some(Numero(Num(p.costoCompra)))
    ensures Leer(CamposCrear(p, imagen), CategoriaId) == Some(Entero(IdCategoria(p)))
  {
    var fijos := Comunes(p) + [Campo(CategoriaId, Entero(IdCategoria(p)))];
    var extra := Opcionales(p, imagen);
    LeerEn(fijos, 3, PrecioVenta);
    LeerConcat(fijos, extra, PrecioVenta);
    LeerEn(fijos, 4, CostoCompra);
    LeerConcat(fijos, extra, CostoCompra);
    LeerEn(fijos, 5, CategoriaId);
    LeerConcat(fijos, extra, CategoriaId);
  }

  /** The create form sends no `estado`: a new product's state is left to the backend. */
  lemma CrearSinEstado(p: Producto, imagen: Option<Archivo>)
    ensures Leer(CamposCrear(p, imagen), Estado) == None
  {
    var fijos := Comunes(p) + [Campo(CategoriaId, Entero(IdCategoria(p)))];
    assert forall k :: 0 <= k < |fijos| ==> fijos[k].nombre != Estado;
    LeerOpcionales(p, imagen);
    LeerConcat(fijos, Opcionales(p, imagen), Estado);
  }

  /** The create form carries a description only when it is non-empty, and a picture only
      when one was chosen. */
  lemma CrearOpcionalesLegibles(p: Producto, imagen: Option<Archivo>)
    ensures Leer(CamposCrear(p, imagen), Descripcion) ==
      if TextoVerdadero(p.descripcion) then Some(Texto(p.descripcion.value)) else None
    ensures Leer(CamposCrear(p, imagen), Imagen) == if imagen.Some? then Some(Fichero(imagen.value)) else None
  {
    var fijos := Comunes(p) + [Campo(CategoriaId, Entero(IdCategoria(p)))];
    LeerConcat(fijos, Opcionales(p, imagen), Descripcion);
    LeerConcat(fijos, Opcionales(p, imagen), Imagen);
    LeerOpcionales(p, imagen);
  }

  /** The optional tail holds at most the description and the picture. */
  lemma LeerOpcionales(p: Producto, imagen: Option<Archivo>)
    ensures Leer(Opcionales(p, imagen), Descripcion) ==
      if TextoVerdadero(p.descripcion) then Some(Texto(p.descripcion.value)) else None
    ensures Leer(Opcionales(p, imagen), Imagen) == if imagen.Some? then Some(Fichero(imagen.value)) else None
    ensures forall n :: n != Descripcion && n != Imagen ==> Leer(Opcionales(p, imagen), n) == None
  {
    var o := Opcionales(p, imagen);
    if TextoVerdadero(p.descripcion) {
      LeerEn(o, 0, Descripcion);
    }
    if imagen.Some? {
      LeerEn(o, |o| - 1, Imagen);
    }
  }

  /** Reading the update form by name: the same values, and `estado` as 'true' only for a
      product marked active ('false' when unknown). */
  lemma ActualizarLegible(p: Producto, imagen: Option<Archivo>)
    ensures Leer(CamposActualizar(p, imagen), Estado) == Some(Texto(EstadoTexto(p.estado)))
    ensures Leer(CamposActualizar(p, imagen), CategoriaId) == Some(Entero(IdCategoria(p)))
    ensures Leer(CamposActualizar(p, imagen), Codigo) == Some(Texto(p.codigo))
  {
    var fijos := Comunes(p) + [Campo(Estado, Texto(EstadoTexto(p.estado))), Campo(CategoriaId, Entero(IdCategoria(p)))];
    var extra := Opcionales(p, imagen);
    LeerEn(fijos, 0, Codigo);
    LeerConcat(fijos, extra, Codigo);
    LeerEn(fijos, 5, Estado);
    LeerConcat(fijos, extra, Estado);
    LeerEn(fijos, 6, CategoriaId);
    LeerConcat(fijos, extra, CategoriaId);
  }

  /** The update form carries the description and the picture under the same rule as the
      create form. */
  lemma ActualizarOpcionalesLegibles(p: Producto, imagen: Option<Archivo>)
    ensures Leer(CamposActualizar(p, imagen), Descripcion) ==
      if TextoVerdadero(p.descripcion) then Some(Texto(p.descripcion.value)) else None
    ensures Leer(CamposActualizar(p, imagen), Imagen) == if imagen.Some? then Some(Fichero(imagen.value)) else None
  {
    var fijos := Comunes(p) + [Campo(Estado, Texto(EstadoTexto(p.estado))), Campo(CategoriaId, Entero(IdCategoria(p)))];
    var extra := Opcionales(p, imagen);
    LeerConcat(fijos, extra, Descripcion);
    LeerConcat(fijos, extra, Imagen);
    LeerOpcionales(p, imagen);
  }
}
