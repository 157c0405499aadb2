/** The supplier-maintenance screen (ProveedoresComponent). A supplier counts as active only
    when its `estado` is exactly true. */
module Proveedores {
  import opened Wrappers
  import opened Modelo
  import opened Texto
  import opened Colecciones
  import opened Estados
  import Categorias

  /** `estado === true`. */
  predicate Activo(estado: Option<bool>) {
    estado == Some(true)
  }

  predicate ProveedorActivo(p: Proveedor) { Activo(p.estado) }
  predicate ProveedorNoActivo(p: Proveedor) { !Activo(p.estado) }

  /** The labels for a supplier's `estado`: a missing one reads 'Inactivo'. */
  lemma EtiquetasProveedor(estado: Option<bool>)
    ensures EstadoTexto(Activo(estado)) == "Activo" <==> estado == Some(true)
    ensures EstadoTexto(Activo(None)) == "Inactivo" && EstadoIcono(Activo(None)) == "cancel"
  {
  }

  /** Suppliers and categories read a given `estado` the same way, and differ exactly when
      it is missing: active for a category, inactive for a supplier. */
  lemma ConvencionesDifierenEnAusente(estado: Option<bool>)
    ensures Categorias.Vigente(estado) != Activo(estado) <==> estado == None
  {
    match estado
    case None =>
    case Some(b) => if b { assert estado == Some(true); }
  }

  /** The supplier form's fields, as typed. */
  datatype FormProveedor = FormProveedor(ruc: string, nombre: string, telefono: string, direccion: string, correo: string)

  /** RUC: required and exactly 11 digits. */
  predicate RucValido(ruc: string) { DigitosExactos(ruc, 11) }

  /** Name: required, at least 2 characters. */
  predicate NombreValido(nombre: string) { |nombre| >= 2 }

  /** Phone: optional; when given, exactly 9 digits. */
  predicate TelefonoValido(telefono: string) { telefono == "" || DigitosExactos(telefono, 9) }

  /** The whole form's validity. `esCorreo` is the e-mail validator, which accepts an
      empty value; the address is optional. */
  function FormularioValido(f: FormProveedor, esCorreo: string -> bool): (b: bool)
    ensures b <==> && |f.ruc| == 11 && SoloDigitos(f.ruc)
                   && |f.nombre| >= 2
                   && (f.telefono == "" || (|f.telefono| == 9 && SoloDigitos(f.telefono)))
                   && (f.correo == "" || esCorreo(f.correo))
    ensures b ==> |f.ruc| == 11 && SoloDigitos(f.ruc) && |f.nombre| >= 2
    ensures b ==> |f.telefono| == 0 || |f.telefono| == 9
    ensures f.telefono != "" && !SoloDigitos(f.telefono) ==> !b
  {
    RucValido(f.ruc) && NombreValido(f.nombre) && TelefonoValido(f.telefono) && (f.correo == "" || esCorreo(f.correo))
  }

  /** `buscarPorRuc`'s gate: it queries for any text of length 11. */
  function ConsultaRuc(ruc: string): (b: bool)
    ensures b <==> |ruc| == 11
  {
    ruc != "" && |ruc| == 11
  }

  /** Every valid RUC is looked up, but the gate checks only the length: eleven letters are
      looked up too. */
  lemma ConsultaRucMasAmplia(ruc: string)
    ensures RucValido(ruc) ==> ConsultaRuc(ruc)
    ensures ConsultaRuc("abcdefghijk") && !RucValido("abcdefghijk")
  {
    assert !('0' <= "abcdefghijk"[0] <= '9');
  }

  /** `patchValue(proveedor)`: the found supplier's values replace the form's; fields the
      supplier does not carry are kept. */
  function Parchear(f: FormProveedor, p: Proveedor): (r: FormProveedor)
    ensures r.ruc == p.ruc && r.nombre == p.nombre
    ensures r.telefono == p.telefono.GetOr(f.telefono)
    ensures r.direccion == p.direccion.GetOr(f.direccion)
    ensures r.correo == p.correo.GetOr(f.correo)
  {
    FormProveedor(p.ruc, p.nombre, p.telefono.GetOr(f.telefono), p.direccion.GetOr(f.direccion), p.correo.GetOr(f.correo))
  }

  /** The table's filter predicate: the lower-cased filter occurs in the lower-cased RUC,
      name, e-mail or phone. */
  predicate Coincide(p: Proveedor, filtro: string) {
    var t := Minusculas(filtro);
    Contiene(Minusculas(p.ruc), t) || Contiene(Minusculas(p.nombre), t)
    || (p.correo.Some? && Contiene(Minusculas(p.correo.value), t))
    || (p.telefono.Some? && Contiene(Minusculas(p.telefono.value), t))
  }

  /** Every supplier matches an empty filter and a search for its own RUC or name. */
  lemma CoincideConSusDatos(p: Proveedor)
    ensures Coincide(p, "")
    ensures Coincide(p, Minusculas(p.ruc)) && Coincide(p, Minusculas(p.nombre))
  {
    ContieneTrivial(Minusculas(p.ruc));
    ContieneTrivial(Minusculas(p.nombre));
    MinusculasIdempotente(p.ruc);
    MinusculasIdempotente(p.nombre);
  }

  class ProveedoresComponent {
    /** The table's data. */
    var proveedores: seq<Proveedor>
    var formulario: FormProveedor
    var filtroTexto: string
    var filtro: string

    constructor ()
      ensures proveedores == [] && formulario == FormProveedor("", "", "", "", "")
      ensures filtroTexto == "" && filtro == ""
    {
      proveedores := [];
      formulario := FormProveedor("", "", "", "", "");
      filtroTexto, filtro := "", "";
    }

    /** `cargarProveedores`: the backend's list, `None` for an error, which keeps the table. */
    method CargarProveedores(respuesta: Option<seq<Proveedor>>)
      modifies this`proveedores
      ensures proveedores == if respuesta.Some? then respuesta.value else old(proveedores)
    {
      if respuesta.Some? {
        proveedores := respuesta.value;
      }
    }

    /** `aplicarFiltro`: the table filters by the trimmed, lower-cased text; a blank text
        shows every supplier. */
    method AplicarFiltro()
      modifies this`filtro
      ensures filtro == FiltroDe(filtroTexto)
      ensures EsBlanco(filtroTexto) ==> forall k :: 0 <= k < |proveedores| ==> Coincide(proveedores[k], filtro)
    {
      filtro := Minusculas(Recortar(filtroTexto));
      forall k | 0 <= k < |proveedores| && EsBlanco(filtroTexto) ensures Coincide(proveedores[k], filtro) {
        CoincideConSusDatos(proveedores[k]);
      }
    }

    /** `buscarPorRuc`: `respuesta` is the supplier the backend found, `None` when none was
        found or the query failed. The form changes only when the query was made and found
        someone. */
    method BuscarPorRuc(respuesta: Option<Proveedor>) returns (consultado: bool)
      modifies this`formulario
      ensures consultado <==> |old(formulario).ruc| == 11
      ensures consultado && respuesta.Some? ==> formulario == Parchear(old(formulario), respuesta.value)
      ensures !(consultado && respuesta.Some?) ==> formulario == old(formulario)
    {
      consultado := formulario.ruc != "" && |formulario.ruc| == 11;
      if consultado && respuesta.Some? {
        var p := respuesta.value;
        formulario := FormProveedor(p.ruc, p.nombre, p.telefono.GetOr(formulario.telefono),
                                    p.direccion.GetOr(formulario.direccion), p.correo.GetOr(formulario.correo));
      }
    }

    function TotalProveedores(): (n: nat)
      reads this
      ensures n == |proveedores|
    {
      |proveedores|
    }

    /** `proveedoresActivos`: suppliers whose `estado` is true; with the inactive ones they
        make up the whole table. */
    function ProveedoresActivos(): (n: nat)
      reads this
      ensures n + ProveedoresInactivos() == TotalProveedores()
      ensures n == TotalProveedores() <==> forall k :: 0 <= k < |proveedores| ==> proveedores[k].estado == Some(true)
    {
      FiltrarComplemento(proveedores, ProveedorActivo, ProveedorNoActivo);
      assert (forall k :: 0 <= k < |proveedores| ==> proveedores[k].estado == Some(true)) ==>
        Filtrar(proveedores, ProveedorActivo) == proveedores;
      |Filtrar(proveedores, ProveedorActivo)|
    }

    /** `proveedoresInactivos`: suppliers whose `estado` is not true, a missing one included;
        none exactly when every supplier is active. */
    function ProveedoresInactivos(): (n: nat)
      reads this
      ensures n <= |proveedores|
      ensures n + |Filtrar(proveedores, ProveedorActivo)| == |proveedores|
      ensures n == 0 <==> forall k :: 0 <= k < |proveedores| ==> proveedores[k].estado == Some(true)
      ensures forall k :: 0 <= k < |proveedores| && proveedores[k].estado == None ==>
        proveedores[k] in Filtrar(proveedores, ProveedorNoActivo)
    {
      FiltrarComplemento(proveedores, ProveedorActivo, ProveedorNoActivo);
      assert (forall k :: 0 <= k < |proveedores| ==> proveedores[k].estado == Some(true)) ==>
        Filtrar(proveedores, ProveedorActivo) == proveedores;
      |Filtrar(proveedores, ProveedorNoActivo)|
    }
  }
}
