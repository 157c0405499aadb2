/** The client-maintenance screen (ClientesComponent). A client's state is the boolean
    `activo`. */
module Clientes {
  import opened Wrappers
  import opened Modelo
  import opened Texto
  import opened Colecciones
  import opened Estados

  predicate ClienteActivo(c: Cliente) { c.activo }
  predicate ClienteInactivo(c: Cliente) { !c.activo }

  /** The copy `toggleEstado` sends: the same client with `activo` flipped. */
  function ClienteConmutado(c: Cliente): (r: Cliente)
    ensures r.activo == !c.activo
    ensures r.(activo := c.activo) == c
    ensures EstadoTexto(r.activo) != EstadoTexto(c.activo)
  {
    c.(activo := !c.activo)
  }

  /** Toggling twice gives the client back. */
  lemma ConmutarDosVeces(c: Cliente)
    ensures ClienteConmutado(ClienteConmutado(c)) == c
  {
  }

  /** Once the backend stores the toggled copy, the active count moves by exactly one:
      up for a client that was inactive, down for one that was active. */
  lemma ConmutarMueveUno(clientes: seq<Cliente>, i: nat)
    requires i < |clientes|
    ensures |Filtrar(clientes[i := ClienteConmutado(clientes[i])], ClienteActivo)| ==
      |Filtrar(clientes, ClienteActivo)| + (if clientes[i].activo then -1 else 1)
  {
    FiltrarActualizar(clientes, i, ClienteConmutado(clientes[i]), ClienteActivo);
  }

  /** The client form's fields, as typed. */
  datatype FormCliente = FormCliente(dni: string, nombre: string, apellido: string, email: string, telefono: string, direccion: string)

  /** DNI: required and exactly 8 digits. */
  predicate DniValido(dni: string) { DigitosExactos(dni, 8) }

  /** The whole form's validity: DNI, a name of at least 2 characters and a required
      e-mail that `esCorreo` (the e-mail validator) accepts. */
  function FormularioValido(f: FormCliente, esCorreo: string -> bool): (b: bool)
    ensures b <==> && |f.dni| == 8 && SoloDigitos(f.dni)
                   && |f.nombre| >= 2
                   && f.email != "" && esCorreo(f.email)
    ensures b ==> |f.dni| == 8 && SoloDigitos(f.dni) && |f.nombre| >= 2
    ensures f.email == "" ==> !b
  {
    DniValido(f.dni) && |f.nombre| >= 2 && f.email != "" && esCorreo(f.email)
  }

  /** The table's filter predicate: the lower-cased filter occurs in the lower-cased DNI,
      name, surname, e-mail or phone. */
  predicate Coincide(c: Cliente, filtro: string) {
    var t := Minusculas(filtro);
    Contiene(Minusculas(c.dni), t) || Contiene(Minusculas(c.nombre), t)
    || (c.apellido.Some? && Contiene(Minusculas(c.apellido.value), t))
    || Contiene(Minusculas(c.email), t)
    || (c.telefono.Some? && Contiene(Minusculas(c.telefono.value), t))
  }

  /** Every client matches an empty filter and a search for its own DNI or e-mail. */
  lemma CoincideConSusDatos(c: Cliente)
    ensures Coincide(c, "")
    ensures Coincide(c, Minusculas(c.dni)) && Coincide(c, Minusculas(c.email))
  {
    ContieneTrivial(Minusculas(c.dni));
    ContieneTrivial(Minusculas(c.email));
    MinusculasIdempotente(c.dni);
    MinusculasIdempotente(c.email);
  }

  class ClientesComponent {
    /** The table's data. */
    var clientes: seq<Cliente>
    var filtroTexto: string
    var filtro: string

    constructor ()
      ensures clientes == [] && filtroTexto == "" && filtro == ""
    {
      clientes := [];
      filtroTexto, filtro := "", "";
    }

    /** `cargarClientes`: the backend's list, `None` for an error, which keeps the table. */
    method CargarClientes(respuesta: Option<seq<Cliente>>)
      modifies this`clientes
      ensures clientes == if respuesta.Some? then respuesta.value else old(clientes)
    {
      if respuesta.Some? {
        clientes := respuesta.value;
      }
    }

    /** `aplicarFiltro`: the table filters by the trimmed, lower-cased text; a blank text
        shows every client. */
    method AplicarFiltro()
      modifies this`filtro
      ensures filtro == FiltroDe(filtroTexto)
      ensures EsBlanco(filtroTexto) ==> forall k :: 0 <= k < |clientes| ==> Coincide(clientes[k], filtro)
    {
      filtro := Minusculas(Recortar(filtroTexto));
      forall k | 0 <= k < |clientes| && EsBlanco(filtroTexto) ensures Coincide(clientes[k], filtro) {
        CoincideConSusDatos(clientes[k]);
      }
    }

    function TotalClientes(): (n: nat)
      reads this
      ensures n == |clientes|
    {
      |clientes|
    }

    /** `clientesActivos`; with the inactive ones they make up the whole table. */
    function ClientesActivos(): (n: nat)
      reads this
      ensures n + ClientesInactivos() == TotalClientes()
      ensures n == 0 <==> forall k :: 0 <= k < |clientes| ==> !clientes[k].activo
    {
      FiltrarComplemento(clientes, ClienteActivo, ClienteInactivo);
      |Filtrar(clientes, ClienteActivo)|
    }

    /** Clients that are not active; none exactly when every client is active. */
    function ClientesInactivos(): (n: nat)
      reads this
      ensures n <= |clientes|
      ensures n + |Filtrar(clientes, ClienteActivo)| == |clientes|
      ensures n == 0 <==> forall k :: 0 <= k < |clientes| ==> clientes[k].activo
    {
      FiltrarComplemento(clientes, ClienteActivo, ClienteInactivo);
      assert (forall k :: 0 <= k < |clientes| ==> clientes[k].activo) ==>
        Filtrar(clientes, ClienteActivo) == clientes;
      |Filtrar(clientes, ClienteInactivo)|
    }
  }
}
