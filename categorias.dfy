/** The category-maintenance screen (CategoriasComponent). A category whose `estado` is
    not given counts as active here. */
module Categorias {
  import opened Wrappers
  import opened Modelo
  import opened Texto
  import opened Colecciones
  import opened Estados

  /** `estado !== false`: only an explicit false is inactive. */
  predicate Vigente(estado: Option<bool>) {
    estado != Some(false)
  }

  predicate CategoriaVigente(c: Categoria) { Vigente(c.estado) }
  predicate CategoriaInactiva(c: Categoria) { c.estado == Some(false) }

  /** The labels for a category's `estado`: active unless explicitly false. */
  lemma EtiquetasCategoria(estado: Option<bool>)
    ensures EstadoTexto(Vigente(estado)) == "Activo" <==> estado == None || estado == Some(true)
    ensures EstadoClase(Vigente(estado)) == "estado-inactivo" <==> estado == Some(false)
    ensures EstadoIcono(Vigente(None)) == "check_circle"
  {
    match estado
    case None =>
    case Some(b) => if b { assert estado == Some(true); }
  }

  /** The name validator: required, at least 2 and at most 50 characters. */
  predicate NombreValido(nombre: string) {
    2 <= |nombre| <= 50
  }

  /** The record `onSubmit` sends: the trimmed name, always active. */
  function NuevaCategoria(nombre: string): (c: Categoria)
    ensures c.id.None? && c.estado == Some(true)
    ensures c.nombre == Recortar(nombre) && |c.nombre| <= |nombre|
    ensures c.nombre == [] <==> EsBlanco(nombre)
  {
    Categoria(None, Recortar(nombre), Some(true))
  }

  /** The validator looks at the untrimmed text: a name of two or more spaces passes it
      and is sent as an empty name. */
  lemma NombreBlancoPasa()
    ensures NombreValido("  ") && NuevaCategoria("  ").nombre == ""
  {
    assert EsBlanco("  ");
  }

  /** What `onSubmit` asks the backend for. */
  datatype Peticion = Crear(categoria: Categoria) | Actualizar(id: Option<int>, categoria: Categoria)

  /** `onSubmit`: nothing for an invalid form; an update of the category being edited, or a
      creation. */
  function Enviar(editando: Option<Categoria>, nombre: string): (r: Option<Peticion>)
    ensures r.None? <==> !NombreValido(nombre)
    ensures r.Some? ==> r.value.categoria == NuevaCategoria(nombre)
    ensures r.Some? ==> (r.value.Actualizar? <==> editando.Some?)
    ensures r.Some? && editando.Some? ==> r.value.id == editando.value.id
  {
    if !NombreValido(nombre) then None
    else if editando.Some? then Some(Actualizar(editando.value.id, NuevaCategoria(nombre)))
    else Some(Crear(NuevaCategoria(nombre)))
  }

  /** What `toggleEstado` asks the backend for. */
  datatype Conmutacion = Desactivar(id: Option<int>) | Reactivar(id: Option<int>, categoria: Categoria)

  /** `toggleEstado` as written: it deactivates only when `estado` is truthy, so a category
      without `estado` is sent to be reactivated. */
  function ToggleEstado(c: Categoria): (r: Conmutacion)
    ensures r.Desactivar? <==> c.estado == Some(true)
    ensures r.id == c.id
    ensures r.Reactivar? ==> r.categoria == c.(estado := Some(true))
  {
    if c.estado == Some(true) then Desactivar(c.id) else Reactivar(c.id, c.(estado := Some(true)))
  }

  /** A category without `estado` is shown as active, yet toggling it reactivates it. */
  lemma ToggleContradiceEtiqueta()
    ensures var c := Categoria(Some(1), "Bebidas", None);
      EstadoTexto(Vigente(c.estado)) == "Activo" && ToggleEstado(c).Reactivar?
  {
  }

  /** `toggleEstado` deciding by the same rule as the labels. */
  function ToggleEstadoCorregido(c: Categoria): (r: Conmutacion)
    ensures r.id == c.id
    ensures r.Reactivar? ==> r.categoria == c.(estado := Some(true))
  {
    if Vigente(c.estado) then Desactivar(c.id) else Reactivar(c.id, c.(estado := Some(true)))
  }

  /** The corrected toggle deactivates exactly the categories shown as active, and the
      reactivated copy is then shown as active. */
  lemma ToggleCorregidoSigueEtiqueta(c: Categoria)
    ensures ToggleEstadoCorregido(c).Desactivar? <==> EstadoTexto(Vigente(c.estado)) == "Activo"
    ensures ToggleEstadoCorregido(c).Reactivar? ==>
      EstadoTexto(Vigente(ToggleEstadoCorregido(c).categoria.estado)) == "Activo"
  {
  }

  /** `categoria.id?.toString()`: the id's digits, or 'undefined' without an id. */
  function IdTexto(id: Option<int>): (r: string)
    ensures |r| > 0 && !EsEspacio(r[0]) && !EsEspacio(r[|r| - 1])
  {
    if id.Some? then EnteroATexto(id.value) else "undefined"
  }

  /** The text the table's filter searches: id, a space and the lower-cased name, trimmed. */
  function TextoBusqueda(c: Categoria): string {
    Recortar(IdTexto(c.id) + " " + Minusculas(c.nombre))
  }

  /** The table's filter predicate; `filtro` is the lower-cased filter text. */
  predicate Coincide(c: Categoria, filtro: string) {
    Contiene(TextoBusqueda(c), filtro)
  }

  /** The searched text starts with the id's text: trimming cannot touch it. */
  lemma BusquedaEmpiezaPorId(c: Categoria)
    ensures IdTexto(c.id) <= TextoBusqueda(c)
  {
    var id, resto := IdTexto(c.id), " " + Minusculas(c.nombre);
    assert IdTexto(c.id) + " " + Minusculas(c.nombre) == id + resto;
    RecortarConservaPrefijo(id, resto);
  }

  /** Every category matches an empty filter and the text of its own id; one without an id
      matches 'undefined'. */
  lemma CoincideConSuId(c: Categoria)
    ensures Coincide(c, "")
    ensures Coincide(c, IdTexto(c.id))
    ensures c.id.None? ==> Coincide(c, "undefined")
  {
    var texto := TextoBusqueda(c);
    ContieneTrivial(texto);
    BusquedaEmpiezaPorId(c);
    ContienePrefijo(IdTexto(c.id), texto);
  }

  class CategoriasComponent {
    /** The table's data. */
    var categorias: seq<Categoria>
    var totalCategorias: int
    var categoriasActivas: int
    var categoriasInactivas: int

    constructor ()
      ensures categorias == [] && totalCategorias == 0 && categoriasActivas == 0 && categoriasInactivas == 0
    {
      categorias := [];
      totalCategorias, categoriasActivas, categoriasInactivas := 0, 0, 0;
    }

    /** `cargarCategorias`: the backend's list (`None` for an error, which keeps the
        table), then the statistics. */
    method CargarCategorias(respuesta: Option<seq<Categoria>>)
      modifies this
      ensures categorias == if respuesta.Some? then respuesta.value else old(categorias)
      ensures respuesta.Some? ==> Cuadradas()
      ensures respuesta.None? ==>
        && totalCategorias == old(totalCategorias)
        && categoriasActivas == old(categoriasActivas) && categoriasInactivas == old(categoriasInactivas)
    {
      if respuesta.Some? {
        categorias := respuesta.value;
        CalcularEstadisticas();
      }
    }

    /** The counters describe the table: all rows, rows not explicitly inactive, and rows
        explicitly inactive. */
    ghost predicate Cuadradas()
      reads this
    {
      && totalCategorias == |categorias|
      && categoriasActivas == |Filtrar(categorias, CategoriaVigente)|
      && categoriasInactivas == |Filtrar(categorias, CategoriaInactiva)|
    }

    /** `calcularEstadisticas`: the inactive count is the total minus the active count,
        which is exactly the number of categories whose `estado` is false. */
    method CalcularEstadisticas()
      modifies this`totalCategorias, this`categoriasActivas, this`categoriasInactivas
      ensures Cuadradas()
      ensures 0 <= categoriasActivas <= totalCategorias && categoriasInactivas >= 0
    {
      totalCategorias := |categorias|;
      categoriasActivas := |Filtrar(categorias, CategoriaVigente)|;
      categoriasInactivas := totalCategorias - categoriasActivas;
      FiltrarComplemento(categorias, CategoriaVigente, CategoriaInactiva);
    }
  }
}
