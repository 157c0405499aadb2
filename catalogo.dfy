/** The catalogue service (LibroServiceImpl) over its repository. The JPA repository is a
    map from id to the stored row; the table's constraints (non-null columns, unique code
    and ISBN, and the `categoria_id` reference to an existing category) are checked when a
    row is saved. `categorias` is the set of ids in the category table, which this service
    only reads. */
module Catalogo {
  import opened Wrappers
  import opened LibroEntidad

  type Repositorio = map<int, LibroDatos>

  /** Why an operation fails: a code or title already in use, no row with that id, a
      rejected save (a table constraint), or a null quantity unboxed in a comparison. */
  datatype Falla = Duplicado | NoEncontrado | RestriccionViolada | PunteroNulo

  /** `existsByCodigo`. */
  predicate ExisteCodigo(repo: Repositorio, codigo: Option<string>) {
    exists k :: k in repo && repo[k].codigo == codigo
  }

  /** `existsByTitulo`. */
  predicate ExisteTitulo(repo: Repositorio, titulo: Option<string>) {
    exists k :: k in repo && repo[k].titulo == titulo
  }

  /** The table accepts `d` as row `id`: the non-null columns are set, no other row has
      the same code or (when given) the same ISBN, and the category, when given, is a row
      of the category table (`categoria_id` is a nullable foreign key). */
  predicate Persistible(repo: Repositorio, categorias: set<int>, id: int, d: LibroDatos) {
    && d.codigo.Some? && d.titulo.Some? && d.autor.Some? && d.stockTotal.Some? && d.stockDisponible.Some?
    && (d.categoria.None? || d.categoria.value in categorias)
    && forall k :: k in repo && k != id ==> repo[k].codigo != d.codigo && (d.isbn.None? || repo[k].isbn != d.isbn)
  }

  /** Every row is stored under its own id and satisfies the table's constraints. */
  predicate RepoValido(repo: Repositorio, categorias: set<int>) {
    forall k :: k in repo ==> repo[k].id == Some(k) && Persistible(repo, categorias, k, repo[k])
  }

  /** Storing an acceptable row under its id keeps the repository valid. */
  lemma {:induction false} FijarFilaConserva(repo: Repositorio, categorias: set<int>, id: int, s: LibroDatos)
    requires RepoValido(repo, categorias) && s.id == Some(id) && Persistible(repo, categorias, id, s)
    ensures RepoValido(repo[id := s], categorias)
  {
    var nuevo := repo[id := s];
    forall k | k in nuevo
      ensures nuevo[k].id == Some(k) && Persistible(nuevo, categorias, k, nuevo[k])
    {
      if k != id {
        forall j | j in nuevo && j != k
          ensures nuevo[j].codigo != nuevo[k].codigo && (nuevo[k].isbn.None? || nuevo[j].isbn != nuevo[k].isbn)
        {
          if j == id {
            assert repo[k].codigo != s.codigo;
          } else {
            assert Persistible(repo, categorias, k, repo[k]);
          }
        }
      }
    }
  }

  /** The fields `actualizar` copies from the request: everything but the id, the
      timestamps and the cover. */
  function ConCamposDe(destino: LibroDatos, origen: LibroDatos): (r: LibroDatos)
    ensures r.id == destino.id && r.portada == destino.portada
    ensures r.fechaCreacion == destino.fechaCreacion && r.fechaActualizacion == destino.fechaActualizacion
    ensures r.(id := origen.id, portada := origen.portada, fechaCreacion := origen.fechaCreacion,
               fechaActualizacion := origen.fechaActualizacion) == origen
  {
    destino.(codigo := origen.codigo, titulo := origen.titulo, descripcion := origen.descripcion,
             autor := origen.autor, editorial := origen.editorial, isbn := origen.isbn,
             anioPublicacion := origen.anioPublicacion, stockTotal := origen.stockTotal,
             stockDisponible := origen.stockDisponible, categoria := origen.categoria, estado := origen.estado)
  }

  /** `save` of a row already stored: refused by a table constraint, or stored, with
      `@PreUpdate` moving the update timestamp only when something changed. */
  function GuardarExistente(repo: Repositorio, categorias: set<int>, id: int, d: LibroDatos, ahora: Fecha): (r: (Result<LibroDatos, Falla>, Repositorio))
    requires id in repo
    ensures !Persistible(repo, categorias, id, d) ==> r == (Failure(RestriccionViolada), repo)
    ensures Persistible(repo, categorias, id, d) ==> r.0.Success? && r.1 == repo[id := r.0.value]
    ensures r.0.Success? ==> r.0.value.(fechaActualizacion := d.fechaActualizacion) == d
    ensures r.0.Success? && d == repo[id] ==> r.0.value == repo[id]
    ensures r.0.Success? && d != repo[id] ==> r.0.value.fechaActualizacion == Some(ahora)
  {
    if !Persistible(repo, categorias, id, d) then (Failure(RestriccionViolada), repo)
    else
      var s := if d != repo[id] then d.(fechaActualizacion := Some(ahora)) else d;
      (Success(s), repo[id := s])
  }

  /** A save of a row under its own id keeps the repository valid. */
  lemma GuardarExistenteConserva(repo: Repositorio, categorias: set<int>, id: int, d: LibroDatos, ahora: Fecha)
    requires RepoValido(repo, categorias) && id in repo && d.id == Some(id)
    ensures RepoValido(GuardarExistente(repo, categorias, id, d, ahora).1, categorias)
  {
    var r := GuardarExistente(repo, categorias, id, d, ahora);
    if r.0.Success? {
      FijarFilaConserva(repo, categorias, id, r.0.value);
    }
  }

  /** The row `guardarConImagen` inserts: the request with the uploaded cover (when there is
      one), the generated id and `@PrePersist`'s timestamps. */
  function FilaNueva(libro: LibroDatos, portada: Option<string>, nuevoId: int, ahora: Fecha): (d: LibroDatos)
    ensures d.id == Some(nuevoId) && d.fechaCreacion == Some(ahora) && d.fechaActualizacion == Some(ahora)
    ensures d.portada == (if portada.Some? then portada else libro.portada)
    ensures d.(id := libro.id, fechaCreacion := libro.fechaCreacion,
               fechaActualizacion := libro.fechaActualizacion, portada := libro.portada) == libro
  {
    var conPortada := if portada.Some? then libro.(portada := portada) else libro;
    conPortada.(id := Some(nuevoId), fechaCreacion := Some(ahora), fechaActualizacion := Some(ahora))
  }

  /** `guardarConImagen`: refused when the code or the title is taken; otherwise the book,
      with the stored cover when one was uploaded, is inserted under the id the database
      generates (`nuevoId`) with both timestamps set to now, unless the table refuses it. */
  function EfectoGuardarConImagen(repo: Repositorio, categorias: set<int>, libro: LibroDatos, portada: Option<string>, nuevoId: int,
                                  ahora: Fecha): (r: (Result<LibroDatos, Falla>, Repositorio))
    requires nuevoId !in repo
    ensures ExisteCodigo(repo, libro.codigo) || ExisteTitulo(repo, libro.titulo) ==> r == (Failure(Duplicado), repo)
    ensures r.0.Success? <==>
      && !ExisteCodigo(repo, libro.codigo) && !ExisteTitulo(repo, libro.titulo)
      && Persistible(repo, categorias, nuevoId, FilaNueva(libro, portada, nuevoId, ahora))
    ensures !ExisteCodigo(repo, libro.codigo) && !ExisteTitulo(repo, libro.titulo)
            && !Persistible(repo, categorias, nuevoId, FilaNueva(libro, portada, nuevoId, ahora)) ==>
      r == (Failure(RestriccionViolada), repo)
    ensures r.0.Failure? ==> r.1 == repo
    ensures r.0.Success? ==>
      && r.1 == repo[nuevoId := r.0.value]
      && r.0.value.id == Some(nuevoId)
      && r.0.value.fechaCreacion == Some(ahora) && r.0.value.fechaActualizacion == Some(ahora)
      && r.0.value.portada == (if portada.Some? then portada else libro.portada)
      && r.0.value.(id := libro.id, fechaCreacion := libro.fechaCreacion,
                    fechaActualizacion := libro.fechaActualizacion, portada := libro.portada) == libro
  {
    if ExisteCodigo(repo, libro.codigo) || ExisteTitulo(repo, libro.titulo) then (Failure(Duplicado), repo)
    else
      var nuevo := FilaNueva(libro, portada, nuevoId, ahora);
      if !Persistible(repo, categorias, nuevoId, nuevo) then (Failure(RestriccionViolada), repo)
      else (Success(nuevo), repo[nuevoId := nuevo])
  }

  /** Creating keeps the repository valid, a created book shares neither its code nor
      its title with any other book, and a request with a fresh code and title, the
      required columns, an unused (or no) ISBN and an existing (or no) category is always
      stored. */
  lemma GuardarConImagenConserva(repo: Repositorio, categorias: set<int>, libro: LibroDatos, portada: Option<string>, nuevoId: int, ahora: Fecha)
    requires RepoValido(repo, categorias) && nuevoId !in repo
    ensures RepoValido(EfectoGuardarConImagen(repo, categorias, libro, portada, nuevoId, ahora).1, categorias)
    ensures !ExisteCodigo(repo, libro.codigo) && !ExisteTitulo(repo, libro.titulo)
            && libro.codigo.Some? && libro.titulo.Some? && libro.autor.Some?
            && libro.stockTotal.Some? && libro.stockDisponible.Some?
            && (libro.isbn.None? || forall k :: k in repo ==> repo[k].isbn != libro.isbn)
            && (libro.categoria.None? || libro.categoria.value in categorias) ==>
      EfectoGuardarConImagen(repo, categorias, libro, portada, nuevoId, ahora).0.Success?
    ensures var r := EfectoGuardarConImagen(repo, categorias, libro, portada, nuevoId, ahora);
      r.0.Success? ==> forall k :: k in r.1 && k != nuevoId ==>
        r.1[k].codigo != r.0.value.codigo && r.1[k].titulo != r.0.value.titulo
  {
    var r := EfectoGuardarConImagen(repo, categorias, libro, portada, nuevoId, ahora);
    if r.0.Success? {
      FijarFilaConserva(repo, categorias, nuevoId, r.0.value);
    }
  }

  /** A request naming a category that is not in the category table is refused by the
      foreign key, with nothing stored, unless it was already refused as a duplicate. */
  lemma GuardarCategoriaInexistente(repo: Repositorio, categorias: set<int>, libro: LibroDatos,
                                    portada: Option<string>, nuevoId: int, ahora: Fecha)
    requires nuevoId !in repo && libro.categoria.Some? && libro.categoria.value !in categorias
    ensures var r := EfectoGuardarConImagen(repo, categorias, libro, portada, nuevoId, ahora);
      r.1 == repo && (r.0 == Failure(Duplicado) || r.0 == Failure(RestriccionViolada))
  {
    assert FilaNueva(libro, portada, nuevoId, ahora).categoria == libro.categoria;
  }

  /** `actualizar`: not found, or the request's fields copied onto the stored row and
      saved. */
  function EfectoActualizar(repo: Repositorio, categorias: set<int>, id: int, actualizado: LibroDatos, ahora: Fecha): (r: (Result<LibroDatos, Falla>, Repositorio))
    ensures id !in repo <==> r == (Failure(NoEncontrado), repo)
    ensures id in repo ==> (r.0.Success? <==> Persistible(repo, categorias, id, ConCamposDe(repo[id], actualizado)))
    ensures id in repo && !Persistible(repo, categorias, id, ConCamposDe(repo[id], actualizado)) ==>
      r == (Failure(RestriccionViolada), repo)
    ensures r.0.Failure? ==> r.1 == repo
    ensures r.0.Success? ==> id in repo && r.1 == repo[id := r.0.value]
    ensures r.0.Success? ==> r.0.value.(fechaActualizacion := repo[id].fechaActualizacion) == ConCamposDe(repo[id], actualizado)
  {
    if id !in repo then (Failure(NoEncontrado), repo)
    else GuardarExistente(repo, categorias, id, ConCamposDe(repo[id], actualizado), ahora)
  }

  /** An update that points the book at a category missing from the category table is
      refused by the foreign key and changes nothing. */
  lemma ActualizarCategoriaInexistente(repo: Repositorio, categorias: set<int>, id: int,
                                       actualizado: LibroDatos, ahora: Fecha)
    requires id in repo && actualizado.categoria.Some? && actualizado.categoria.value !in categorias
    ensures EfectoActualizar(repo, categorias, id, actualizado, ahora) == (Failure(RestriccionViolada), repo)
  {
    assert ConCamposDe(repo[id], actualizado).categoria == actualizado.categoria;
  }

  lemma ActualizarConserva(repo: Repositorio, categorias: set<int>, id: int, actualizado: LibroDatos, ahora: Fecha)
    requires RepoValido(repo, categorias)
    ensures RepoValido(EfectoActualizar(repo, categorias, id, actualizado, ahora).1, categorias)
  {
    if id in repo {
      GuardarExistenteConserva(repo, categorias, id, ConCamposDe(repo[id], actualizado), ahora);
    }
  }

  /** `actualizar` checks no title: two books can end up with the same title (only the
      code and the ISBN are unique in the table). */
  lemma ActualizarPermiteTituloRepetido()
    ensures var a := LibroDatos(Some(1), Some("A-1"), Some("Rayuela"), None, Some("Cortázar"), None, None, None,
                                Some(1), Some(1), true, None, None, None, None);
      var b := a.(id := Some(2), codigo := Some("B-2"), titulo := Some("Ficciones"));
      var repo := map[1 := a, 2 := b];
      var categorias: set<int> := {};
      var r := EfectoActualizar(repo, categorias, 2, b.(titulo := Some("Rayuela")), 0);
      RepoValido(repo, categorias) && r.0.Success? && r.1[1].titulo == r.1[2].titulo
  {
    var a := LibroDatos(Some(1), Some("A-1"), Some("Rayuela"), None, Some("Cortázar"), None, None, None,
                        Some(1), Some(1), true, None, None, None, None);
    var b := a.(id := Some(2), codigo := Some("B-2"), titulo := Some("Ficciones"));
    var repo := map[1 := a, 2 := b];
    var categorias: set<int> := {};
    assert a.codigo != b.codigo;
    assert Persistible(repo, categorias, 2, ConCamposDe(b, b.(titulo := Some("Rayuela"))));
  }

  /** `actualizarConImagen`: like `actualizar`, and the new cover replaces the old one when
      a file was uploaded. */
  function EfectoActualizarConImagen(repo: Repositorio, categorias: set<int>, id: int, actualizado: LibroDatos, portada: Option<string>,
                                     ahora: Fecha): (r: (Result<LibroDatos, Falla>, Repositorio))
    ensures id !in repo <==> r == (Failure(NoEncontrado), repo)
    ensures id in repo ==> (r.0.Success? <==> Persistible(repo, categorias, id, ConCamposDe(repo[id], actualizado)))
    ensures r.0.Failure? ==> r.1 == repo
    ensures r.0.Success? ==> id in repo && r.1 == repo[id := r.0.value]
    ensures r.0.Success? ==> r.0.value.portada == (if portada.Some? then portada else repo[id].portada)
    ensures r.0.Success? ==>
      r.0.value.(fechaActualizacion := repo[id].fechaActualizacion, portada := repo[id].portada)
        == ConCamposDe(repo[id], actualizado)
    ensures portada.None? ==> r == EfectoActualizar(repo, categorias, id, actualizado, ahora)
  {
    if id !in repo then (Failure(NoEncontrado), repo)
    else
      var d := ConCamposDe(repo[id], actualizado);
      GuardarExistente(repo, categorias, id, if portada.Some? then d.(portada := portada) else d, ahora)
  }

  lemma ActualizarConImagenConserva(repo: Repositorio, categorias: set<int>, id: int, actualizado: LibroDatos, portada: Option<string>, ahora: Fecha)
    requires RepoValido(repo, categorias)
    ensures RepoValido(EfectoActualizarConImagen(repo, categorias, id, actualizado, portada, ahora).1, categorias)
  {
    if id in repo {
      var d := ConCamposDe(repo[id], actualizado);
      GuardarExistenteConserva(repo, categorias, id, if portada.Some? then d.(portada := portada) else d, ahora);
    }
  }

  /** `eliminar` (`deleteById`): the row is gone and every other row is kept; an unknown id
      changes nothing. */
  function EfectoEliminar(repo: Repositorio, id: int): (r: Repositorio)
    ensures id !in r
    ensures forall k :: k in repo && k != id ==> k in r && r[k] == repo[k]
    ensures forall k :: k in r ==> k in repo
    ensures id !in repo ==> r == repo
  {
    repo - {id}
  }

  lemma EliminarConserva(repo: Repositorio, categorias: set<int>, id: int)
    requires RepoValido(repo, categorias)
    ensures RepoValido(EfectoEliminar(repo, id), categorias)
  {
  }

  /** `desactivar`: not found, or the row saved with `estado` false. */
  function EfectoDesactivar(repo: Repositorio, categorias: set<int>, id: int, ahora: Fecha): (r: (Result<LibroDatos, Falla>, Repositorio))
    ensures id !in repo <==> r == (Failure(NoEncontrado), repo)
    ensures r.0.Success? ==> id in repo && r.1 == repo[id := r.0.value] && !r.0.value.estado
    ensures r.0.Success? ==> r.0.value.(estado := repo[id].estado, fechaActualizacion := repo[id].fechaActualizacion) == repo[id]
  {
    if id !in repo then (Failure(NoEncontrado), repo)
    else GuardarExistente(repo, categorias, id, repo[id].(estado := false), ahora)
  }

  /** On a valid repository deactivation always succeeds for a stored id, keeps the
      repository valid, and a second deactivation changes nothing, not even the update
      timestamp. */
  lemma DesactivarConservaEIdempotente(repo: Repositorio, categorias: set<int>, id: int, ahora: Fecha, despues: Fecha)
    requires RepoValido(repo, categorias) && id in repo
    ensures EfectoDesactivar(repo, categorias, id, ahora).0.Success?
    ensures RepoValido(EfectoDesactivar(repo, categorias, id, ahora).1, categorias)
    ensures var una := EfectoDesactivar(repo, categorias, id, ahora).1;
      EfectoDesactivar(una, categorias, id, despues).1 == una
  {
    assert Persistible(repo, categorias, id, repo[id]);
    GuardarExistenteConserva(repo, categorias, id, repo[id].(estado := false), ahora);
    var una := EfectoDesactivar(repo, categorias, id, ahora).1;
    assert una[id].(estado := false) == una[id];
    assert Persistible(una, categorias, id, una[id]) by {
      assert RepoValido(una, categorias);
    }
  }

  /** `actualizarCantidad`: not found; a null quantity or a null available stock fails on
      unboxing; otherwise the total becomes the new quantity and the available stock is
      cut down to it when larger. */
  function EfectoActualizarCantidad(repo: Repositorio, categorias: set<int>, id: int, nueva: Option<int>, ahora: Fecha): (r: (Result<LibroDatos, Falla>, Repositorio))
    ensures id !in repo <==> r == (Failure(NoEncontrado), repo)
    ensures id in repo && (nueva.None? || repo[id].stockDisponible.None?) ==> r == (Failure(PunteroNulo), repo)
    ensures id in repo && nueva.Some? && repo[id].stockDisponible.Some? ==>
      (r.0.Success? <==> Persistible(repo, categorias, id, repo[id].(stockTotal := nueva)))
    ensures r.0.Failure? ==> r.1 == repo
    ensures r.0.Success? ==> id in repo && r.1 == repo[id := r.0.value]
    ensures r.0.Success? ==>
      && nueva.Some? && repo[id].stockDisponible.Some?
      && r.0.value.stockTotal == nueva
      && r.0.value.stockDisponible.Some?
      && r.0.value.stockDisponible.value <= nueva.value
      && r.0.value.stockDisponible.value <= repo[id].stockDisponible.value
      && (r.0.value.stockDisponible.value == nueva.value || r.0.value.stockDisponible == repo[id].stockDisponible)
    ensures r.0.Success? ==>
      r.0.value.(stockTotal := repo[id].stockTotal, stockDisponible := repo[id].stockDisponible,
                 fechaActualizacion := repo[id].fechaActualizacion) == repo[id]
  {
    if id !in repo then (Failure(NoEncontrado), repo)
    else
      var libro := repo[id];
      if nueva.None? || libro.stockDisponible.None? then (Failure(PunteroNulo), repo)
      else
        var d := libro.(stockTotal := nueva,
                        stockDisponible := if libro.stockDisponible.value > nueva.value then nueva else libro.stockDisponible);
        GuardarExistente(repo, categorias, id, d, ahora)
  }

  /** A stock update keeps the repository valid, and on a valid repository it always
      succeeds for a stored book when neither the quantity nor the available stock is null. */
  lemma ActualizarCantidadConserva(repo: Repositorio, categorias: set<int>, id: int, nueva: Option<int>, ahora: Fecha)
    requires RepoValido(repo, categorias)
    ensures RepoValido(EfectoActualizarCantidad(repo, categorias, id, nueva, ahora).1, categorias)
    ensures id in repo && nueva.Some? && repo[id].stockDisponible.Some? ==>
      EfectoActualizarCantidad(repo, categorias, id, nueva, ahora).0.Success?
  {
    if id in repo && nueva.Some? && repo[id].stockDisponible.Some? {
      var libro := repo[id];
      assert Persistible(repo, categorias, id, libro);
      var d := libro.(stockTotal := nueva,
                      stockDisponible := if libro.stockDisponible.value > nueva.value then nueva else libro.stockDisponible);
      GuardarExistenteConserva(repo, categorias, id, d, ahora);
    }
  }

  /** Available stock never exceeds the total after `actualizarCantidad`, but `actualizar`
      stores whatever the request carries: it can leave more available than in total. */
  lemma SoloActualizarCantidadAcotaStock()
    ensures var a := LibroDatos(Some(1), Some("A-1"), Some("Rayuela"), None, Some("Cortázar"), None, None, None,
                                Some(5), Some(5), true, None, None, None, None);
      var repo := map[1 := a];
      var categorias: set<int> := {};
      var r := EfectoActualizar(repo, categorias, 1, a.(stockTotal := Some(2), stockDisponible := Some(9)), 0);
      RepoValido(repo, categorias) && r.0.Success? && r.1[1].stockDisponible.value > r.1[1].stockTotal.value
  {
    var a := LibroDatos(Some(1), Some("A-1"), Some("Rayuela"), None, Some("Cortázar"), None, None, None,
                        Some(5), Some(5), true, None, None, None, None);
    var repo := map[1 := a];
    var categorias: set<int> := {};
    assert Persistible(repo, categorias, 1, ConCamposDe(a, a.(stockTotal := Some(2), stockDisponible := Some(9))));
  }

  /** In a valid repository a code identifies at most one row. */
  lemma CodigoIdentifica(repo: Repositorio, categorias: set<int>, id: int)
    requires RepoValido(repo, categorias) && id in repo
    ensures forall k :: k in repo && repo[k].codigo == repo[id].codigo ==> k == id
  {
    assert Persistible(repo, categorias, id, repo[id]);
  }

  /** `obtenerPorId` (`findById`). */
  function ObtenerPorId(repo: Repositorio, id: int): (r: Option<LibroDatos>)
    ensures r.Some? <==> id in repo
    ensures (forall k :: k in repo ==> repo[k].id == Some(k)) && r.Some? ==> r.value.id == Some(id)
  {
    if id in repo then Some(repo[id]) else None
  }

  /** After a successful update, reading the book back gives what was saved, carrying the
      request's fields. */
  lemma ObtenerTrasActualizar(repo: Repositorio, categorias: set<int>, id: int, actualizado: LibroDatos, ahora: Fecha)
    ensures var r := EfectoActualizar(repo, categorias, id, actualizado, ahora);
      r.0.Success? ==>
        && ObtenerPorId(r.1, id) == Some(r.0.value)
        && r.0.value.codigo == actualizado.codigo && r.0.value.titulo == actualizado.titulo
        && r.0.value.stockTotal == actualizado.stockTotal && r.0.value.estado == actualizado.estado
  {
  }

  /** The catalogue service and its repository. */
  class LibroServiceImpl {
    var repo: Repositorio
    const categorias: set<int>

    ghost predicate Valid()
      reads this
    {
      RepoValido(repo, categorias)
    }

    constructor (categorias: set<int>)
      ensures Valid() && repo == map[] && this.categorias == categorias
    {
      repo := map[];
      this.categorias := categorias;
    }

    /** `findById` for an update: a managed entity holding the stored row. */
    method Cargar(id: int) returns (libro: Libro)
      requires id in repo
      ensures fresh(libro) && libro.Datos() == repo[id]
    {
      var d := repo[id];
      libro := new Libro.Completo(d.id, d.codigo, d.titulo, d.descripcion, d.autor, d.editorial, d.isbn,
                                  d.anioPublicacion, d.stockTotal, d.stockDisponible, d.estado,
                                  d.fechaCreacion, d.fechaActualizacion, d.categoria, d.portada);
    }

    /** `save` of a loaded entity. */
    method Guardar(id: int, libro: Libro, ahora: Fecha) returns (r: Result<LibroDatos, Falla>)
      requires id in repo
      modifies this, libro
      ensures (r, repo) == GuardarExistente(old(repo), categorias, id, old(libro.Datos()), ahora)
    {
      if !Persistible(repo, categorias, id, libro.Datos()) {
        return Failure(RestriccionViolada);
      }
      if libro.Datos() != repo[id] {
        libro.OnUpdate(ahora);
      }
      repo := repo[id := libro.Datos()];
      r := Success(libro.Datos());
    }

    /** The eleven setter calls `actualizar` and `actualizarConImagen` share. */
    method CopiarCampos(libro: Libro, origen: Libro)
      requires libro != origen
      modifies libro
      ensures libro.Datos() == ConCamposDe(old(libro.Datos()), origen.Datos())
    {
      libro.SetCodigo(origen.codigo);
      libro.SetTitulo(origen.titulo);
      libro.SetDescripcion(origen.descripcion);
      libro.SetAutor(origen.autor);
      libro.SetEditorial(origen.editorial);
      libro.SetIsbn(origen.isbn);
      libro.SetAnioPublicacion(origen.anioPublicacion);
      libro.SetStockTotal(origen.stockTotal);
      libro.SetStockDisponible(origen.stockDisponible);
      libro.SetCategoria(origen.categoria);
      libro.SetEstado(origen.estado);
    }

    /** `guardarConImagen`. `portada` is the stored file name when a non-empty file was
        uploaded; `nuevoId` is the id the database generates. */
    method GuardarConImagen(libro: Libro, portada: Option<string>, nuevoId: int, ahora: Fecha)
      returns (r: Result<LibroDatos, Falla>)
      requires Valid() && nuevoId !in repo
      modifies this, libro
      ensures Valid()
      ensures (r, repo) == EfectoGuardarConImagen(old(repo), categorias, old(libro.Datos()), portada, nuevoId, ahora)
    {
      GuardarConImagenConserva(repo, categorias, libro.Datos(), portada, nuevoId, ahora);
      if ExisteCodigo(repo, libro.codigo) || ExisteTitulo(repo, libro.titulo) {
        return Failure(Duplicado);
      }
      if portada.Some? {
        libro.SetPortada(portada);
      }
      libro.SetId(Some(nuevoId));
      libro.OnCreate(ahora);
      if !Persistible(repo, categorias, nuevoId, libro.Datos()) {
        return Failure(RestriccionViolada);
      }
      repo := repo[nuevoId := libro.Datos()];
      r := Success(libro.Datos());
    }

    /** `obtenerPorId`. */
    method ObtenerPorIdServicio(id: int) returns (r: Option<LibroDatos>)
      requires Valid()
      ensures r == ObtenerPorId(repo, id)
      ensures r.Some? ==> r.value.id == Some(id)
    {
      r := if id in repo then Some(repo[id]) else None;
    }

    /** `actualizar`. */
    method Actualizar(id: int, actualizado: Libro, ahora: Fecha) returns (r: Result<LibroDatos, Falla>)
      requires Valid()
      modifies this
      ensures Valid()
      ensures (r, repo) == EfectoActualizar(old(repo), categorias, id, actualizado.Datos(), ahora)
    {
      ActualizarConserva(repo, categorias, id, actualizado.Datos(), ahora);
      if id !in repo {
        return Failure(NoEncontrado);
      }
      var libro := Cargar(id);
      CopiarCampos(libro, actualizado);
      r := Guardar(id, libro, ahora);
    }

    /** `eliminar`. */
    method Eliminar(id: int)
      requires Valid()
      modifies this
      ensures Valid()
      ensures repo == EfectoEliminar(old(repo), id)
    {
      repo := repo - {id};
    }

    /** `desactivar`. */
    method Desactivar(id: int, ahora: Fecha) returns (r: Result<LibroDatos, Falla>)
      requires Valid()
      modifies this
      ensures Valid()
      ensures (r, repo) == EfectoDesactivar(old(repo), categorias, id, ahora)
    {
      if id !in repo {
        return Failure(NoEncontrado);
      }
      DesactivarConservaEIdempotente(repo, categorias, id, ahora, ahora);
      var libro := Cargar(id);
      libro.SetEstado(false);
      r := Guardar(id, libro, ahora);
    }

    /** `actualizarCantidad`. */
    method ActualizarCantidad(id: int, nuevaCantidad: Option<int>, ahora: Fecha) returns (r: Result<LibroDatos, Falla>)
      requires Valid()
      modifies this
      ensures Valid()
      ensures (r, repo) == EfectoActualizarCantidad(old(repo), categorias, id, nuevaCantidad, ahora)
    {
      ActualizarCantidadConserva(repo, categorias, id, nuevaCantidad, ahora);
      if id !in repo {
        return Failure(NoEncontrado);
      }
      var libro := Cargar(id);
      libro.SetStockTotal(nuevaCantidad);
      if libro.stockDisponible.None? || nuevaCantidad.None? {
        return Failure(PunteroNulo);
      }
      if libro.stockDisponible.value > nuevaCantidad.value {
        libro.SetStockDisponible(nuevaCantidad);
      }
      r := Guardar(id, libro, ahora);
    }

    /** `actualizarConImagen`. */
    method ActualizarConImagen(id: int, actualizado: Libro, portada: Option<string>, ahora: Fecha)
      returns (r: Result<LibroDatos, Falla>)
      requires Valid()
      modifies this
      ensures Valid()
      ensures (r, repo) == EfectoActualizarConImagen(old(repo), categorias, id, actualizado.Datos(), portada, ahora)
    {
      ActualizarConImagenConserva(repo, categorias, id, actualizado.Datos(), portada, ahora);
      if id !in repo {
        return Failure(NoEncontrado);
      }
      var libro := Cargar(id);
      CopiarCampos(libro, actualizado);
      if portada.Some? {
        libro.SetPortada(portada);
      }
      r := Guardar(id, libro, ahora);
    }

    /** `buscarPorCodigo` (`findByCodigo`): a row with the code, if any. With codes
        unique, the book found is the only one with that code. */
    method BuscarPorCodigo(codigo: Option<string>) returns (r: Option<LibroDatos>)
      requires Valid()
      ensures r.None? <==> !ExisteCodigo(repo, codigo)
      ensures r.Some? ==> r.value.codigo == codigo && r.value.id.Some? && ObtenerPorId(repo, r.value.id.value) == r
      ensures r.Some? ==> forall k :: k in repo && repo[k].codigo == codigo ==> repo[k] == r.value
    {
      if !ExisteCodigo(repo, codigo) {
        return None;
      }
      var clave :| clave in repo && repo[clave].codigo == codigo;
      CodigoIdentifica(repo, categorias, clave);
      r := Some(repo[clave]);
    }
  }
}
