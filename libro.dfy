/** The catalogue's book entity (Libro): a JPA entity whose fields are changed through
    setters and whose timestamps are set by the persistence callbacks. */
module LibroEntidad {
  import opened Wrappers

  /** A `LocalDateTime`, as an instant. */
  type Fecha = int

  /** The value of every field of a book. A Java `null` is `None`; the category is the
      id of the referenced category. */
  datatype LibroDatos = LibroDatos(
    id: Option<int>,
    codigo: Option<string>,
    titulo: Option<string>,
    descripcion: Option<string>,
    autor: Option<string>,
    editorial: Option<string>,
    isbn: Option<string>,
    anioPublicacion: Option<int>,
    stockTotal: Option<int>,
    stockDisponible: Option<int>,
    estado: bool,
    fechaCreacion: Option<Fecha>,
    fechaActualizacion: Option<Fecha>,
    categoria: Option<int>,
    portada: Option<string>)

  /** A book as the no-argument constructor leaves it: stock 0 and 0, active, everything
      else null. */
  const LIBRO_VACIO := LibroDatos(None, None, None, None, None, None, None, None, Some(0), Some(0), true,
                                   None, None, None, None)

  class Libro {
    var id: Option<int>
    var codigo: Option<string>
    var titulo: Option<string>
    var descripcion: Option<string>
    var autor: Option<string>
    var editorial: Option<string>
    var isbn: Option<string>
    var anioPublicacion: Option<int>
    var stockTotal: Option<int>
    var stockDisponible: Option<int>
    var estado: bool
    var fechaCreacion: Option<Fecha>
    var fechaActualizacion: Option<Fecha>
    var categoria: Option<int>
    var portada: Option<string>

    /** All fields as one value. */
    function Datos(): LibroDatos
      reads this
    {
      LibroDatos(id, codigo, titulo, descripcion, autor, editorial, isbn, anioPublicacion, stockTotal,
                 stockDisponible, estado, fechaCreacion, fechaActualizacion, categoria, portada)
    }

    /** `Libro()`: the field initialisers only. */
    constructor ()
      ensures Datos() == LIBRO_VACIO
      ensures stockTotal == Some(0) && stockDisponible == Some(0) && estado
    {
      id, codigo, titulo, descripcion, autor := None, None, None, None, None;
      editorial, isbn, anioPublicacion := None, None, None;
      stockTotal, stockDisponible, estado := Some(0), Some(0), true;
      fechaCreacion, fechaActualizacion, categoria, portada := None, None, None, None;
    }

    /** The all-arguments constructor: every field from its argument, no defaults. */
    constructor Completo(id: Option<int>, codigo: Option<string>, titulo: Option<string>,
                         descripcion: Option<string>, autor: Option<string>, editorial: Option<string>,
                         isbn: Option<string>, anioPublicacion: Option<int>, stockTotal: Option<int>,
                         stockDisponible: Option<int>, estado: bool, fechaCreacion: Option<Fecha>,
                         fechaActualizacion: Option<Fecha>, categoria: Option<int>, portada: Option<string>)
      ensures Datos() == LibroDatos(id, codigo, titulo, descripcion, autor, editorial, isbn, anioPublicacion,
                                    stockTotal, stockDisponible, estado, fechaCreacion, fechaActualizacion,
                                    categoria, portada)
    {
      this.id := id;
      this.codigo := codigo;
      this.titulo := titulo;
      this.descripcion := descripcion;
      this.autor := autor;
      this.editorial := editorial;
      this.isbn := isbn;
      this.anioPublicacion := anioPublicacion;
      this.stockTotal := stockTotal;
      this.stockDisponible := stockDisponible;
      this.estado := estado;
      this.fechaCreacion := fechaCreacion;
      this.fechaActualizacion := fechaActualizacion;
      this.categoria := categoria;
      this.portada := portada;
    }

    /** `onCreate` (`@PrePersist`): both timestamps become the moment of insertion. */
    method OnCreate(ahora: Fecha)
      modifies this
      ensures Datos() == old(Datos()).(fechaCreacion := Some(ahora), fechaActualizacion := Some(ahora))
      ensures fechaCreacion == fechaActualizacion
    {
      fechaCreacion := Some(ahora);
      fechaActualizacion := fechaCreacion;
    }

    /** `onUpdate` (`@PreUpdate`): only the update timestamp moves. */
    method OnUpdate(ahora: Fecha)
      modifies this
      ensures Datos() == old(Datos()).(fechaActualizacion := Some(ahora))
    {
      fechaActualizacion := Some(ahora);
    }

    method SetId(id: Option<int>)
      modifies this
      ensures Datos() == old(Datos()).(id := id)
    {
      this.id := id;
    }

    method SetCodigo(codigo: Option<string>)
      modifies this
      ensures Datos() == old(Datos()).(codigo := codigo)
    {
      this.codigo := codigo;
    }

    method SetTitulo(titulo: Option<string>)
      modifies this
      ensures Datos() == old(Datos()).(titulo := titulo)
    {
      this.titulo := titulo;
    }

    method SetDescripcion(descripcion: Option<string>)
      modifies this
      ensures Datos() == old(Datos()).(descripcion := descripcion)
    {
      this.descripcion := descripcion;
    }

    method SetAutor(autor: Option<string>)
      modifies this
      ensures Datos() == old(Datos()).(autor := autor)
    {
      this.autor := autor;
    }

    method SetEditorial(editorial: Option<string>)
      modifies this
      ensures Datos() == old(Datos()).(editorial := editorial)
    {
      this.editorial := editorial;
    }

    method SetIsbn(isbn: Option<string>)
      modifies this
      ensures Datos() == old(Datos()).(isbn := isbn)
    {
      this.isbn := isbn;
    }

    method SetAnioPublicacion(anioPublicacion: Option<int>)
      modifies this
      ensures Datos() == old(Datos()).(anioPublicacion := anioPublicacion)
    {
      this.anioPublicacion := anioPublicacion;
    }

    method SetStockTotal(stockTotal: Option<int>)
      modifies this
      ensures Datos() == old(Datos()).(stockTotal := stockTotal)
    {
      this.stockTotal := stockTotal;
    }

    method SetStockDisponible(stockDisponible: Option<int>)
      modifies this
      ensures Datos() == old(Datos()).(stockDisponible := stockDisponible)
    {
      this.stockDisponible := stockDisponible;
    }

    method SetEstado(estado: bool)
      modifies this
      ensures Datos() == old(Datos()).(estado := estado)
    {
      this.estado := estado;
    }

    method SetFechaCreacion(fechaCreacion: Option<Fecha>)
      modifies this
      ensures Datos() == old(Datos()).(fechaCreacion := fechaCreacion)
    {
      this.fechaCreacion := fechaCreacion;
    }

    method SetFechaActualizacion(fechaActualizacion: Option<Fecha>)
      modifies this
      ensures Datos() == old(Datos()).(fechaActualizacion := fechaActualizacion)
    {
      this.fechaActualizacion := fechaActualizacion;
    }

    method SetCategoria(categoria: Option<int>)
      modifies this
      ensures Datos() == old(Datos()).(categoria := categoria)
    {
      this.categoria := categoria;
    }

    method SetPortada(portada: Option<string>)
      modifies this
      ensures Datos() == old(Datos()).(portada := portada)
    {
      this.portada := portada;
    }
  }
}
