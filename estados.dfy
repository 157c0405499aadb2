/** The three status helpers every maintenance screen has (`getEstadoClase`,
    `getEstadoTexto`, `getEstadoIcono`), once a screen has decided whether a record counts
    as active. Each screen decides that differently; see its own module. */
module Estados {
  function EstadoClase(activo: bool): (r: string)
    ensures r == "estado-activo" <==> activo
    ensures r == "estado-inactivo" <==> !activo
  {
    if activo then "estado-activo" else "estado-inactivo"
  }

  function EstadoTexto(activo: bool): (r: string)
    ensures r == "Activo" <==> activo
    ensures r == "Inactivo" <==> !activo
  {
    if activo then "Activo" else "Inactivo"
  }

  function EstadoIcono(activo: bool): (r: string)
    ensures r == "check_circle" <==> activo
    ensures r == "cancel" <==> !activo
  {
    if activo then "check_circle" else "cancel"
  }

  /** The three labels never disagree: from any one of them the others follow. */
  lemma EtiquetasCoherentes(a: bool, b: bool)
    ensures EstadoTexto(a) == EstadoTexto(b) <==> EstadoClase(a) == EstadoClase(b)
    ensures EstadoTexto(a) == EstadoTexto(b) <==> EstadoIcono(a) == EstadoIcono(b)
  {
  }
}
