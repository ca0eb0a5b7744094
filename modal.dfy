/** The reusable modal window (`components/common/Modal.jsx`). */
module Modal {
  import opened Base

  /** Where a click lands while the modal is shown. */
  datatype Destino = Fondo | Contenido | BotonCerrar

  /** The parent callback the modal can invoke. */
  datatype Llamada = OnClose

  /** An open modal: its title and its children. */
  datatype Vista<C> = Vista(titulo: string, contenido: C)

  /** Nothing is rendered while closed; once open, the title and the children are. */
  function Render<C>(isOpen: bool, titulo: string, children: C): (v: Option<Vista<C>>)
    ensures v.None? <==> !isOpen
    ensures v.Some? ==> v.value.titulo == titulo && v.value.contenido == children
  {
    if isOpen then Some(Vista(titulo, children)) else None
  }

  /** `handleBackdropClick`, run for every click that bubbles up to the
      backdrop: only a click whose target is the backdrop itself closes. */
  function HandleBackdropClick(target: Destino): (r: seq<Llamada>)
    ensures OnClose in r <==> target == Fondo
    ensures |r| <= 1
  {
    if target == Fondo then [OnClose] else []
  }

  /** A click: the clicked element's own handler, then the backdrop's as the
      event bubbles. A closed modal renders nothing, so nothing handles it. */
  function Click(isOpen: bool, target: Destino): (r: seq<Llamada>)
    ensures OnClose in r <==> isOpen && target != Contenido
    ensures |r| <= 1
  {
    if !isOpen then []
    else (if target == BotonCerrar then [OnClose] else []) + HandleBackdropClick(target)
  }
}
