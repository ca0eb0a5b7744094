/** The confirmation dialog (`components/common/ConfirmModal.jsx`). */
module ConfirmModal {
  import opened Base

  const TITULO_DEFECTO := "¿Estás seguro?"
  const MENSAJE_DEFECTO := "Esta acción no se puede deshacer."
  const CONFIRMAR_DEFECTO := "Confirmar"
  const CANCELAR_DEFECTO := "Cancelar"

  /** Where a click lands while the dialog is shown. */
  datatype Destino = Fondo | Contenido | BotonCancelar | BotonConfirmar

  /** The parent callbacks the dialog can invoke. */
  datatype Llamada = OnConfirm | OnClose

  /** The texts of an open dialog. */
  datatype Vista = Vista(titulo: string, mensaje: string, textoConfirmar: string, textoCancelar: string)

  /** A text prop as the parent passes it: left out (`undefined`), `null`,
      or a string. */
  datatype Prop = Omitida | Nula | Texto(valor: string)

  /** `s` is what prop `p` shows once its default is applied. */
  ghost predicate Muestra(p: Prop, defecto: string, s: string) {
    && (p.Omitida? ==> s == defecto)
    && (p.Nula? ==> s == "")
    && (p.Texto? ==> s == p.valor)
  }

  /** A destructured prop with a default: the default replaces only an
      omitted prop; an explicit `null` stays, and React renders it as no
      text at all. */
  function ConDefecto(p: Prop, defecto: string): (s: string)
    ensures Muestra(p, defecto, s)
  {
    match p
    case Omitida => defecto
    case Nula => ""
    case Texto(t) => t
  }

  /** Nothing is rendered while closed; once open, each text is the given
      string, nothing for `null`, or its default when omitted. */
  function Render(isOpen: bool, titulo: Prop, mensaje: Prop, textoConfirmar: Prop, textoCancelar: Prop): (v: Option<Vista>)
    ensures v.None? <==> !isOpen
    ensures v.Some? ==> Muestra(titulo, TITULO_DEFECTO, v.value.titulo)
    ensures v.Some? ==> Muestra(mensaje, MENSAJE_DEFECTO, v.value.mensaje)
    ensures v.Some? ==> Muestra(textoConfirmar, CONFIRMAR_DEFECTO, v.value.textoConfirmar)
    ensures v.Some? ==> Muestra(textoCancelar, CANCELAR_DEFECTO, v.value.textoCancelar)
  {
    if !isOpen then None
    else Some(Vista(ConDefecto(titulo, TITULO_DEFECTO), ConDefecto(mensaje, MENSAJE_DEFECTO),
                    ConDefecto(textoConfirmar, CONFIRMAR_DEFECTO), ConDefecto(textoCancelar, CANCELAR_DEFECTO)))
  }

  /** `handleConfirm`: confirm first, then close. */
  function HandleConfirm(): (r: seq<Llamada>)
    ensures |r| == 2 && r[0] == OnConfirm && r[1] == OnClose
  {
    [OnConfirm, OnClose]
  }

  /** `handleBackdropClick`, run for every click that bubbles up to the
      backdrop: only a click whose target is the backdrop itself closes. */
  function HandleBackdropClick(target: Destino): (r: seq<Llamada>)
    ensures OnClose in r <==> target == Fondo
    ensures OnConfirm !in r && |r| <= 1
  {
    if target == Fondo then [OnClose] else []
  }

  /** A click: the clicked element's own handler, then the backdrop's as the
      event bubbles. A closed dialog renders nothing, so nothing handles it. */
  function Click(isOpen: bool, target: Destino): (r: seq<Llamada>)
    ensures OnConfirm in r <==> isOpen && target == BotonConfirmar
    ensures OnClose in r <==> isOpen && target != Contenido
    ensures isOpen && target == BotonConfirmar ==> r == [OnConfirm, OnClose]
    ensures target != BotonConfirmar ==> |r| <= 1
  {
    if !isOpen then []
    else
      (match target
       case BotonConfirmar => HandleConfirm()
       case BotonCancelar => [OnClose]
       case _ => [])
      + HandleBackdropClick(target)
  }
}
