/** Shared shapes of the React front end: notifications, what a handler
    hands back to its parent, and the three-way list view. */
module Ui {
  import opened Base

  /** A message shown to the user: `alert(...)`, `toast.success(...)` or `toast.error(...)`. */
  datatype Notice = Alert(texto: string) | ToastExito(texto: string) | ToastError(texto: string)

  /** One visible effect of a settled request: a parent callback receiving a
      value, or a notice. */
  datatype Salida<R> = Callback(valor: R) | Aviso(aviso: Notice)

  /** What the synchronous part of a form's `handleSubmit` does: reject the
      input with a notice, send a request, or throw a `TypeError` (a null
      field) before anything else happens. */
  datatype Envio<P> = Rechazado(aviso: Notice) | Enviado(peticion: P) | ErrorDeTipo

  /** The submit button of a form: whether it (and every input) is disabled,
      and its label. */
  datatype Controles = Controles(deshabilitado: bool, etiqueta: string)

  /** The three views of a list component. */
  datatype ListaVista<V> = Cargando | Vacia | Items(cantidad: nat, items: seq<V>)

  /** `${o}` in a template literal: a null value prints as "null". */
  function Interpolar(o: Option<string>): (s: string)
    ensures o.Some? ==> s == o.value
    ensures o.None? ==> s == "null"
  {
    match o
    case Some(v) => v
    case None => "null"
  }

  /** `xs.map(f)`: one rendered element per input, in order. */
  function RenderAll<R, V>(xs: seq<R>, f: R -> V): (r: seq<V>)
    ensures |r| == |xs|
    ensures forall i :: 0 <= i < |xs| ==> r[i] == f(xs[i])
  {
    if xs == [] then [] else [f(xs[0])] + RenderAll(xs[1..], f)
  }

  /** The branching of a list component: loading first, then a missing or
      empty list, then one item per element with the count in the header. */
  function Lista<R, V>(lista: Option<seq<R>>, cargando: bool, f: R -> V): (v: ListaVista<V>)
    ensures cargando ==> v == Cargando
    ensures !cargando && (lista.None? || lista.value == []) ==> v == Vacia
    ensures !cargando && lista.Some? && lista.value != [] ==> v.Items?
    ensures v.Items? ==> lista.Some? && v.cantidad == |lista.value| > 0 && |v.items| == v.cantidad
    ensures v.Items? ==> forall i :: 0 <= i < |lista.value| ==> v.items[i] == f(lista.value[i])
  {
    if cargando then Cargando
    else if lista.None? || lista.value == [] then Vacia
    else Items(|lista.value|, RenderAll(lista.value, f))
  }
}
