/** One task in the list, with its toggle, delete and edit actions
    (`components/tareas/TareaItem.jsx`). */
module ItemTarea {
  import opened Base
  import opened Text
  import opened Ui
  import opened TareaEntidad
  import Modal

  const ERROR_ACTUALIZAR := "Error al actualizar la tarea"
  const ERROR_ELIMINAR := "Error al eliminar la tarea"
  const TITULO_MODAL := "Editar Tarea"

  /** What a handler does, in order: a request to the task service, a parent
      callback, or a notice. */
  datatype Efecto =
    | LlamarCompletar(id: Option<int>)
    | LlamarDescompletar(id: Option<int>)
    | LlamarEliminar(id: Option<int>)
    | NotificarActualizada(tarea: TareaRecord)
    | NotificarEliminada(id: Option<int>)
    | Avisar(aviso: Notice)

  predicate EsLlamada(e: Efecto) {
    e.LlamarCompletar? || e.LlamarDescompletar? || e.LlamarEliminar?
  }

  /** `handleToggleCompletada`: exactly one request, `descompletar` for a
      completed task and `completar` otherwise; the parent receives the
      returned task only on success, and a failure raises an alert. */
  function HandleToggleCompletada(tarea: TareaRecord, respuesta: Outcome<TareaRecord>, hayCallback: bool): (r: seq<Efecto>)
    ensures |r| >= 1
    ensures r[0] == (if tarea.completada then LlamarDescompletar(tarea.id) else LlamarCompletar(tarea.id))
    ensures forall i :: 1 <= i < |r| ==> !EsLlamada(r[i])
    ensures forall i :: 0 <= i < |r| && r[i].NotificarActualizada? ==>
              hayCallback && respuesta == Success(r[i].tarea)
    ensures hayCallback && respuesta.Success? ==> NotificarActualizada(respuesta.value) in r
    ensures respuesta.Success? ==>
              r == [r[0]] + (if hayCallback then [NotificarActualizada(respuesta.value)] else [])
    ensures respuesta.Failure? ==> r == [r[0], Avisar(Alert(ERROR_ACTUALIZAR))]
  {
    var llamada := if tarea.completada then LlamarDescompletar(tarea.id) else LlamarCompletar(tarea.id);
    match respuesta
    case Success(actualizada) => [llamada] + (if hayCallback then [NotificarActualizada(actualizada)] else [])
    case Failure => [llamada, Avisar(Alert(ERROR_ACTUALIZAR))]
  }

  /** `handleEliminar`: without confirmation nothing happens; with it, one
      delete request, then the parent learns the id on success or an alert
      is raised on failure. */
  function HandleEliminar(tarea: TareaRecord, confirmado: bool, respuesta: Outcome<()>, hayCallback: bool): (r: seq<Efecto>)
    ensures !confirmado ==> r == []
    ensures confirmado ==> |r| >= 1 && r[0] == LlamarEliminar(tarea.id)
    ensures forall i :: 1 <= i < |r| ==> !EsLlamada(r[i])
    ensures NotificarEliminada(tarea.id) in r <==> confirmado && respuesta.Success? && hayCallback
    ensures forall i :: 0 <= i < |r| && r[i].NotificarEliminada? ==> r[i].id == tarea.id
    ensures confirmado && respuesta.Success? ==>
              r == [LlamarEliminar(tarea.id)] + (if hayCallback then [NotificarEliminada(tarea.id)] else [])
    ensures confirmado && respuesta.Failure? ==> r == [LlamarEliminar(tarea.id), Avisar(Alert(ERROR_ELIMINAR))]
  {
    if !confirmado then []
    else
      match respuesta
      case Success(_) => [LlamarEliminar(tarea.id)] + (if hayCallback then [NotificarEliminada(tarea.id)] else [])
      case Failure => [LlamarEliminar(tarea.id), Avisar(Alert(ERROR_ELIMINAR))]
  }

  /** The card of a task. */
  datatype VistaTarea = VistaTarea(titulo: string, descripcion: Option<string>, tachada: bool, etiquetaToggle: string)

  /** The heading is the title, empty for a null one as React prints it; the
      description paragraph appears only for a non-empty description; a
      completed task is struck through and offers to undo it. */
  function Render(tarea: TareaRecord): (v: VistaTarea)
    ensures tarea.titulo.Some? ==> v.titulo == tarea.titulo.value
    ensures tarea.titulo.None? ==> v.titulo == ""
    ensures v.descripcion.Some? <==> Truthy(tarea.descripcion)
    ensures v.descripcion.Some? ==> v.descripcion.value == tarea.descripcion.value
    ensures v.tachada == tarea.completada
    ensures v.etiquetaToggle == (if tarea.completada then "↩️ Descompletar" else "✅ Completar")
  {
    VistaTarea(OrEmpty(tarea.titulo),
               if Truthy(tarea.descripcion) then tarea.descripcion else None,
               tarea.completada,
               if tarea.completada then "↩️ Descompletar" else "✅ Completar")
  }

  class TareaItem {
    /** The `tarea` prop. */
    const tarea: TareaRecord
    var modalAbierto: bool

    constructor (tarea: TareaRecord)
      ensures this.tarea == tarea && !modalAbierto
    {
      this.tarea := tarea;
      modalAbierto := false;
    }

    method HandleAbrirModal()
      modifies this
      ensures modalAbierto
    {
      modalAbierto := true;
    }

    method HandleCerrarModal()
      modifies this
      ensures !modalAbierto
    {
      modalAbierto := false;
    }

    /** `handleTareaActualizada`, the edit form's callback: forwards the task
        to the parent and closes the modal. */
    method HandleTareaActualizada(actualizada: TareaRecord, hayCallback: bool) returns (efectos: seq<Efecto>)
      modifies this
      ensures !modalAbierto
      ensures efectos == (if hayCallback then [NotificarActualizada(actualizada)] else [])
    {
      efectos := if hayCallback then [NotificarActualizada(actualizada)] else [];
      modalAbierto := false;
    }

    /** The edit modal holds the edit form for this task and is shown exactly
        while the flag is up. */
    function ModalEdicion(): (m: Option<Modal.Vista<TareaRecord>>)
      reads this
      ensures m.Some? <==> modalAbierto
      ensures m.Some? ==> m.value.titulo == TITULO_MODAL && m.value.contenido == tarea
    {
      Modal.Render(modalAbierto, TITULO_MODAL, tarea)
    }
  }
}
