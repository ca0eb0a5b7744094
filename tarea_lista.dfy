/** The list of tasks (`components/tareas/TareaLista.jsx`). */
module ListaTareas {
  import opened Base
  import opened Ui
  import opened TareaEntidad
  import ItemTarea

  /** Loading wins over everything; a missing or empty list shows the empty
      message; otherwise one card per task, in order, under a header that
      counts them. `tareas` is `None` when the prop is null or undefined. */
  function Render(tareas: Option<seq<TareaRecord>>, cargando: bool): (v: ListaVista<ItemTarea.VistaTarea>)
    ensures cargando ==> v == Cargando
    ensures !cargando && (tareas.None? || tareas.value == []) ==> v == Vacia
    ensures !cargando && tareas.Some? && tareas.value != [] ==>
              v.Items? && v.cantidad == |tareas.value| && |v.items| == |tareas.value| &&
              forall i :: 0 <= i < |tareas.value| ==> v.items[i] == ItemTarea.Render(tareas.value[i])
  {
    Lista(tareas, cargando, ItemTarea.Render)
  }
}
