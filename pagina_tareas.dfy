/** The page that owns the list of tareas and its loading flag (`pages/TareasPage.jsx`). */
module TareasPagina {
  import opened Base
  import opened TareaEntidad
  import opened Ui
  import opened Listas

  /** The `id` of a tarea, as the page's handlers compare it. */
  function IdDe(r: TareaRecord): Option<int> { r.id }

  const ERROR_CARGA := "Error al cargar las tareas"

  class TareasPage {
    var tareas: seq<TareaRecord>
    var cargando: bool

    /** `useState([])` and `useState(false)`. */
    constructor ()
      ensures tareas == [] && !cargando
    {
      tareas := [];
      cargando := false;
    }

    /** The synchronous start of `cargar...`: the flag goes up before the request. */
    method CargarTareas()
      modifies this
      ensures cargando && tareas == old(tareas)
    {
      cargando := true;
    }

    /** The end of `cargar...`: the list is replaced by the fetched one, or
        kept with an alert on failure; the flag comes down either way. */
    method CargaTerminada(datos: Outcome<seq<TareaRecord>>) returns (aviso: Option<Notice>)
      modifies this
      ensures !cargando
      ensures datos.Success? ==> tareas == datos.value && aviso == None
      ensures datos.Failure? ==> tareas == old(tareas) && aviso == Some(Alert(ERROR_CARGA))
    {
      match datos {
        case Success(v) =>
          tareas := v;
          aviso := None;
        case Failure =>
          aviso := Some(Alert(ERROR_CARGA));
      }
      cargando := false;
    }

    /** Appends the new tarea: it is last and the earlier ones are untouched. */
    method HandleTareaCreada(nuevo: TareaRecord)
      modifies this
      ensures tareas == old(tareas) + [nuevo]
      ensures cargando == old(cargando)
    {
      tareas := tareas + [nuevo];
    }

    /** Replaces every element with the same id as `actualizado`. */
    method HandleTareaActualizada(actualizado: TareaRecord)
      modifies this
      ensures tareas == ReplaceByKey(old(tareas), IdDe, actualizado)
      ensures cargando == old(cargando)
    {
      tareas := ReplaceByKey(tareas, IdDe, actualizado);
    }

    /** Drops every element with id `id`. */
    method HandleTareaEliminada(id: Option<int>)
      modifies this
      ensures tareas == RemoveByKey(old(tareas), IdDe, id)
      ensures cargando == old(cargando)
    {
      tareas := RemoveByKey(tareas, IdDe, id);
    }
  }
}
