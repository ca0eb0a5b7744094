/** The form that edits a task inside the item's modal
    (`components/tareas/TareaFormularioEditar.jsx`). */
module FormularioEditarTarea {
  import opened Base
  import opened Text
  import opened Ui
  import opened TareaEntidad
  import opened FormularioTarea

  const ERROR_ACTUALIZAR := "Error al actualizar la tarea. Intenta nuevamente."

  /** `tareaService.actualizar(id, datos)`. */
  datatype Actualizacion = Actualizacion(id: Option<int>, datos: DatosTarea)

  class TareaFormularioEditar {
    /** The `tarea` prop. */
    var tarea: TareaRecord
    /** Starts as `tarea.titulo`, which may be null. */
    var titulo: Option<string>
    var descripcion: string
    var cargando: bool

    /** The fields start from the task; a missing description becomes ''. */
    constructor (tarea: TareaRecord)
      ensures this.tarea == tarea && titulo == tarea.titulo
      ensures descripcion == OrEmpty(tarea.descripcion) && !cargando
    {
      this.tarea := tarea;
      titulo := tarea.titulo;
      descripcion := OrEmpty(tarea.descripcion);
      cargando := false;
    }

    /** The effect on a new `tarea` prop: the fields follow it. */
    method Resincronizar(tarea: TareaRecord)
      modifies this
      ensures this.tarea == tarea && titulo == tarea.titulo
      ensures descripcion == OrEmpty(tarea.descripcion) && cargando == old(cargando)
    {
      this.tarea := tarea;
      titulo := tarea.titulo;
      descripcion := OrEmpty(tarea.descripcion);
    }

    /** The synchronous part of `handleSubmit`. A null title throws before
        anything happens; a blank one is refused with an alert; otherwise the
        flag goes up and the update targets `tarea.id` with the trimmed fields
        and the task's own completion flag. */
    method HandleSubmit() returns (envio: Envio<Actualizacion>)
      modifies this
      ensures tarea == old(tarea) && titulo == old(titulo) && descripcion == old(descripcion)
      ensures titulo.None? ==> envio == ErrorDeTipo && cargando == old(cargando)
      ensures titulo.Some? && IsBlank(titulo.value) ==>
                envio == Rechazado(Alert(TITULO_OBLIGATORIO)) && cargando == old(cargando)
      ensures titulo.Some? && !IsBlank(titulo.value) ==>
                envio == Enviado(Actualizacion(tarea.id, Datos(titulo.value, descripcion, tarea.completada))) &&
                cargando
    {
      if titulo.None? {
        envio := ErrorDeTipo;
        return;
      }
      if Trim(titulo.value) == [] {
        envio := Rechazado(Alert(TITULO_OBLIGATORIO));
        return;
      }
      cargando := true;
      envio := Enviado(Actualizacion(tarea.id, Datos(titulo.value, descripcion, tarea.completada)));
    }

    /** Once the update settles: the parent receives the updated task, or an
        alert is shown; the fields are never cleared; the flag comes down. */
    method RecibirRespuesta(respuesta: Outcome<TareaRecord>, hayCallback: bool)
      returns (salidas: seq<Salida<TareaRecord>>)
      modifies this
      ensures !cargando
      ensures tarea == old(tarea) && titulo == old(titulo) && descripcion == old(descripcion)
      ensures respuesta.Success? ==> salidas == (if hayCallback then [Callback(respuesta.value)] else [])
      ensures respuesta.Failure? ==> salidas == [Aviso(Alert(ERROR_ACTUALIZAR))]
    {
      match respuesta {
        case Success(actualizada) =>
          salidas := if hayCallback then [Callback(actualizada)] else [];
        case Failure =>
          salidas := [Aviso(Alert(ERROR_ACTUALIZAR))];
      }
      cargando := false;
    }

    /** The inputs and both buttons are disabled exactly while the update is pending. */
    function Vista(): (c: Controles)
      reads this
      ensures c.deshabilitado <==> cargando
      ensures c.etiqueta == if cargando then "Actualizando..." else "Guardar Cambios"
    {
      Controles(cargando, if cargando then "Actualizando..." else "Guardar Cambios")
    }
  }
}
