/** The form that creates a task (`components/tareas/TareaFormulario.jsx`). */
module FormularioTarea {
  import opened Base
  import opened Text
  import opened Ui
  import opened TareaEntidad

  const TITULO_OBLIGATORIO := "El título es obligatorio"
  const ERROR_CREAR := "Error al crear la tarea. Intenta nuevamente."

  /** The JSON body the task forms send. */
  datatype DatosTarea = DatosTarea(titulo: string, descripcion: string, completada: bool)

  /** The body built from the form fields: both strings trimmed. Only built
      once the title check has passed, so the title is never empty. */
  function Datos(titulo: string, descripcion: string, completada: bool): (d: DatosTarea)
    requires !IsBlank(titulo)
    ensures d.titulo != [] && IsTrimmed(d.titulo) && IsTrimmed(d.descripcion)
    ensures d.titulo == Trim(titulo) && d.descripcion == Trim(descripcion)
    ensures d.completada == completada
  {
    DatosTarea(Trim(titulo), Trim(descripcion), completada)
  }

  /** A body passes the title check again and building it anew changes nothing. */
  lemma DatosEstables(d: DatosTarea, titulo: string, descripcion: string)
    requires !IsBlank(titulo) && d == Datos(titulo, descripcion, d.completada)
    ensures !IsBlank(d.titulo)
    ensures Datos(d.titulo, d.descripcion, d.completada) == d
  {
    TrimIdempotent(titulo);
    TrimIdempotent(descripcion);
  }

  class TareaFormulario {
    var titulo: string
    var descripcion: string
    var cargando: bool

    constructor ()
      ensures titulo == [] && descripcion == [] && !cargando
    {
      titulo := [];
      descripcion := [];
      cargando := false;
    }

    /** The synchronous part of `handleSubmit`: a blank title is refused with
        an alert and nothing changes; otherwise the flag goes up and the
        request carries the trimmed fields and `completada = false`. */
    method HandleSubmit() returns (envio: Envio<DatosTarea>)
      modifies this
      ensures titulo == old(titulo) && descripcion == old(descripcion)
      ensures IsBlank(titulo) ==> envio == Rechazado(Alert(TITULO_OBLIGATORIO)) && cargando == old(cargando)
      ensures !IsBlank(titulo) ==> envio == Enviado(Datos(titulo, descripcion, false)) && cargando
    {
      if Trim(titulo) == [] {
        envio := Rechazado(Alert(TITULO_OBLIGATORIO));
        return;
      }
      cargando := true;
      envio := Enviado(Datos(titulo, descripcion, false));
    }

    /** The rest of `handleSubmit` once the request settles: on success the
        fields are cleared and the parent receives the created task; on
        failure the fields stay and an alert is shown; the flag comes down. */
    method RecibirRespuesta(respuesta: Outcome<TareaRecord>, hayCallback: bool)
      returns (salidas: seq<Salida<TareaRecord>>)
      modifies this
      ensures !cargando
      ensures respuesta.Success? ==>
                titulo == [] && descripcion == [] &&
                salidas == (if hayCallback then [Callback(respuesta.value)] else [])
      ensures respuesta.Failure? ==>
                titulo == old(titulo) && descripcion == old(descripcion) &&
                salidas == [Aviso(Alert(ERROR_CREAR))]
    {
      match respuesta {
        case Success(nueva) =>
          titulo := [];
          descripcion := [];
          salidas := if hayCallback then [Callback(nueva)] else [];
        case Failure =>
          salidas := [Aviso(Alert(ERROR_CREAR))];
      }
      cargando := false;
    }

    /** The inputs and the button are disabled exactly while a request is pending. */
    function Vista(): (c: Controles)
      reads this
      ensures c.deshabilitado <==> cargando
      ensures c.etiqueta == if cargando then "Creando..." else "Crear Tarea"
    {
      Controles(cargando, if cargando then "Creando..." else "Crear Tarea")
    }
  }
}
