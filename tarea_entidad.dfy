/** The task entity of the backend (`model/Tarea.java`). */
module TareaEntidad {
  import opened Base

  /** The state of a task as a value: a row of the `tareas` table, and the JSON
      object the REST API and the browser exchange. */
  datatype TareaRecord = TareaRecord(
    id: Option<int>,
    titulo: Option<string>,
    descripcion: Option<string>,
    completada: bool,
    fechaCreacion: Timestamp)

  /** Column lengths of the `tareas` table. */
  const TITULO_MAX := 100
  const DESCRIPCION_MAX := 500

  /** A row the `tareas` table accepts: the title is NOT NULL and at most 100
      characters long, a description at most 500. The other NOT NULL columns,
      `completada` and `fechaCreacion`, are never null here. */
  predicate Admisible(t: TareaRecord) {
    && t.titulo.Some? && |t.titulo.value| <= TITULO_MAX
    && (t.descripcion.Some? ==> |t.descripcion.value| <= DESCRIPCION_MAX)
  }

  /** The JPA entity: private fields assigned by the constructors and changed in
      place by the setters. Each getter is a read of the corresponding field. */
  class Tarea {
    var id: Option<int>
    var titulo: Option<string>
    var descripcion: Option<string>
    var completada: bool
    var fechaCreacion: Timestamp

    function Row(): TareaRecord
      reads this
    {
      TareaRecord(id, titulo, descripcion, completada, fechaCreacion)
    }

    /** The no-argument constructor; `now` is the clock reading. */
    constructor Vacia(now: Timestamp)
      ensures Row() == TareaRecord(None, None, None, false, now)
    {
      id, titulo, descripcion := None, None, None;
      completada := false;
      fechaCreacion := now;
    }

    /** The constructor taking a title and a description. */
    constructor (titulo: Option<string>, descripcion: Option<string>, now: Timestamp)
      ensures Row() == TareaRecord(None, titulo, descripcion, false, now)
    {
      this.id := None;
      this.titulo := titulo;
      this.descripcion := descripcion;
      this.completada := false;
      this.fechaCreacion := now;
    }

    method SetId(id: Option<int>)
      modifies this
      ensures this.id == id
      ensures Row() == old(Row()).(id := id)
    {
      this.id := id;
    }

    method SetTitulo(titulo: Option<string>)
      modifies this
      ensures this.titulo == titulo
      ensures Row() == old(Row()).(titulo := titulo)
    {
      this.titulo := titulo;
    }

    method SetDescripcion(descripcion: Option<string>)
      modifies this
      ensures this.descripcion == descripcion
      ensures Row() == old(Row()).(descripcion := descripcion)
    {
      this.descripcion := descripcion;
    }

    method SetCompletada(completada: bool)
      modifies this
      ensures this.completada == completada
      ensures Row() == old(Row()).(completada := completada)
    {
      this.completada := completada;
    }

    method SetFechaCreacion(fechaCreacion: Timestamp)
      modifies this
      ensures this.fechaCreacion == fechaCreacion
      ensures Row() == old(Row()).(fechaCreacion := fechaCreacion)
    {
      this.fechaCreacion := fechaCreacion;
    }
  }
}
