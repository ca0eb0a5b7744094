/** The REST endpoints under `/api/tareas` (`controller/TareaController.java`). */
module TareaControlador {
  import opened Base
  import opened Http
  import opened TareaEntidad
  import opened TareaServicio
  import Store

  class TareaController {
    const service: TareaService

    constructor (service: TareaService)
      ensures this.service == service
    {
      this.service := service;
    }

    /** GET /api/tareas: 200 with every task once. */
    method ObtenerTodasLasTareas() returns (resp: Response<seq<TareaRecord>>, ghost ids: seq<int>)
      ensures resp.status == OK && resp.body.Some?
      ensures Store.Enumerates(service.store, ids, resp.body.value)
      ensures Store.Lists(service.store, resp.body.value)
    {
      var tareas;
      tareas, ids := service.ObtenerTodasLasTareas();
      resp := Ok(tareas);
    }

    /** GET /api/tareas/{id}: 200 with the task, or 404 when the id is unknown. */
    method ObtenerTareaPorId(id: int) returns (resp: Response<TareaRecord>)
      ensures resp.status == OK <==> id in service.store
      ensures resp.status == NOT_FOUND <==> id !in service.store
      ensures resp.status == OK ==> resp.body == Some(service.store[id])
      ensures resp.status == NOT_FOUND ==> resp.body == None
    {
      var tarea := service.ObtenerTareaPorId(id);
      resp := OkOrNotFound(tarea);
    }

    /** POST /api/tareas: 201 with the task saved under a new id; a body
        that breaks a column constraint makes `save` throw, answered with 500
        and no change. */
    method CrearTarea(tarea: TareaRecord) returns (resp: Response<TareaRecord>)
      requires service.Valid()
      modifies service
      ensures service.Valid()
      ensures resp.status == (if Admisible(tarea) then CREATED else INTERNAL_SERVER_ERROR)
      ensures resp.status == CREATED ==>
                resp.body.Some? &&
                (var t := resp.body.value;
                 t.id.Some? && t.id.value !in old(service.store) && t == tarea.(id := t.id) &&
                 service.store == old(service.store)[t.id.value := t])
      ensures resp.status == INTERNAL_SERVER_ERROR ==> resp.body == None && service.store == old(service.store)
    {
      var nueva := service.CrearTarea(tarea);
      match nueva {
        case Success(v) => resp := Created(v);
        case Failure => resp := ServerError();
      }
    }

    /** PUT /api/tareas/{id}: 200 with the updated task, or 404 and no change. */
    method ActualizarTarea(id: int, tarea: TareaRecord) returns (resp: Response<TareaRecord>)
      requires service.Valid()
      modifies service
      ensures service.Valid()
      ensures resp.status ==
                if id !in old(service.store) then NOT_FOUND
                else if Admisible(tarea) then OK
                else INTERNAL_SERVER_ERROR
      ensures resp.status == OK ==>
                resp.body == Some(Actualizada(old(service.store)[id], tarea)) &&
                service.store == old(service.store)[id := resp.body.value]
      ensures resp.status != OK ==> resp.body == None && service.store == old(service.store)
    {
      var actualizada := service.ActualizarTarea(id, tarea);
      resp := OkOrNotFoundOrError(actualizada);
    }

    /** DELETE /api/tareas/{id}: 204 when the task was deleted, 404 when it did not exist. */
    method EliminarTarea(id: int) returns (resp: Response<()>)
      requires service.Valid()
      modifies service
      ensures service.Valid()
      ensures resp.status == (if id in old(service.store) then NO_CONTENT else NOT_FOUND)
      ensures resp.body == None
      ensures service.store == old(service.store) - {id}
    {
      var eliminado := service.EliminarTarea(id);
      resp := NoContentOrNotFound(eliminado);
    }

    /** The common body of `completar` and `descompletar`: fetch the task, set
        its flag, save it through `actualizarTarea`. */
    method MarcarTarea(id: int, completada: bool) returns (resp: Response<TareaRecord>)
      requires service.Valid()
      modifies service
      ensures service.Valid()
      ensures resp.status == (if id in old(service.store) then OK else NOT_FOUND)
      ensures service.store == ConEstado(old(service.store), id, completada)
      ensures resp.status == OK ==> resp.body == Some(service.store[id])
      ensures resp.status == NOT_FOUND ==> resp.body == None
    {
      var existente := service.ObtenerTareaPorId(id);
      if existente.Some? {
        var tarea := existente.value.(completada := completada);
        var actualizada := service.ActualizarTarea(id, tarea);
        resp := OkOrNotFound(actualizada.value);
      } else {
        resp := NotFound();
      }
    }

    /** PUT /api/tareas/{id}/completar: only the flag changes, to true. */
    method CompletarTarea(id: int) returns (resp: Response<TareaRecord>)
      requires service.Valid()
      modifies service
      ensures service.Valid()
      ensures resp.status == (if id in old(service.store) then OK else NOT_FOUND)
      ensures service.store == ConEstado(old(service.store), id, true)
      ensures resp.status == OK ==> resp.body == Some(service.store[id]) && service.store[id].completada
    {
      resp := MarcarTarea(id, true);
    }

    /** PUT /api/tareas/{id}/descompletar: only the flag changes, to false. */
    method DescompletarTarea(id: int) returns (resp: Response<TareaRecord>)
      requires service.Valid()
      modifies service
      ensures service.Valid()
      ensures resp.status == (if id in old(service.store) then OK else NOT_FOUND)
      ensures service.store == ConEstado(old(service.store), id, false)
      ensures resp.status == OK ==> resp.body == Some(service.store[id]) && !service.store[id].completada
    {
      resp := MarcarTarea(id, false);
    }
  }
}
