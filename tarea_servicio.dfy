/** The task service (`service/TareaService.java`) over the `tareas` table. */
module TareaServicio {
  import opened Base
  import opened TareaEntidad
  import Store

  /** What `actualizarTarea` makes of the stored task `actual` through its
      three setters: title, description and completion come from `datos`,
      the id and the creation time stay. */
  function Actualizada(actual: TareaRecord, datos: TareaRecord): (r: TareaRecord)
    ensures r.titulo == datos.titulo && r.descripcion == datos.descripcion
    ensures r.completada == datos.completada
    ensures r.id == actual.id && r.fechaCreacion == actual.fechaCreacion
    ensures Admisible(r) <==> Admisible(datos)
  {
    actual.(titulo := datos.titulo, descripcion := datos.descripcion, completada := datos.completada)
  }

  /** The table after the completion flag of task `id` is set to `c`; a
      missing id leaves it as it is. */
  function ConEstado(store: map<int, TareaRecord>, id: int, c: bool): (s: map<int, TareaRecord>)
    ensures s.Keys == store.Keys
    ensures id in store ==> s[id] == store[id].(completada := c)
    ensures forall k :: k in store && k != id ==> s[k] == store[k]
  {
    if id in store then store[id := store[id].(completada := c)] else store
  }

  /** Setting the same completion flag twice is setting it once. */
  lemma ConEstadoIdempotent(store: map<int, TareaRecord>, id: int, c: bool)
    ensures ConEstado(ConEstado(store, id, c), id, c) == ConEstado(store, id, c)
  {
  }

  /** Setting the flag back to the value it had restores the table. */
  lemma ConEstadoRestaura(store: map<int, TareaRecord>, id: int, c: bool)
    requires id in store
    ensures ConEstado(ConEstado(store, id, c), id, store[id].completada) == store
  {
    var s := ConEstado(ConEstado(store, id, c), id, store[id].completada);
    assert s.Keys == store.Keys;
    assert s[id] == store[id];
  }

  class TareaService {
    /** The `tareas` table, by id. */
    var store: map<int, TareaRecord>
    /** The next value of the IDENTITY column. */
    var nextId: int

    /** Each row is stored under its own id, every id was generated, and
        every row meets the column constraints. */
    ghost predicate Valid()
      reads this
    {
      forall k :: k in store ==> k < nextId && store[k].id == Some(k) && Admisible(store[k])
    }

    constructor ()
      ensures Valid() && store == map[]
    {
      store := map[];
      nextId := 1;
    }

    /** `obtenerTodasLasTareas`: every stored task once. */
    method ObtenerTodasLasTareas() returns (tareas: seq<TareaRecord>, ghost ids: seq<int>)
      ensures Store.Enumerates(store, ids, tareas)
      ensures Store.Lists(store, tareas)
    {
      tareas, ids := Store.ToList(store);
    }

    /** `obtenerTareaPorId`: present exactly when the id is stored. */
    function ObtenerTareaPorId(id: int): (r: Option<TareaRecord>)
      reads this
      ensures r.Some? <==> id in store
      ensures r.Some? ==> r.value == store[id]
    {
      if id in store then Some(store[id]) else None
    }

    /** `crearTarea`: `save` inserts the task under a newly generated id, or
        throws, inserting nothing, when the row breaks a column constraint. */
    method CrearTarea(tarea: TareaRecord) returns (r: Outcome<TareaRecord>)
      requires Valid()
      modifies this
      ensures Valid()
      ensures r.Success? <==> Admisible(tarea)
      ensures old(nextId) <= nextId
      ensures r.Success? ==> r.value.id.Some? && old(nextId) <= r.value.id.value < nextId
      ensures r.Success? ==>
                r.value.id.Some? && r.value.id.value !in old(store) &&
                r.value == tarea.(id := r.value.id) && store == old(store)[r.value.id.value := r.value]
      ensures r.Failure? ==> store == old(store)
    {
      if Admisible(tarea) {
        var id := nextId;
        var nueva := tarea.(id := Some(id));
        store := store[id := nueva];
        nextId := nextId + 1;
        r := Success(nueva);
      } else {
        r := Failure;
      }
    }

    /** `actualizarTarea`: the stored task takes the new title, description and
        completion flag; a missing id gives null and no save; `save` throws,
        changing nothing, when the updated row breaks a column constraint. */
    method ActualizarTarea(id: int, datos: TareaRecord) returns (r: Outcome<Option<TareaRecord>>)
      requires Valid()
      modifies this
      ensures Valid()
      ensures nextId == old(nextId)
      ensures r.Failure? <==> id in old(store) && !Admisible(datos)
      ensures id !in old(store) ==> r == Success(None)
      ensures r == Success(None) ==> id !in old(store)
      ensures r.Success? && r.value.Some? ==>
                r.value.value == Actualizada(old(store)[id], datos) &&
                store == old(store)[id := r.value.value]
      ensures !(r.Success? && r.value.Some?) ==> store == old(store)
    {
      var existente := ObtenerTareaPorId(id);
      if existente.Some? {
        var tarea := Actualizada(existente.value, datos);
        if Admisible(tarea) {
          store := store[id := tarea];
          r := Success(Some(tarea));
        } else {
          r := Failure;
        }
      } else {
        r := Success(None);
      }
    }

    /** `eliminarTarea`: true exactly when the id was stored; afterwards it is not. */
    method EliminarTarea(id: int) returns (eliminado: bool)
      requires Valid()
      modifies this
      ensures Valid()
      ensures nextId == old(nextId)
      ensures eliminado <==> id in old(store)
      ensures id !in store
      ensures store == old(store) - {id}
      ensures !eliminado ==> store == old(store)
    {
      if id in store {
        store := store - {id};
        eliminado := true;
      } else {
        eliminado := false;
      }
    }

    /** `cambiarEstadoTarea`: only the completion flag of the task changes; a
        missing id gives null. */
    method CambiarEstadoTarea(id: int, completada: bool) returns (r: Option<TareaRecord>)
      requires Valid()
      modifies this
      ensures Valid()
      ensures nextId == old(nextId)
      ensures r.Some? <==> id in old(store)
      ensures store == ConEstado(old(store), id, completada)
      ensures r.Some? ==> r.value == store[id]
    {
      var existente := ObtenerTareaPorId(id);
      if existente.Some? {
        var tarea := existente.value.(completada := completada);
        store := store[id := tarea];
        r := Some(tarea);
      } else {
        r := None;
      }
    }
  }

  /** The IDENTITY column never hands out an id twice: a task created after
      another one was created and deleted again gets a different id. */
  method IdsNoSeReutilizan(service: TareaService, a: TareaRecord, b: TareaRecord)
    returns (primera: Outcome<TareaRecord>, segunda: Outcome<TareaRecord>)
    requires service.Valid()
    modifies service
    ensures primera.Success? && segunda.Success? ==> primera.value.id != segunda.value.id
  {
    primera := service.CrearTarea(a);
    if primera.Success? {
      var _ := service.EliminarTarea(primera.value.id.value);
    }
    segunda := service.CrearTarea(b);
  }
}
