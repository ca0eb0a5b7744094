/** The product service (`service/ProductoService.java`) over the `productos` table. */
module ProductoServicio {
  import opened Base
  import opened ProductoEntidad
  import opened ProductoRepositorio
  import Store

  /** What `actualizarProducto` makes of the stored product `actual` through
      its five setters: name, description, price, stock and category come from
      `datos`, the id and the creation time stay. */
  function Actualizado(actual: ProductoRecord, datos: ProductoRecord): (r: ProductoRecord)
    ensures r.nombre == datos.nombre && r.descripcion == datos.descripcion
    ensures r.precio == datos.precio && r.stock == datos.stock && r.categoria == datos.categoria
    ensures r.id == actual.id && r.fechaCreacion == actual.fechaCreacion
    ensures Admisible(r) <==> Admisible(datos)
  {
    actual.(nombre := datos.nombre, descripcion := datos.descripcion, precio := datos.precio,
            stock := datos.stock, categoria := datos.categoria)
  }

  /** Updating with the data a product already has changes nothing. */
  lemma ActualizadoConSusDatos(p: ProductoRecord)
    ensures Actualizado(p, p) == p
  {
  }

  /** A second update with the same data changes nothing more. */
  lemma ActualizadoIdempotente(p: ProductoRecord, datos: ProductoRecord)
    ensures Actualizado(Actualizado(p, datos), datos) == Actualizado(p, datos)
  {
  }

  class ProductoService {
    /** The `productos` table, by id. */
    var store: map<int, ProductoRecord>
    /** The next value of the IDENTITY column. */
    var nextId: int

    /** Each row is stored under its own id, every id was generated, and
        every row meets the column constraints. */
    ghost predicate Valid()
      reads this
    {
      forall k :: k in store ==> k < nextId && store[k].id == Some(k) && Admisible(store[k])
    }

    constructor ()
      ensures Valid() && store == map[]
    {
      store := map[];
      nextId := 1;
    }

    /** `obtenerTodosLosProductos`: every stored product once. */
    method ObtenerTodosLosProductos() returns (productos: seq<ProductoRecord>, ghost ids: seq<int>)
      ensures Store.Enumerates(store, ids, productos)
      ensures Store.Lists(store, productos)
    {
      productos, ids := Store.ToList(store);
    }

    /** `obtenerProductoPorId`: present exactly when the id is stored. */
    function ObtenerProductoPorId(id: int): (r: Option<ProductoRecord>)
      reads this
      ensures r.Some? <==> id in store
      ensures r.Some? ==> r.value == store[id]
    {
      if id in store then Some(store[id]) else None
    }

    /** `crearProducto`: `save` inserts the product under a newly generated
        id, or throws, inserting nothing, when the row breaks a column
        constraint. */
    method CrearProducto(producto: ProductoRecord) returns (r: Outcome<ProductoRecord>)
      requires Valid()
      modifies this
      ensures Valid()
      ensures r.Success? <==> Admisible(producto)
      ensures old(nextId) <= nextId
      ensures r.Success? ==> r.value.id.Some? && old(nextId) <= r.value.id.value < nextId
      ensures r.Success? ==>
                r.value.id.Some? && r.value.id.value !in old(store) &&
                r.value == producto.(id := r.value.id) && store == old(store)[r.value.id.value := r.value]
      ensures r.Failure? ==> store == old(store)
    {
      if Admisible(producto) {
        var id := nextId;
        var nuevo := producto.(id := Some(id));
        store := store[id := nuevo];
        nextId := nextId + 1;
        r := Success(nuevo);
      } else {
        r := Failure;
      }
    }

    /** `actualizarProducto`: the stored product takes the five new fields; a
        missing id gives null and no save; `save` throws, changing nothing,
        when the updated row breaks a column constraint. */
    method ActualizarProducto(id: int, datos: ProductoRecord) returns (r: Outcome<Option<ProductoRecord>>)
      requires Valid()
      modifies this
      ensures Valid()
      ensures nextId == old(nextId)
      ensures r.Failure? <==> id in old(store) && !Admisible(datos)
      ensures id !in old(store) ==> r == Success(None)
      ensures r == Success(None) ==> id !in old(store)
      ensures r.Success? && r.value.Some? ==>
                r.value.value == Actualizado(old(store)[id], datos) &&
                store == old(store)[id := r.value.value]
      ensures !(r.Success? && r.value.Some?) ==> store == old(store)
    {
      var existente := ObtenerProductoPorId(id);
      if existente.Some? {
        var producto := Actualizado(existente.value, datos);
        if Admisible(producto) {
          store := store[id := producto];
          r := Success(Some(producto));
        } else {
          r := Failure;
        }
      } else {
        r := Success(None);
      }
    }

    /** `eliminarProducto`: true exactly when the id was stored; afterwards it is not. */
    method EliminarProducto(id: int) returns (eliminado: bool)
      requires Valid()
      modifies this
      ensures Valid()
      ensures nextId == old(nextId)
      ensures eliminado <==> id in old(store)
      ensures id !in store
      ensures store == old(store) - {id}
      ensures !eliminado ==> store == old(store)
    {
      if id in store {
        store := store - {id};
        eliminado := true;
      } else {
        eliminado := false;
      }
    }

    /** `buscarPorCategoria`: every product of that category once. */
    method BuscarPorCategoria(categoria: string) returns (productos: seq<ProductoRecord>, ghost ids: seq<int>)
      ensures Store.Enumerates(FindByCategoria(store, categoria), ids, productos)
      ensures Store.Lists(FindByCategoria(store, categoria), productos)
      ensures forall n :: 0 <= n < |productos| ==> productos[n].categoria == Some(categoria)
    {
      productos, ids := Store.ToList(FindByCategoria(store, categoria));
    }

    /** `buscarPorNombre`: every product whose name contains `nombre`, ignoring case, once. */
    method BuscarPorNombre(nombre: string) returns (productos: seq<ProductoRecord>, ghost ids: seq<int>)
      ensures Store.Enumerates(FindByNombreContainingIgnoreCase(store, nombre), ids, productos)
      ensures Store.Lists(FindByNombreContainingIgnoreCase(store, nombre), productos)
    {
      productos, ids := Store.ToList(FindByNombreContainingIgnoreCase(store, nombre));
    }

    /** `obtenerProductosConStock`: every product with at least `stockMinimo` units, once. */
    method ObtenerProductosConStock(stockMinimo: int) returns (productos: seq<ProductoRecord>, ghost ids: seq<int>)
      ensures Store.Enumerates(FindByStockGreaterThanEqual(store, stockMinimo), ids, productos)
      ensures Store.Lists(FindByStockGreaterThanEqual(store, stockMinimo), productos)
      ensures forall n :: 0 <= n < |productos| ==> productos[n].stock >= stockMinimo
    {
      productos, ids := Store.ToList(FindByStockGreaterThanEqual(store, stockMinimo));
    }
  }
}
