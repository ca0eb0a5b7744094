/** The REST endpoints under `/api/productos` (`controller/ProductoController.java`). */
module ProductoControlador {
  import opened Base
  import opened Http
  import opened ProductoEntidad
  import opened ProductoRepositorio
  import opened ProductoServicio
  import Store

  class ProductoController {
    const service: ProductoService

    constructor (service: ProductoService)
      ensures this.service == service
    {
      this.service := service;
    }

    /** GET /api/productos: 200 with every product once. */
    method ObtenerTodosLosProductos() returns (resp: Response<seq<ProductoRecord>>, ghost ids: seq<int>)
      ensures resp.status == OK && resp.body.Some?
      ensures Store.Enumerates(service.store, ids, resp.body.value)
      ensures Store.Lists(service.store, resp.body.value)
    {
      var productos;
      productos, ids := service.ObtenerTodosLosProductos();
      resp := Ok(productos);
    }

    /** GET /api/productos/{id}: 200 with the product, or 404 when the id is unknown. */
    method ObtenerProductoPorId(id: int) returns (resp: Response<ProductoRecord>)
      ensures resp.status == OK <==> id in service.store
      ensures resp.status == NOT_FOUND <==> id !in service.store
      ensures resp.status == OK ==> resp.body == Some(service.store[id])
      ensures resp.status == NOT_FOUND ==> resp.body == None
    {
      var producto := service.ObtenerProductoPorId(id);
      resp := OkOrNotFound(producto);
    }

    /** POST /api/productos: 201 with the product saved under a new id; a body
        that breaks a column constraint makes `save` throw, answered with 500
        and no change. */
    method CrearProducto(producto: ProductoRecord) returns (resp: Response<ProductoRecord>)
      requires service.Valid()
      modifies service
      ensures service.Valid()
      ensures resp.status == (if Admisible(producto) then CREATED else INTERNAL_SERVER_ERROR)
      ensures resp.status == CREATED ==>
                resp.body.Some? &&
                (var p := resp.body.value;
                 p.id.Some? && p.id.value !in old(service.store) && p == producto.(id := p.id) &&
                 service.store == old(service.store)[p.id.value := p])
      ensures resp.status == INTERNAL_SERVER_ERROR ==> resp.body == None && service.store == old(service.store)
    {
      var nuevo := service.CrearProducto(producto);
      match nuevo {
        case Success(v) => resp := Created(v);
        case Failure => resp := ServerError();
      }
    }

    /** PUT /api/productos/{id}: 200 with the updated product, or 404 and no change. */
    method ActualizarProducto(id: int, producto: ProductoRecord) returns (resp: Response<ProductoRecord>)
      requires service.Valid()
      modifies service
      ensures service.Valid()
      ensures resp.status ==
                if id !in old(service.store) then NOT_FOUND
                else if Admisible(producto) then OK
                else INTERNAL_SERVER_ERROR
      ensures resp.status == OK ==>
                resp.body == Some(Actualizado(old(service.store)[id], producto)) &&
                service.store == old(service.store)[id := resp.body.value]
      ensures resp.status != OK ==> resp.body == None && service.store == old(service.store)
    {
      var actualizado := service.ActualizarProducto(id, producto);
      resp := OkOrNotFoundOrError(actualizado);
    }

    /** DELETE /api/productos/{id}: 204 when the product was deleted, 404 when it did not exist. */
    method EliminarProducto(id: int) returns (resp: Response<()>)
      requires service.Valid()
      modifies service
      ensures service.Valid()
      ensures resp.status == (if id in old(service.store) then NO_CONTENT else NOT_FOUND)
      ensures resp.body == None
      ensures service.store == old(service.store) - {id}
    {
      var eliminado := service.EliminarProducto(id);
      resp := NoContentOrNotFound(eliminado);
    }

    /** GET /api/productos/buscar?nombre=: 200 with every product whose name
        contains the text, ignoring case. */
    method BuscarPorNombre(nombre: string) returns (resp: Response<seq<ProductoRecord>>, ghost ids: seq<int>)
      ensures resp.status == OK && resp.body.Some?
      ensures Store.Enumerates(FindByNombreContainingIgnoreCase(service.store, nombre), ids, resp.body.value)
      ensures Store.Lists(FindByNombreContainingIgnoreCase(service.store, nombre), resp.body.value)
    {
      var productos;
      productos, ids := service.BuscarPorNombre(nombre);
      resp := Ok(productos);
    }

    /** GET /api/productos/categoria/{categoria}: 200 with every product of the category. */
    method ObtenerPorCategoria(categoria: string) returns (resp: Response<seq<ProductoRecord>>, ghost ids: seq<int>)
      ensures resp.status == OK && resp.body.Some?
      ensures Store.Enumerates(FindByCategoria(service.store, categoria), ids, resp.body.value)
      ensures Store.Lists(FindByCategoria(service.store, categoria), resp.body.value)
    {
      var productos;
      productos, ids := service.BuscarPorCategoria(categoria);
      resp := Ok(productos);
    }

    /** GET /api/productos/stock/{minimo}: 200 with every product with at least `minimo` units. */
    method ObtenerConStock(minimo: int) returns (resp: Response<seq<ProductoRecord>>, ghost ids: seq<int>)
      ensures resp.status == OK && resp.body.Some?
      ensures Store.Enumerates(FindByStockGreaterThanEqual(service.store, minimo), ids, resp.body.value)
      ensures Store.Lists(FindByStockGreaterThanEqual(service.store, minimo), resp.body.value)
    {
      var productos;
      productos, ids := service.ObtenerProductosConStock(minimo);
      resp := Ok(productos);
    }
  }
}
