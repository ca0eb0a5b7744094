/** The product entity of the backend (`model/Producto.java`). */
module ProductoEntidad {
  import opened Base

  /** The state of a product as a value: a row of the `productos` table, and the
      JSON object the REST API and the browser exchange. The price is a `real`
      standing for the source's `Double`. */
  datatype ProductoRecord = ProductoRecord(
    id: Option<int>,
    nombre: Option<string>,
    descripcion: Option<string>,
    precio: Option<real>,
    stock: int,
    categoria: Option<string>,
    fechaCreacion: Timestamp)

  /** Column lengths of the `productos` table. */
  const NOMBRE_MAX := 100
  const DESCRIPCION_MAX := 500
  const CATEGORIA_MAX := 50

  /** A row the `productos` table accepts: name and price are NOT NULL, the
      name at most 100 characters long, a description at most 500 and a
      category at most 50. The other NOT NULL columns, `stock` and
      `fechaCreacion`, are never null here. */
  predicate Admisible(p: ProductoRecord) {
    && p.nombre.Some? && |p.nombre.value| <= NOMBRE_MAX
    && (p.descripcion.Some? ==> |p.descripcion.value| <= DESCRIPCION_MAX)
    && p.precio.Some?
    && (p.categoria.Some? ==> |p.categoria.value| <= CATEGORIA_MAX)
  }

  /** The JPA entity: private fields assigned by the constructors and changed in
      place by the setters. Each getter is a read of the corresponding field. */
  class Producto {
    var id: Option<int>
    var nombre: Option<string>
    var descripcion: Option<string>
    var precio: Option<real>
    var stock: int
    var categoria: Option<string>
    var fechaCreacion: Timestamp

    function Row(): ProductoRecord
      reads this
    {
      ProductoRecord(id, nombre, descripcion, precio, stock, categoria, fechaCreacion)
    }

    /** The no-argument constructor; `now` is the clock reading. */
    constructor Vacio(now: Timestamp)
      ensures Row() == ProductoRecord(None, None, None, None, 0, None, now)
    {
      id, nombre, descripcion, precio := None, None, None, None;
      stock := 0;
      categoria := None;
      fechaCreacion := now;
    }

    /** The five-argument constructor. */
    constructor (nombre: Option<string>, descripcion: Option<string>, precio: Option<real>,
                 stock: int, categoria: Option<string>, now: Timestamp)
      ensures Row() == ProductoRecord(None, nombre, descripcion, precio, stock, categoria, now)
    {
      this.id := None;
      this.nombre := nombre;
      this.descripcion := descripcion;
      this.precio := precio;
      this.stock := stock;
      this.categoria := categoria;
      this.fechaCreacion := now;
    }

    method SetId(id: Option<int>)
      modifies this
      ensures this.id == id
      ensures Row() == old(Row()).(id := id)
    {
      this.id := id;
    }

    method SetNombre(nombre: Option<string>)
      modifies this
      ensures this.nombre == nombre
      ensures Row() == old(Row()).(nombre := nombre)
    {
      this.nombre := nombre;
    }

    method SetDescripcion(descripcion: Option<string>)
      modifies this
      ensures this.descripcion == descripcion
      ensures Row() == old(Row()).(descripcion := descripcion)
    {
      this.descripcion := descripcion;
    }

    method SetPrecio(precio: Option<real>)
      modifies this
      ensures this.precio == precio
      ensures Row() == old(Row()).(precio := precio)
    {
      this.precio := precio;
    }

    method SetStock(stock: int)
      modifies this
      ensures this.stock == stock
      ensures Row() == old(Row()).(stock := stock)
    {
      this.stock := stock;
    }

    method SetCategoria(categoria: Option<string>)
      modifies this
      ensures this.categoria == categoria
      ensures Row() == old(Row()).(categoria := categoria)
    {
      this.categoria := categoria;
    }

    method SetFechaCreacion(fechaCreacion: Timestamp)
      modifies this
      ensures this.fechaCreacion == fechaCreacion
      ensures Row() == old(Row()).(fechaCreacion := fechaCreacion)
    {
      this.fechaCreacion := fechaCreacion;
    }
  }
}
