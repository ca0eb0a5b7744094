/** The list of products (`components/productos/ProductoLista.jsx`). */
module ListaProductos {
  import opened Base
  import opened Ui
  import opened ProductoEntidad
  import ItemProducto

  /** Loading wins over everything; a missing or empty list shows the empty
      message; otherwise one card per product, in order, under a header that
      counts them. `productos` is `None` when the prop is null or undefined. */
  function Render(productos: Option<seq<ProductoRecord>>, cargando: bool): (v: ListaVista<ItemProducto.VistaProducto>)
    ensures cargando ==> v == Cargando
    ensures !cargando && (productos.None? || productos.value == []) ==> v == Vacia
    ensures !cargando && productos.Some? && productos.value != [] ==>
              v.Items? && v.cantidad == |productos.value| && |v.items| == |productos.value| &&
              forall i :: 0 <= i < |productos.value| ==> v.items[i] == ItemProducto.Render(productos.value[i])
  {
    Lista(productos, cargando, ItemProducto.Render)
  }
}
