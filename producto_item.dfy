/** One product in the list, with its delete action
    (`components/productos/ProductoItem.jsx`). */
module ItemProducto {
  import opened Base
  import opened Text
  import opened Ui
  import opened ProductoEntidad

  const ERROR_ELIMINAR := "Error al eliminar el producto"
  /** Below this many units the stock is shown as low. */
  const STOCK_BAJO := 10

  /** What the delete handler does, in order. */
  datatype Efecto = LlamarEliminar(id: Option<int>) | NotificarEliminado(id: Option<int>) | Avisar(aviso: Notice)

  /** `handleEliminar`: without confirmation nothing happens; with it, one
      delete request, then the parent learns the id on success or an alert
      is raised on failure. */
  function HandleEliminar(producto: ProductoRecord, confirmado: bool, respuesta: Outcome<()>, hayCallback: bool): (r: seq<Efecto>)
    ensures !confirmado ==> r == []
    ensures confirmado ==> |r| >= 1 && r[0] == LlamarEliminar(producto.id)
    ensures forall i :: 1 <= i < |r| ==> !r[i].LlamarEliminar?
    ensures NotificarEliminado(producto.id) in r <==> confirmado && respuesta.Success? && hayCallback
    ensures forall i :: 0 <= i < |r| && r[i].NotificarEliminado? ==> r[i].id == producto.id
    ensures confirmado && respuesta.Success? ==>
              r == [LlamarEliminar(producto.id)] + (if hayCallback then [NotificarEliminado(producto.id)] else [])
    ensures confirmado && respuesta.Failure? ==> r == [LlamarEliminar(producto.id), Avisar(Alert(ERROR_ELIMINAR))]
  {
    if !confirmado then []
    else
      match respuesta
      case Success(_) => [LlamarEliminar(producto.id)] + (if hayCallback then [NotificarEliminado(producto.id)] else [])
      case Failure => [LlamarEliminar(producto.id), Avisar(Alert(ERROR_ELIMINAR))]
  }

  /** `tieneStockBajo`: the stock is low exactly below ten units. */
  function TieneStockBajo(producto: ProductoRecord): (b: bool)
    ensures b <==> producto.stock < 10
  {
    producto.stock < STOCK_BAJO
  }

  /** The card of a product. */
  datatype VistaProducto = VistaProducto(nombre: string, categoria: Option<string>, descripcion: Option<string>,
                                         stock: int, stockBajo: bool)

  /** The heading is the name, empty for a null one as React prints it; the
      category badge and the description paragraph appear only for non-empty
      values; the stock is marked low below ten units. */
  function Render(producto: ProductoRecord): (v: VistaProducto)
    ensures producto.nombre.Some? ==> v.nombre == producto.nombre.value
    ensures producto.nombre.None? ==> v.nombre == ""
    ensures v.categoria.Some? <==> Truthy(producto.categoria)
    ensures v.categoria.Some? ==> v.categoria.value == producto.categoria.value
    ensures v.descripcion.Some? <==> Truthy(producto.descripcion)
    ensures v.descripcion.Some? ==> v.descripcion.value == producto.descripcion.value
    ensures v.stock == producto.stock
    ensures v.stockBajo <==> producto.stock < 10
  {
    VistaProducto(OrEmpty(producto.nombre),
                  if Truthy(producto.categoria) then producto.categoria else None,
                  if Truthy(producto.descripcion) then producto.descripcion else None,
                  producto.stock,
                  TieneStockBajo(producto))
  }
}
