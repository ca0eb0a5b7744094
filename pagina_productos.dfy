/** The page that owns the list of productos and its loading flag (`pages/ProductosPage.jsx`). */
module ProductosPagina {
  import opened Base
  import opened ProductoEntidad
  import opened Ui
  import opened Listas

  /** The `id` of a producto, as the page's handlers compare it. */
  function IdDe(r: ProductoRecord): Option<int> { r.id }

  const ERROR_CARGA := "Error al cargar los productos"

  class ProductosPage {
    var productos: seq<ProductoRecord>
    var cargando: bool

    /** `useState([])` and `useState(false)`. */
    constructor ()
      ensures productos == [] && !cargando
    {
      productos := [];
      cargando := false;
    }

    /** The synchronous start of `cargar...`: the flag goes up before the request. */
    method CargarProductos()
      modifies this
      ensures cargando && productos == old(productos)
    {
      cargando := true;
    }

    /** The end of `cargar...`: the list is replaced by the fetched one, or
        kept with an alert on failure; the flag comes down either way. */
    method CargaTerminada(datos: Outcome<seq<ProductoRecord>>) returns (aviso: Option<Notice>)
      modifies this
      ensures !cargando
      ensures datos.Success? ==> productos == datos.value && aviso == None
      ensures datos.Failure? ==> productos == old(productos) && aviso == Some(Alert(ERROR_CARGA))
    {
      match datos {
        case Success(v) =>
          productos := v;
          aviso := None;
        case Failure =>
          aviso := Some(Alert(ERROR_CARGA));
      }
      cargando := false;
    }

    /** Appends the new producto: it is last and the earlier ones are untouched. */
    method HandleProductoCreado(nuevo: ProductoRecord)
      modifies this
      ensures productos == old(productos) + [nuevo]
      ensures cargando == old(cargando)
    {
      productos := productos + [nuevo];
    }

    /** Replaces every element with the same id as `actualizado`. */
    method HandleProductoActualizado(actualizado: ProductoRecord)
      modifies this
      ensures productos == ReplaceByKey(old(productos), IdDe, actualizado)
      ensures cargando == old(cargando)
    {
      productos := ReplaceByKey(productos, IdDe, actualizado);
    }

    /** Drops every element with id `id`. */
    method HandleProductoEliminado(id: Option<int>)
      modifies this
      ensures productos == RemoveByKey(old(productos), IdDe, id)
      ensures cargando == old(cargando)
    {
      productos := RemoveByKey(productos, IdDe, id);
    }
  }
}
