/** The form that edits a product
    (`components/productos/ProductoFormularioEditar.jsx`). */
module FormularioEditarProducto {
  import opened Base
  import opened Text
  import opened Ui
  import opened ProductoEntidad
  import opened FormularioProducto

  const ERROR_ACTUALIZAR := "❌ Error al actualizar el producto. Intenta nuevamente."

  /** `productoService.actualizar(id, datos)`. */
  datatype Actualizacion = Actualizacion(id: Option<int>, datos: DatosProducto)

  /** The success toast of the edit form, which names the product as the
      template literal prints it (`null` for a missing name). */
  function MensajeActualizado(nombre: Option<string>): (m: string)
    ensures Contains(m, Interpolar(nombre))
  {
    var inicio := "✅ Producto \"";
    var texto := inicio + Interpolar(nombre) + "\" actualizado exitosamente";
    assert OccursAt(texto, Interpolar(nombre), |inicio|);
    ContainsAt(texto, Interpolar(nombre));
    texto
  }

  class ProductoFormularioEditar {
    /** The `producto` prop. */
    var producto: ProductoRecord
    /** Starts as `producto.nombre`, which may be null. */
    var nombre: Option<string>
    var descripcion: string
    var precio: Option<real>
    var stock: Option<int>
    var categoria: string
    var cargando: bool

    /** The fields start from the product: missing description and category
        become '', price and stock are shown as numbers. The component reads
        `producto.precio.toString()` while rendering, so it needs a price. */
    constructor (producto: ProductoRecord)
      requires producto.precio.Some?
      ensures this.producto == producto && nombre == producto.nombre
      ensures descripcion == OrEmpty(producto.descripcion) && categoria == OrEmpty(producto.categoria)
      ensures precio == producto.precio && stock == Some(producto.stock) && !cargando
    {
      this.producto := producto;
      nombre := producto.nombre;
      descripcion := OrEmpty(producto.descripcion);
      precio := Some(producto.precio.value);
      stock := Some(producto.stock);
      categoria := OrEmpty(producto.categoria);
      cargando := false;
    }

    /** The effect on a new `producto` prop: the fields follow it. */
    method Resincronizar(producto: ProductoRecord)
      requires producto.precio.Some?
      modifies this
      ensures this.producto == producto && nombre == producto.nombre
      ensures descripcion == OrEmpty(producto.descripcion) && categoria == OrEmpty(producto.categoria)
      ensures precio == producto.precio && stock == Some(producto.stock) && cargando == old(cargando)
    {
      this.producto := producto;
      nombre := producto.nombre;
      descripcion := OrEmpty(producto.descripcion);
      precio := Some(producto.precio.value);
      stock := Some(producto.stock);
      categoria := OrEmpty(producto.categoria);
    }

    /** The synchronous part of `handleSubmit`. A null name throws before
        anything happens; otherwise the same checks as the create form run in
        the same order; if they pass the flag goes up and the update targets
        `producto.id` with the normalised fields. */
    method HandleSubmit() returns (envio: Envio<Actualizacion>)
      modifies this
      ensures producto == old(producto) && nombre == old(nombre) && descripcion == old(descripcion)
      ensures precio == old(precio) && stock == old(stock) && categoria == old(categoria)
      ensures nombre.None? ==> envio == ErrorDeTipo && cargando == old(cargando)
      ensures nombre.Some? && Validar(nombre.value, precio, stock).Some? ==>
                envio == Rechazado(ToastError(Mensaje(Validar(nombre.value, precio, stock).value))) &&
                cargando == old(cargando)
      ensures nombre.Some? && Validar(nombre.value, precio, stock).None? ==>
                envio == Enviado(Actualizacion(producto.id, Datos(nombre.value, descripcion, precio, stock, categoria))) &&
                cargando
    {
      if nombre.None? {
        envio := ErrorDeTipo;
        return;
      }
      var error := Validar(nombre.value, precio, stock);
      if error.Some? {
        envio := Rechazado(ToastError(Mensaje(error.value)));
        return;
      }
      cargando := true;
      envio := Enviado(Actualizacion(producto.id, Datos(nombre.value, descripcion, precio, stock, categoria)));
    }

    /** Once the update settles: a success toast names the product and the
        parent receives it, or an error toast is shown; the fields are never
        cleared; the flag comes down. */
    method RecibirRespuesta(respuesta: Outcome<ProductoRecord>, hayCallback: bool)
      returns (salidas: seq<Salida<ProductoRecord>>)
      modifies this
      ensures !cargando
      ensures producto == old(producto) && nombre == old(nombre) && descripcion == old(descripcion)
      ensures precio == old(precio) && stock == old(stock) && categoria == old(categoria)
      ensures respuesta.Success? ==>
                salidas == [Aviso(ToastExito(MensajeActualizado(respuesta.value.nombre)))] +
                           (if hayCallback then [Callback(respuesta.value)] else [])
      ensures respuesta.Failure? ==> salidas == [Aviso(ToastError(ERROR_ACTUALIZAR))]
    {
      match respuesta {
        case Success(actualizado) =>
          salidas := [Aviso(ToastExito(MensajeActualizado(actualizado.nombre)))];
          if hayCallback {
            salidas := salidas + [Callback(actualizado)];
          }
        case Failure =>
          salidas := [Aviso(ToastError(ERROR_ACTUALIZAR))];
      }
      cargando := false;
    }

    /** The inputs and both buttons are disabled exactly while the update is pending. */
    function Vista(): (c: Controles)
      reads this
      ensures c.deshabilitado <==> cargando
      ensures c.etiqueta == if cargando then "Actualizando..." else "Guardar Cambios"
    {
      Controles(cargando, if cargando then "Actualizando..." else "Guardar Cambios")
    }
  }
}
