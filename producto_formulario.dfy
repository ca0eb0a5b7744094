/** The form that creates a product (`components/productos/ProductoFormulario.jsx`),
    with the input checks the edit form repeats. */
module FormularioProducto {
  import opened Base
  import opened Text
  import opened Ui
  import opened ProductoEntidad

  const NOMBRE_OBLIGATORIO := "❌ El nombre es obligatorio"
  const PRECIO_INVALIDO := "❌ El precio debe ser mayor a 0"
  const STOCK_NEGATIVO := "❌ El stock no puede ser negativo"
  const ERROR_CREAR := "❌ Error al crear el producto. Intenta nuevamente."

  /** The three input checks, in the order they run. */
  datatype ErrorValidacion = NombreObligatorio | PrecioInvalido | StockNegativo

  function Mensaje(e: ErrorValidacion): string {
    match e
    case NombreObligatorio => NOMBRE_OBLIGATORIO
    case PrecioInvalido => PRECIO_INVALIDO
    case StockNegativo => STOCK_NEGATIVO
  }

  /** The checks of `handleSubmit`, first failure wins: a blank name, then a
      missing or non-positive price, then a missing or negative stock. An
      empty number input is `None`. */
  function Validar(nombre: string, precio: Option<real>, stock: Option<int>): (r: Option<ErrorValidacion>)
    ensures r == Some(NombreObligatorio) <==> IsBlank(nombre)
    ensures r == Some(PrecioInvalido) <==> !IsBlank(nombre) && (precio.None? || precio.value <= 0.0)
    ensures r == Some(StockNegativo) <==>
              !IsBlank(nombre) && precio.Some? && precio.value > 0.0 && (stock.None? || stock.value < 0)
    ensures r == None <==>
              !IsBlank(nombre) && precio.Some? && precio.value > 0.0 && stock.Some? && stock.value >= 0
  {
    if Trim(nombre) == [] then Some(NombreObligatorio)
    else if precio.None? || precio.value <= 0.0 then Some(PrecioInvalido)
    else if stock.None? || stock.value < 0 then Some(StockNegativo)
    else None
  }

  /** The JSON body the product forms send. */
  datatype DatosProducto = DatosProducto(nombre: string, descripcion: string, precio: real, stock: int, categoria: string)

  /** The body built from fields that passed the checks: strings trimmed,
      numbers as parsed. */
  function Datos(nombre: string, descripcion: string, precio: Option<real>, stock: Option<int>, categoria: string): (d: DatosProducto)
    requires Validar(nombre, precio, stock) == None
    ensures d.nombre != [] && IsTrimmed(d.nombre) && IsTrimmed(d.descripcion) && IsTrimmed(d.categoria)
    ensures d.nombre == Trim(nombre) && d.descripcion == Trim(descripcion) && d.categoria == Trim(categoria)
    ensures d.precio > 0.0 && d.stock >= 0
    ensures Some(d.precio) == precio && Some(d.stock) == stock
  {
    DatosProducto(Trim(nombre), Trim(descripcion), precio.value, stock.value, Trim(categoria))
  }

  /** A body passes the checks again and building it anew changes nothing. */
  lemma DatosEstables(d: DatosProducto, nombre: string, descripcion: string, precio: Option<real>, stock: Option<int>, categoria: string)
    requires Validar(nombre, precio, stock) == None
    requires d == Datos(nombre, descripcion, precio, stock, categoria)
    ensures Validar(d.nombre, Some(d.precio), Some(d.stock)) == None
    ensures Datos(d.nombre, d.descripcion, Some(d.precio), Some(d.stock), d.categoria) == d
  {
    TrimIdempotent(nombre);
    TrimIdempotent(descripcion);
    TrimIdempotent(categoria);
  }

  /** The success toast of the create form, which names the new product as
      the template literal prints it (`null` for a missing name). */
  function MensajeCreado(nombre: Option<string>): (m: string)
    ensures Contains(m, Interpolar(nombre))
  {
    var inicio := "✅ Producto \"";
    var texto := inicio + Interpolar(nombre) + "\" creado exitosamente";
    assert OccursAt(texto, Interpolar(nombre), |inicio|);
    ContainsAt(texto, Interpolar(nombre));
    texto
  }

  class ProductoFormulario {
    var nombre: string
    var descripcion: string
    var precio: Option<real>
    var stock: Option<int>
    var categoria: string
    var cargando: bool

    /** Every field empty. */
    constructor ()
      ensures nombre == [] && descripcion == [] && precio == None && stock == None && categoria == []
      ensures !cargando
    {
      nombre, descripcion, precio, stock, categoria := [], [], None, None, [];
      cargando := false;
    }

    /** The synchronous part of `handleSubmit`: the first failed check is
        reported and nothing changes; otherwise the flag goes up and the
        request carries the normalised fields. */
    method HandleSubmit() returns (envio: Envio<DatosProducto>)
      modifies this
      ensures nombre == old(nombre) && descripcion == old(descripcion) && precio == old(precio)
      ensures stock == old(stock) && categoria == old(categoria)
      ensures Validar(nombre, precio, stock).Some? ==>
                envio == Rechazado(ToastError(Mensaje(Validar(nombre, precio, stock).value))) &&
                cargando == old(cargando)
      ensures Validar(nombre, precio, stock).None? ==>
                envio == Enviado(Datos(nombre, descripcion, precio, stock, categoria)) && cargando
    {
      var error := Validar(nombre, precio, stock);
      if error.Some? {
        envio := Rechazado(ToastError(Mensaje(error.value)));
        return;
      }
      cargando := true;
      envio := Enviado(Datos(nombre, descripcion, precio, stock, categoria));
    }

    /** Once the request settles: on success all five fields are cleared, a
        success toast names the product and the parent receives it; on
        failure the fields stay and an error toast is shown; the flag comes
        down. */
    method RecibirRespuesta(respuesta: Outcome<ProductoRecord>, hayCallback: bool)
      returns (salidas: seq<Salida<ProductoRecord>>)
      modifies this
      ensures !cargando
      ensures respuesta.Success? ==>
                nombre == [] && descripcion == [] && precio == None && stock == None && categoria == [] &&
                salidas == [Aviso(ToastExito(MensajeCreado(respuesta.value.nombre)))] +
                           (if hayCallback then [Callback(respuesta.value)] else [])
      ensures respuesta.Failure? ==>
                nombre == old(nombre) && descripcion == old(descripcion) && precio == old(precio) &&
                stock == old(stock) && categoria == old(categoria) &&
                salidas == [Aviso(ToastError(ERROR_CREAR))]
    {
      match respuesta {
        case Success(nuevo) =>
          nombre, descripcion, precio, stock, categoria := [], [], None, None, [];
          salidas := [Aviso(ToastExito(MensajeCreado(nuevo.nombre)))];
          if hayCallback {
            salidas := salidas + [Callback(nuevo)];
          }
        case Failure =>
          salidas := [Aviso(ToastError(ERROR_CREAR))];
      }
      cargando := false;
    }

    /** The five inputs and the button are disabled exactly while a request is pending. */
    function Vista(): (c: Controles)
      reads this
      ensures c.deshabilitado <==> cargando
      ensures c.etiqueta == if cargando then "Creando..." else "Crear Producto"
    {
      Controles(cargando, if cargando then "Creando..." else "Crear Producto")
    }
  }
}
