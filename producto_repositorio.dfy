/** The derived queries of `repository/ProductoRepository.java`, each the
    part of the `productos` table whose rows satisfy the query's condition. */
module ProductoRepositorio {
  import opened Base
  import opened ProductoEntidad
  import Text

  /** `findByCategoria`: rows whose category equals `categoria` (a row with
      no category never matches). */
  function FindByCategoria(store: map<int, ProductoRecord>, categoria: string): (r: map<int, ProductoRecord>)
    ensures forall k :: k in r <==> k in store && store[k].categoria == Some(categoria)
    ensures forall k :: k in r ==> r[k] == store[k]
  {
    map k | k in store && store[k].categoria == Some(categoria) :: store[k]
  }

  /** `findByNombreContainingIgnoreCase`: rows whose name contains `nombre`,
      ignoring case (a row with no name never matches). */
  function FindByNombreContainingIgnoreCase(store: map<int, ProductoRecord>, nombre: string): (r: map<int, ProductoRecord>)
    ensures forall k :: k in r <==>
              k in store && store[k].nombre.Some? && Text.ContainsIgnoringCase(store[k].nombre.value, nombre)
    ensures forall k :: k in r ==> r[k] == store[k]
  {
    map k | k in store && store[k].nombre.Some? && Text.ContainsIgnoringCase(store[k].nombre.value, nombre) :: store[k]
  }

  /** `findByStockGreaterThanEqual`: rows with at least `stock` units. */
  function FindByStockGreaterThanEqual(store: map<int, ProductoRecord>, stock: int): (r: map<int, ProductoRecord>)
    ensures forall k :: k in r <==> k in store && store[k].stock >= stock
    ensures forall k :: k in r ==> r[k] == store[k]
  {
    map k | k in store && store[k].stock >= stock :: store[k]
  }

  /** A product whose name contains the search text verbatim is found. */
  lemma BusquedaEncuentraCoincidenciaExacta(store: map<int, ProductoRecord>, nombre: string, k: int)
    requires k in store && store[k].nombre.Some? && Text.Contains(store[k].nombre.value, nombre)
    ensures k in FindByNombreContainingIgnoreCase(store, nombre)
  {
    Text.ContainsMatchesIgnoringCase(store[k].nombre.value, nombre);
  }

  /** The search ignores the case of the search text. */
  lemma BusquedaIgnoraMayusculas(store: map<int, ProductoRecord>, nombre: string)
    ensures FindByNombreContainingIgnoreCase(store, Text.ToLower(nombre)) ==
            FindByNombreContainingIgnoreCase(store, nombre)
  {
    Text.ToLowerIdempotent(nombre);
  }

  /** Raising the stock threshold can only drop products. */
  lemma StockMonotono(store: map<int, ProductoRecord>, menor: int, mayor: int)
    requires menor <= mayor
    ensures FindByStockGreaterThanEqual(store, mayor).Keys <= FindByStockGreaterThanEqual(store, menor).Keys
  {
  }

  /** An empty search text matches every product that has a name. */
  lemma BusquedaVaciaEncuentraTodos(store: map<int, ProductoRecord>, k: int)
    requires k in store && store[k].nombre.Some?
    ensures k in FindByNombreContainingIgnoreCase(store, [])
  {
    BusquedaEncuentraCoincidenciaExacta(store, [], k);
  }
}
