# Tareas y Productos — a verified model

This project models, in Dafny, the core of a small teaching application for
tasks (`Tarea`) and products (`Producto`). It has two halves.

The Spring Boot back end:
- two JPA entities;
- two services over their tables;
- the three derived queries of the product repository;
- two REST controllers, which turn every service outcome into an HTTP status (200, 201, 204 or 404, or 500 when `save` throws).

The React front end:
- two pages that own a list and a loading flag;
- four forms (create and edit, for each resource);
- the item cards and the list components;
- two modal dialogs.

How the model is built:
- **Entities.** Each entity is a class with its fields, both constructors and its setters. `Row()` reads an object's state as a value (`TareaRecord`, `ProductoRecord`).
- **Services.** Each service is a class that owns its table as `map<int, Record>` plus the next generated id. `Valid()` says every row sits under its own id and meets the column constraints of its table (`Admisible`).
- **Repository queries.** These are filters over that map. "Containing, ignoring case" is ASCII lower-casing followed by a substring test.
- **Controllers.** These are classes over an injected service. Each handler's contract gives the status, the body and the table afterwards.
- **Network calls.** Every call the front end makes is an outcome `Success(value) | Failure`. The client throws on any non-2xx status, so that becomes `Failure`.
- **Asynchronous handlers.** The pages and forms have two steps:
  - the synchronous start raises the loading flag and returns the request, or a rejection;
  - `CargaTerminada` / `RecibirRespuesta` takes the outcome, settles the state and lowers the flag.
- **Stateless handlers.** The item and modal handlers return, in order, the requests, parent callbacks and notices they produce.
- **Rendering.** Each component's rendering is a function returning a small view value.

Main properties proved:
- **Back end:**
  - creation uses a fresh id;
  - a row that breaks a NOT NULL or length constraint of its table is refused with 500 and leaves the table unchanged;
  - update and delete on a missing id leave the table unchanged;
  - update and delete touch no other row;
  - update copies exactly the mutable fields;
  - the query results are exactly the matching rows;
  - `completar` is idempotent, and undoing it restores the table.
- **Pages:** replace-by-id keeps length and order and swaps only the matching items; remove-by-id drops exactly the matching items and keeps the rest in order (`RemoveConcat`). An unknown id is a no-op.
- **Forms:**
  - the validation order is fixed, and the first failure wins;
  - a rejected submit changes nothing;
  - the payload is normalised, and normalising it again changes nothing;
  - the create forms clear their fields only on success;
  - the loading flag always ends down.
- **Items, lists and modals:**
  - the toggle makes exactly one request, and picks it by the task's state;
  - delete runs only after confirmation;
  - loading beats empty, and there is one card per element, in order;
  - modals call `onConfirm` before `onClose`;
  - only a click on the backdrop itself closes a modal;
  - the close button calls `onClose` once, even though its click bubbles to the backdrop.

## Model

| member | source | states |
|---|---|---|
| TareaEntidad.Tarea.Vacia | backend/src/main/java/com/aprendizaje/backend/model/Tarea.java:51-54 | a new task is not completed, has no id, title or description, and carries the creation time |
| TareaEntidad.Tarea.constructor | backend/src/main/java/com/aprendizaje/backend/model/Tarea.java:59-64 | stores exactly the given title and description, not completed, no id |
| TareaEntidad.Tarea.SetId | backend/src/main/java/com/aprendizaje/backend/model/Tarea.java:80-82 | the id reads back as set; every other field is unchanged |
| TareaEntidad.Tarea.SetTitulo | backend/src/main/java/com/aprendizaje/backend/model/Tarea.java:96-98 | the title reads back as set; every other field is unchanged |
| TareaEntidad.Tarea.SetDescripcion | backend/src/main/java/com/aprendizaje/backend/model/Tarea.java:112-114 | the description reads back as set; every other field is unchanged |
| TareaEntidad.Tarea.SetCompletada | backend/src/main/java/com/aprendizaje/backend/model/Tarea.java:128-130 | the flag reads back as set; every other field is unchanged |
| TareaEntidad.Tarea.SetFechaCreacion | backend/src/main/java/com/aprendizaje/backend/model/Tarea.java:144-146 | the creation time reads back as set; every other field is unchanged |
| ProductoEntidad.Producto.Vacio | backend/src/main/java/com/aprendizaje/backend/model/Producto.java:63-66 | a new product has stock 0 and no id, name, description, price or category |
| ProductoEntidad.Producto.constructor | backend/src/main/java/com/aprendizaje/backend/model/Producto.java:71-78 | stores exactly the five given values, no id |
| ProductoEntidad.Producto.SetId | backend/src/main/java/com/aprendizaje/backend/model/Producto.java:94-96 | the id reads back as set; every other field is unchanged |
| ProductoEntidad.Producto.SetNombre | backend/src/main/java/com/aprendizaje/backend/model/Producto.java:110-112 | the name reads back as set; every other field is unchanged |
| ProductoEntidad.Producto.SetDescripcion | backend/src/main/java/com/aprendizaje/backend/model/Producto.java:126-128 | the description reads back as set; every other field is unchanged |
| ProductoEntidad.Producto.SetPrecio | backend/src/main/java/com/aprendizaje/backend/model/Producto.java:142-144 | the price reads back as set; every other field is unchanged |
| ProductoEntidad.Producto.SetStock | backend/src/main/java/com/aprendizaje/backend/model/Producto.java:158-160 | the stock reads back as set; every other field is unchanged |
| ProductoEntidad.Producto.SetCategoria | backend/src/main/java/com/aprendizaje/backend/model/Producto.java:174-176 | the category reads back as set; every other field is unchanged |
| ProductoEntidad.Producto.SetFechaCreacion | backend/src/main/java/com/aprendizaje/backend/model/Producto.java:190-192 | the creation time reads back as set; every other field is unchanged |
| Store.ToList | backend/src/main/java/com/aprendizaje/backend/service/TareaService.java:29-32 | `findAll`: lists every row of the table exactly once, with no duplicates; the list is as long as the table, holds only stored rows and holds every one of them |
| Store.EnumeratesLists | backend/src/main/java/com/aprendizaje/backend/service/TareaService.java:29-32 | a list that enumerates a table id by id has the table's size and holds exactly its rows |
| Http.OkOrNotFound | backend/src/main/java/com/aprendizaje/backend/controller/TareaController.java:52-53 | 200 with the body exactly when there is one, otherwise 404 with no body |
| Http.OkOrNotFoundOrError | backend/src/main/java/com/aprendizaje/backend/controller/TareaController.java:79-87 | a `save` that threw gives 500, a missing row 404, an updated row 200; the body is the row exactly in the 200 case |
| Http.NoContentOrNotFound | backend/src/main/java/com/aprendizaje/backend/controller/TareaController.java:102-106 | 204 exactly when something was deleted, otherwise 404; never a body |
| TareaServicio.Actualizada | backend/src/main/java/com/aprendizaje/backend/service/TareaService.java:66-69 | title, description and completion come from the new data; id and creation time stay; the result meets the column constraints exactly when the new data does |
| TareaServicio.ConEstado | backend/src/main/java/com/aprendizaje/backend/service/TareaService.java:101-116 | only the completion flag of that task changes; same ids; a missing id changes nothing |
| TareaServicio.ConEstadoIdempotent | backend/src/main/java/com/aprendizaje/backend/controller/TareaController.java:119-125 | setting the same completion flag twice leaves the table as setting it once |
| TareaServicio.ConEstadoRestaura | backend/src/main/java/com/aprendizaje/backend/controller/TareaController.java:114-151 | setting the flag back to its previous value restores the table |
| TareaServicio.TareaService.constructor | backend/src/main/java/com/aprendizaje/backend/service/TareaService.java:22-23 | the service starts over an empty, well-formed table |
| TareaServicio.TareaService.ObtenerTodasLasTareas | backend/src/main/java/com/aprendizaje/backend/service/TareaService.java:29-32 | returns every stored task exactly once |
| TareaServicio.TareaService.ObtenerTareaPorId | backend/src/main/java/com/aprendizaje/backend/service/TareaService.java:39-42 | present exactly when the id is stored, and then it is that row |
| TareaServicio.TareaService.CrearTarea | backend/src/main/java/com/aprendizaje/backend/service/TareaService.java:49-52 | a task with a title of at most 100 characters and a description of at most 500 is saved under an id no stored row has and above every id handed out before and returned, the other rows staying; any other task fails, as `save` does against the NOT NULL and length columns of Tarea.java:27-34, and the table is unchanged |
| TareaServicio.TareaService.ActualizarTarea | backend/src/main/java/com/aprendizaje/backend/service/TareaService.java:60-77 | null and an unchanged table for a missing id; a failure and an unchanged table when the new title or description breaks a column constraint; otherwise only that row changes, as `Actualizada` says; no id is consumed |
| TareaServicio.TareaService.EliminarTarea | backend/src/main/java/com/aprendizaje/backend/service/TareaService.java:84-93 | true exactly when the id existed; afterwards it is gone and nothing else is; false changes nothing; no id is consumed |
| TareaServicio.TareaService.CambiarEstadoTarea | backend/src/main/java/com/aprendizaje/backend/service/TareaService.java:101-116 | the table becomes `ConEstado`; null exactly for a missing id; no id is consumed |
| TareaServicio.IdsNoSeReutilizan | backend/src/main/java/com/aprendizaje/backend/model/Tarea.java:19-21 | a task created after another was created and deleted gets a different id: the IDENTITY column never reuses an id |
| ProductoRepositorio.FindByCategoria | backend/src/main/java/com/aprendizaje/backend/repository/ProductoRepository.java:32 | exactly the rows whose category equals the argument, unchanged |
| ProductoRepositorio.FindByNombreContainingIgnoreCase | backend/src/main/java/com/aprendizaje/backend/repository/ProductoRepository.java:39 | exactly the rows whose lower-cased name contains the lower-cased text |
| ProductoRepositorio.FindByStockGreaterThanEqual | backend/src/main/java/com/aprendizaje/backend/repository/ProductoRepository.java:46 | exactly the rows with at least that stock |
| ProductoRepositorio.BusquedaEncuentraCoincidenciaExacta | backend/src/main/java/com/aprendizaje/backend/repository/ProductoRepository.java:34-39 | a name containing the text verbatim is always found |
| ProductoRepositorio.BusquedaIgnoraMayusculas | backend/src/main/java/com/aprendizaje/backend/repository/ProductoRepository.java:34-39 | searching for the lower-cased text finds the same products |
| ProductoRepositorio.BusquedaVaciaEncuentraTodos | backend/src/main/java/com/aprendizaje/backend/repository/ProductoRepository.java:39 | the empty text matches every product that has a name |
| ProductoRepositorio.StockMonotono | backend/src/main/java/com/aprendizaje/backend/repository/ProductoRepository.java:41-46 | a higher threshold never finds more products |
| ProductoServicio.Actualizado | backend/src/main/java/com/aprendizaje/backend/service/ProductoService.java:66-71 | name, description, price, stock and category come from the new data, unchecked; id and creation time stay; the result meets the column constraints exactly when the new data does |
| ProductoServicio.ActualizadoConSusDatos | backend/src/main/java/com/aprendizaje/backend/service/ProductoService.java:64-74 | updating a product with its own data changes nothing |
| ProductoServicio.ActualizadoIdempotente | backend/src/main/java/com/aprendizaje/backend/service/ProductoService.java:64-74 | repeating an update with the same data changes nothing more |
| ProductoServicio.ProductoService.constructor | backend/src/main/java/com/aprendizaje/backend/service/ProductoService.java:22-23 | the service starts over an empty, well-formed table |
| ProductoServicio.ProductoService.ObtenerTodosLosProductos | backend/src/main/java/com/aprendizaje/backend/service/ProductoService.java:29-32 | returns every stored product exactly once |
| ProductoServicio.ProductoService.ObtenerProductoPorId | backend/src/main/java/com/aprendizaje/backend/service/ProductoService.java:39-42 | present exactly when the id is stored, and then it is that row |
| ProductoServicio.ProductoService.CrearProducto | backend/src/main/java/com/aprendizaje/backend/service/ProductoService.java:49-52 | a product with a name of at most 100 characters, a price, a description of at most 500 and a category of at most 50 is saved under an id no stored row has and above every id handed out before and returned, the other rows staying; any other product fails, as `save` does against the columns of Producto.java:27-52, and the table is unchanged |
| ProductoServicio.ProductoService.ActualizarProducto | backend/src/main/java/com/aprendizaje/backend/service/ProductoService.java:60-79 | null and an unchanged table for a missing id; a failure and an unchanged table when the new data breaks a column constraint; otherwise only that row changes, as `Actualizado` says; no id is consumed |
| ProductoServicio.ProductoService.EliminarProducto | backend/src/main/java/com/aprendizaje/backend/service/ProductoService.java:86-95 | true exactly when the id existed; afterwards it is gone and nothing else is; false changes nothing; no id is consumed |
| ProductoServicio.ProductoService.BuscarPorCategoria | backend/src/main/java/com/aprendizaje/backend/service/ProductoService.java:102-105 | exactly the rows of `findByCategoria` over the current table, once each |
| ProductoServicio.ProductoService.BuscarPorNombre | backend/src/main/java/com/aprendizaje/backend/service/ProductoService.java:112-115 | exactly the rows of `findByNombreContainingIgnoreCase`, once each |
| ProductoServicio.ProductoService.ObtenerProductosConStock | backend/src/main/java/com/aprendizaje/backend/service/ProductoService.java:122-125 | exactly the rows of `findByStockGreaterThanEqual`, once each |
| TareaControlador.TareaController.constructor | backend/src/main/java/com/aprendizaje/backend/controller/TareaController.java:25-26 | the controller works on the injected service |
| TareaControlador.TareaController.ObtenerTodasLasTareas | backend/src/main/java/com/aprendizaje/backend/controller/TareaController.java:32-38 | 200 with every stored task exactly once |
| TareaControlador.TareaController.ObtenerTareaPorId | backend/src/main/java/com/aprendizaje/backend/controller/TareaController.java:45-54 | 200 with the row exactly when the id is stored, otherwise 404 and no body |
| TareaControlador.TareaController.CrearTarea | backend/src/main/java/com/aprendizaje/backend/controller/TareaController.java:61-67 | 201 with the task saved under an id no stored row had exactly when the body meets the column constraints; otherwise the exception of `save` gives 500 with no body and no change |
| TareaControlador.TareaController.ActualizarTarea | backend/src/main/java/com/aprendizaje/backend/controller/TareaController.java:75-88 | 404 for a missing id, else 500 when the new data breaks a column constraint, else 200 with the updated row; only the 200 case changes the table |
| TareaControlador.TareaController.EliminarTarea | backend/src/main/java/com/aprendizaje/backend/controller/TareaController.java:95-107 | 204 exactly when the task existed, otherwise 404; afterwards the id is gone |
| TareaControlador.TareaController.MarcarTarea | backend/src/main/java/com/aprendizaje/backend/controller/TareaController.java:119-125 | fetch, set the flag and save through `actualizarTarea` amount to `ConEstado`; 404 and no change for a missing id |
| TareaControlador.TareaController.CompletarTarea | backend/src/main/java/com/aprendizaje/backend/controller/TareaController.java:114-129 | 200 with the task now completed and title and description unchanged, or 404 with no update |
| TareaControlador.TareaController.DescompletarTarea | backend/src/main/java/com/aprendizaje/backend/controller/TareaController.java:136-151 | 200 with the task now not completed and nothing else changed, or 404 with no update |
| ProductoControlador.ProductoController.constructor | backend/src/main/java/com/aprendizaje/backend/controller/ProductoController.java:25-26 | the controller works on the injected service |
| ProductoControlador.ProductoController.ObtenerTodosLosProductos | backend/src/main/java/com/aprendizaje/backend/controller/ProductoController.java:32-38 | 200 with every stored product exactly once |
| ProductoControlador.ProductoController.ObtenerProductoPorId | backend/src/main/java/com/aprendizaje/backend/controller/ProductoController.java:45-54 | 200 with the row exactly when the id is stored, otherwise 404 |
| ProductoControlador.ProductoController.CrearProducto | backend/src/main/java/com/aprendizaje/backend/controller/ProductoController.java:61-67 | 201 with the product saved under an id no stored row had exactly when the body meets the column constraints (name and price present, lengths 100/500/50); otherwise the exception of `save` gives 500 with no body and no change |
| ProductoControlador.ProductoController.ActualizarProducto | backend/src/main/java/com/aprendizaje/backend/controller/ProductoController.java:75-88 | 404 for a missing id, else 500 when the new data breaks a column constraint, else 200 with the updated row; only the 200 case changes the table |
| ProductoControlador.ProductoController.EliminarProducto | backend/src/main/java/com/aprendizaje/backend/controller/ProductoController.java:95-107 | 204 exactly when the product existed, otherwise 404; afterwards the id is gone |
| ProductoControlador.ProductoController.BuscarPorNombre | backend/src/main/java/com/aprendizaje/backend/controller/ProductoController.java:114-119 | always 200, with exactly the matching products (possibly none) |
| ProductoControlador.ProductoController.ObtenerPorCategoria | backend/src/main/java/com/aprendizaje/backend/controller/ProductoController.java:126-131 | always 200, with exactly the products of the category (possibly none) |
| ProductoControlador.ProductoController.ObtenerConStock | backend/src/main/java/com/aprendizaje/backend/controller/ProductoController.java:138-143 | always 200, with exactly the products with enough stock (possibly none) |
| Text.Trim | frontend/src/components/tareas/TareaFormulario.jsx:22 | the result is empty exactly for blank input, has no outer whitespace, and is the input with whitespace stripped from both ends |
| Text.TrimIdempotent | frontend/src/components/tareas/TareaFormulario.jsx:32-33 | trimming twice is trimming once |
| Text.ContainsAt | backend/src/main/java/com/aprendizaje/backend/repository/ProductoRepository.java:39 | "contains" means the text occurs at some offset |
| Text.ContainsMatchesIgnoringCase | backend/src/main/java/com/aprendizaje/backend/repository/ProductoRepository.java:39 | a verbatim occurrence is also a match ignoring case |
| Ui.Interpolar | frontend/src/components/productos/ProductoFormulario.jsx:61 | a template literal prints a null name as "null" |
| Ui.RenderAll | frontend/src/components/tareas/TareaLista.jsx:39-46 | one rendered element per input element, in order |
| Ui.Lista | frontend/src/components/tareas/TareaLista.jsx:15-47 | loading first, then missing or empty, then one item per element with the count; the views exclude each other |
| Listas.ReplaceByKey | frontend/src/pages/TareasPage.jsx:55-57 | same length; every element with the id becomes the new one; every other element is unchanged in place |
| Listas.RemoveByKey | frontend/src/pages/TareasPage.jsx:66 | no element with the id remains; every other element is kept; it never grows |
| Listas.ReplaceAbsent | frontend/src/pages/TareasPage.jsx:55-57 | updating with an id not in the list changes nothing |
| Listas.ReplaceIdempotent | frontend/src/pages/TareasPage.jsx:55-57 | applying the same update twice is applying it once |
| Listas.RemoveAbsent | frontend/src/pages/TareasPage.jsx:66 | deleting an id not in the list changes nothing |
| Listas.RemoveConcat | frontend/src/pages/TareasPage.jsx:66 | removal works piece by piece, so the survivors keep their relative order |
| Listas.RemoveAfterAppend | frontend/src/pages/TareasPage.jsx:44-67 | deleting another id after an append keeps the appended element last |
| TareasPagina.TareasPage.constructor | frontend/src/pages/TareasPage.jsx:13-15 | an empty list, not loading |
| TareasPagina.TareasPage.CargarTareas | frontend/src/pages/TareasPage.jsx:27-30 | the flag goes up before the request; the list is untouched |
| TareasPagina.TareasPage.CargaTerminada | frontend/src/pages/TareasPage.jsx:30-37 | the fetched list replaces the old one, or the old one stays and an alert is raised; the flag ends down either way |
| TareasPagina.TareasPage.HandleTareaCreada | frontend/src/pages/TareasPage.jsx:44-47 | the new task is appended after the unchanged earlier ones |
| TareasPagina.TareasPage.HandleTareaActualizada | frontend/src/pages/TareasPage.jsx:53-58 | the list becomes `ReplaceByKey` of the updated task |
| TareasPagina.TareasPage.HandleTareaEliminada | frontend/src/pages/TareasPage.jsx:64-67 | the list becomes `RemoveByKey` of the id |
| ProductosPagina.ProductosPage.constructor | frontend/src/pages/ProductosPage.jsx:13-15 | an empty list, not loading |
| ProductosPagina.ProductosPage.CargarProductos | frontend/src/pages/ProductosPage.jsx:27-30 | the flag goes up before the request; the list is untouched |
| ProductosPagina.ProductosPage.CargaTerminada | frontend/src/pages/ProductosPage.jsx:30-37 | the fetched list replaces the old one, or the old one stays and an alert is raised; the flag ends down either way |
| ProductosPagina.ProductosPage.HandleProductoCreado | frontend/src/pages/ProductosPage.jsx:44-47 | the new product is appended after the unchanged earlier ones |
| ProductosPagina.ProductosPage.HandleProductoActualizado | frontend/src/pages/ProductosPage.jsx:53-58 | the list becomes `ReplaceByKey` of the updated product |
| ProductosPagina.ProductosPage.HandleProductoEliminado | frontend/src/pages/ProductosPage.jsx:64-67 | the list becomes `RemoveByKey` of the id |
| FormularioTarea.Datos | frontend/src/components/tareas/TareaFormulario.jsx:31-35 | the body has a non-empty trimmed title, a trimmed description and the given flag |
| FormularioTarea.DatosEstables | frontend/src/components/tareas/TareaFormulario.jsx:22-35 | a body passes the title check again, and rebuilding it changes nothing |
| FormularioTarea.TareaFormulario.constructor | frontend/src/components/tareas/TareaFormulario.jsx:11-13 | empty fields, not loading |
| FormularioTarea.TareaFormulario.HandleSubmit | frontend/src/components/tareas/TareaFormulario.jsx:18-35 | a blank title is refused with an alert and nothing changes; otherwise the flag goes up and the body is the trimmed fields with completada false |
| FormularioTarea.TareaFormulario.RecibirRespuesta | frontend/src/components/tareas/TareaFormulario.jsx:37-51 | success clears both fields and hands the created task to the parent; failure keeps the fields and alerts; the flag ends down |
| FormularioTarea.TareaFormulario.Vista | frontend/src/components/tareas/TareaFormulario.jsx:64-78 | inputs and button are disabled exactly while loading; the label says so |
| FormularioEditarTarea.TareaFormularioEditar.constructor | frontend/src/components/tareas/TareaFormularioEditar.jsx:13-15 | the fields start from the task; a missing description becomes '' |
| FormularioEditarTarea.TareaFormularioEditar.Resincronizar | frontend/src/components/tareas/TareaFormularioEditar.jsx:20-23 | a new task prop resets the fields to it |
| FormularioEditarTarea.TareaFormularioEditar.HandleSubmit | frontend/src/components/tareas/TareaFormularioEditar.jsx:28-45 | a null title throws and changes nothing; a blank one is refused; otherwise the update targets the task's id with trimmed fields and the task's own completion flag |
| FormularioEditarTarea.TareaFormularioEditar.RecibirRespuesta | frontend/src/components/tareas/TareaFormularioEditar.jsx:47-57 | success hands the task to the parent, failure alerts; the fields are never cleared; the flag ends down |
| FormularioEditarTarea.TareaFormularioEditar.Vista | frontend/src/components/tareas/TareaFormularioEditar.jsx:68-92 | inputs and buttons are disabled exactly while loading; the label says so |
| FormularioProducto.Validar | frontend/src/components/productos/ProductoFormulario.jsx:26-39 | name, then price, then stock: each error is reported exactly when the earlier checks pass and this one fails; no error exactly when all pass |
| FormularioProducto.MensajeCreado | frontend/src/components/productos/ProductoFormulario.jsx:61 | the success toast names the created product, `null` when it has no name |
| FormularioProducto.Datos | frontend/src/components/productos/ProductoFormulario.jsx:45-51 | the body has a non-empty trimmed name, trimmed description and category, price > 0 and stock >= 0, as entered |
| FormularioProducto.DatosEstables | frontend/src/components/productos/ProductoFormulario.jsx:26-51 | a body passes the checks again, and rebuilding it changes nothing |
| FormularioProducto.ProductoFormulario.constructor | frontend/src/components/productos/ProductoFormulario.jsx:12-17 | five empty fields, not loading |
| FormularioProducto.ProductoFormulario.HandleSubmit | frontend/src/components/productos/ProductoFormulario.jsx:22-51 | the first failed check is toasted and nothing changes; otherwise the flag goes up and the body is `Datos` of the fields |
| FormularioProducto.ProductoFormulario.RecibirRespuesta | frontend/src/components/productos/ProductoFormulario.jsx:53-73 | success clears all five fields, toasts the name, then hands the product to the parent; failure keeps the fields and toasts an error; the flag ends down |
| FormularioProducto.ProductoFormulario.Vista | frontend/src/components/productos/ProductoFormulario.jsx:86-130 | inputs and button are disabled exactly while loading; the label says so |
| FormularioEditarProducto.ProductoFormularioEditar.constructor | frontend/src/components/productos/ProductoFormularioEditar.jsx:14-19 | the fields start from the product; missing description and category become ''; price and stock shown as numbers |
| FormularioEditarProducto.ProductoFormularioEditar.Resincronizar | frontend/src/components/productos/ProductoFormularioEditar.jsx:24-30 | a new product prop resets all five fields to it |
| FormularioEditarProducto.ProductoFormularioEditar.HandleSubmit | frontend/src/components/productos/ProductoFormularioEditar.jsx:35-64 | a null name throws and changes nothing; the create form's checks run in the same order; otherwise the update targets the product's id with `Datos` of the fields |
| FormularioEditarProducto.ProductoFormularioEditar.RecibirRespuesta | frontend/src/components/productos/ProductoFormularioEditar.jsx:66-79 | success toasts the name, then hands the product to the parent; failure toasts an error; the fields are never cleared; the flag ends down |
| FormularioEditarProducto.ProductoFormularioEditar.Vista | frontend/src/components/productos/ProductoFormularioEditar.jsx:90-142 | inputs and buttons are disabled exactly while loading; the label says so |
| FormularioEditarProducto.MensajeActualizado | frontend/src/components/productos/ProductoFormularioEditar.jsx:67 | the success toast names the updated product, `null` when it has no name |
| ItemTarea.HandleToggleCompletada | frontend/src/components/tareas/TareaItem.jsx:20-40 | exactly one request, `descompletar` exactly for a completed task; on success nothing but that request and, when there is a callback, the returned task to the parent; on failure the request and one alert |
| ItemTarea.HandleEliminar | frontend/src/components/tareas/TareaItem.jsx:45-63 | no effect without confirmation; otherwise one delete request, then, on success, the task's id to the parent when there is a callback and no alert, or, on failure, one alert |
| ItemTarea.Render | frontend/src/components/tareas/TareaItem.jsx:107-127 | the heading is the title (empty for null); the description shows exactly when non-empty; a completed task is struck through and its toggle reads Descompletar |
| ItemTarea.TareaItem.constructor | frontend/src/components/tareas/TareaItem.jsx:15 | the edit modal starts closed |
| ItemTarea.TareaItem.HandleAbrirModal | frontend/src/components/tareas/TareaItem.jsx:68-70 | the modal is open |
| ItemTarea.TareaItem.HandleCerrarModal | frontend/src/components/tareas/TareaItem.jsx:75-77 | the modal is closed |
| ItemTarea.TareaItem.HandleTareaActualizada | frontend/src/components/tareas/TareaItem.jsx:82-90 | forwards the updated task to the parent and closes the modal |
| ItemTarea.TareaItem.ModalEdicion | frontend/src/components/tareas/TareaItem.jsx:139-149 | the edit modal, titled "Editar Tarea" and holding this task's form, is shown exactly while open |
| ItemProducto.HandleEliminar | frontend/src/components/productos/ProductoItem.jsx:16-34 | no effect without confirmation; otherwise one delete request, then, on success, the product's id to the parent when there is a callback and no alert, or, on failure, one alert |
| ItemProducto.TieneStockBajo | frontend/src/components/productos/ProductoItem.jsx:62-64 | the stock is low exactly below 10 units |
| ItemProducto.Render | frontend/src/components/productos/ProductoItem.jsx:62-84 | the heading is the name (empty for null); category and description show exactly when non-empty; the stock is marked low exactly below 10 |
| ListaTareas.Render | frontend/src/components/tareas/TareaLista.jsx:15-47 | loading beats empty; a null or empty list is the empty view; otherwise one card per task, in order, with the count |
| ListaProductos.Render | frontend/src/components/productos/ProductoLista.jsx:15-47 | loading beats empty; a null or empty list is the empty view; otherwise one card per product, in order, with the count |
| Modal.Render | frontend/src/components/common/Modal.jsx:15-46 | nothing while closed; when open, the title and the children |
| Modal.HandleBackdropClick | frontend/src/components/common/Modal.jsx:20-25 | `onClose` exactly when the click's target is the backdrop itself |
| Modal.Click | frontend/src/components/common/Modal.jsx:20-36 | a shown modal closes on the backdrop or the close button, never on its content; `onClose` at most once per click |
| ConfirmModal.ConDefecto | frontend/src/components/common/ConfirmModal.jsx:19-22 | an omitted prop takes its default; an explicit `null` shows no text; a string shows itself |
| ConfirmModal.Render | frontend/src/components/common/ConfirmModal.jsx:19-26 | nothing while closed; when open, each text is the given string, nothing for `null`, or its default when omitted |
| ConfirmModal.HandleConfirm | frontend/src/components/common/ConfirmModal.jsx:41-44 | `onConfirm` then `onClose`, once each |
| ConfirmModal.HandleBackdropClick | frontend/src/components/common/ConfirmModal.jsx:31-36 | `onClose` exactly when the target is the backdrop itself; never `onConfirm` |
| ConfirmModal.Click | frontend/src/components/common/ConfirmModal.jsx:31-69 | `onConfirm` exactly for the confirm button, followed by `onClose`; cancel and the backdrop only close; a click on the content does nothing |

## Left out

- Network clients: `services/tareaService.js` and `services/productoService.js` are not part of this model. Each call is an outcome, and any non-2xx status is `Failure`.
- JPA and the database: the repository is a map, and the IDENTITY generator is a counter. `LocalDateTime.now()` is a `Timestamp` parameter, and time values are opaque integers.
- TareaServicio.TareaService.CrearTarea: the model always creates a new row. In the source, a request body that already carries the id of an existing row is merged by `save`, which updates that row instead. The same holds for ProductoServicio.ProductoService.CrearProducto.
- Null `Boolean`/`Integer`/`LocalDateTime` fields: `completada` is a `bool`, `stock` an `int` and `fechaCreacion` a `Timestamp`. A request body with an explicit null flag, stock or creation time, which the NOT NULL columns reject with a server error, is not modelled; the other NOT NULL and length constraints are (`Admisible`).
- Number widths: `Long` ids and `Integer` stock are unbounded integers. `Double` prices are reals.
- Text-to-number parsing: `parseFloat`/`parseInt` are left out, including the NaN path. Number inputs are already parsed, and `None` means an empty input.
- Whitespace and case: `trim` strips ASCII whitespace only. "Ignore case" lower-cases ASCII letters only.
- Locale formatting of prices and dates (`Intl.NumberFormat`, `toLocaleString`) is left out.
- Effects: toasts, `alert` and `console` are only the notices the handlers emit. `window.confirm` is a boolean input.
- Asynchronous ordering: overlapping requests, responses that arrive after unmount, and a parent callback that throws are left out.
- Field edits: `onChange` handlers are plain assignments to the form fields.
- FormularioEditarProducto.ProductoFormularioEditar.constructor: requires a price, because the component calls `producto.precio.toString()` while rendering and fails without one. The same requirement holds for FormularioEditarProducto.ProductoFormularioEditar.Resincronizar.
- Markup, CSS classes, routing, `App.js`, `HomePage.jsx`, `Navbar.jsx`, `CorsConfig.java` and `TareaRepository.java` are not part of this model.
- Tests that describe other code are not modelled. These are the edit modal and toasts of a later `ProductoItem`, and a three-argument `Tarea` constructor that `Tarea.java` does not have.
