# Bakery back end: a verified model of its entity store

The back end of a bakery manager keeps three tables keyed by string id:
`clientes` (customers), `productos` (products) and `pedidos` (orders). Its
endpoints create, read, replace and delete customers and products. They also
compose orders from a customer id, a delivery date and a list of
(product id, quantity) lines, change an order's status, delete orders, and
report dashboard statistics.

This project models that back end in Dafny, module by module:

- `Results` (`results.dfy`): `Option`, `Result`, and the two error kinds of
  the service, `NotFound` (HTTP 404) and `InvalidArgument` (HTTP 400), each
  carrying the endpoint's detail text.
- `Fechas` (`fechas.dfy`): what `datetime.strptime(text, "%Y-%m-%d")` accepts.
  The year is exactly four digits. The month is one or two digits from 1 to 12.
  The day is one or two digits from 1 to 31, or a space and a non-zero digit,
  and nothing may follow it. The date must exist, with a year from 1 to 9999.
- `Models` (`models.dfy`): the records `Cliente`, `Producto`,
  `DetalleProducto` and `Pedido`, and the request bodies `ClienteCreate`,
  `ProductoCreate` and `PedidoCreate`. Prices are integer cents. The four
  order statuses are strings, as in the source.
- `Pedidos` (`pedidos.dfy`): order composition as pure functions. The first
  missing product is found, each line copies the product's name and price,
  and the total is the running sum of the subtotals. `ComponerPedido` is the
  reference for what order creation returns.
- `Estadisticas` (`estadisticas.dfy`): counts per status and revenue, which is
  the sum of `total` over completed orders. Lemmas say how inserting,
  deleting and re-statusing an order moves the revenue.
- `Server` (`store.dfy`): class `Store`, with one `map` field per table and
  one method or function per endpoint. `Valid()` says every record is stored
  under its own id and every order is coherent: its status is valid, each
  line's subtotal is its unit price times its quantity, and its total is the
  sum of its lines.
- `Escenarios` (`escenarios.dfy`): a client of `Store` that uses only the
  endpoints' contracts to run the steps of `backend_test.py` on a fresh store.
  One customer is created and updated, and five products are created at
  2.50 + 0.75 × i. An order takes 2 × 2.50, 1 × 3.25 and 3 × 4.00, so its
  total is 20.25. Its status moves through "en_proceso" to "completado", and
  the dashboard then shows revenue 20.25.

Inputs that come from outside the program are parameters or choices:

- The clock (`datetime.utcnow()`) is a `Timestamp` parameter, `ahora`.
- Random ids (`uuid.uuid4()`) are chosen with `:|` as some id not yet in the
  table.
- The database is the three maps, and every request runs to completion before
  the next one starts.
- The delivery date that the test suite sends, today plus two days, is a
  parameter `entrega` of the scenario.

The model follows the code where the code is more permissive than its
messages suggest:

- Quantities are not checked, so zero and negative quantities are accepted.
- Deleting a customer or product does not touch any order.
- The date check is Python's `strptime`, which also accepts unpadded months
  and days such as `2024-1-5`. It is not the strict `YYYY-MM-DD` check that
  its error message "Use YYYY-MM-DD" (backend/server.py:173) suggests.

## Model

| member | source | states |
|---|---|---|
| `Fechas.ParseFecha` | backend/server.py:170-173 | a date is accepted only when it exists: year 1 to 9999, month 1 to 12, day within that month's length |
| `Fechas.ParseFormatFecha` | backend_test.py:168 | every valid date written zero-padded as `YYYY-MM-DD` (the form the client sends) is accepted and read back as the same date |
| `Fechas.ParseFechaForma` | backend/server.py:171 | an accepted text has 8 to 10 characters and the year is its first four digits |
| `Fechas.FechaSinRelleno` | backend/server.py:171 | strptime also accepts a one-digit month and a one-digit day (`2024-1-5`) |
| `Fechas.FechaDiaConEspacio` | backend/server.py:171 | strptime also accepts a space before a one-digit day (`2024-12- 5`) |
| `Fechas.VeintinueveDeFebreroBisiesto` | backend/server.py:170-173 | 29 February of a leap year is accepted |
| `Fechas.VeintinueveDeFebreroComun` | backend/server.py:170-173 | 29 February of a common year is rejected |
| `Fechas.FormasRechazadas` | backend/server.py:170-173 | year 0000, a padded day followed by another digit, and a two-digit year are all rejected |
| `Fechas.DiasDelMes` | backend/server.py:171 | a month has 28 to 31 days, and 29 exactly for February of a leap year |
| `Pedidos.PrimerFaltante` | backend/server.py:179-182 | no id is missing exactly when every requested product exists; a reported id is absent from the table, and every line before its first occurrence names a present product |
| `Pedidos.PrimerFaltanteEn` | backend/server.py:179-182 | if every line before position i is present and line i is absent, then line i's id is the one reported, so creation stops at the first missing product |
| `Pedidos.ComponerPedido` | backend/server.py:163-205 | creation succeeds exactly when the customer exists, the date parses and every product exists; otherwise the error is, in that order of checks, customer NotFound, date InvalidArgument, or NotFound naming the first missing product |
| `Pedidos.LineasAlAnadir` | backend/server.py:179-193 | when the next requested product is present, extending the processed prefix by it appends exactly that product's line |
| `Pedidos.SumaSubtotalesConcat` | backend/server.py:177-193 | the running sum of subtotals over two concatenated runs of lines is the sum of the two parts |
| `Pedidos.SumaLineas` | backend/server.py:176-193 | the total accumulated from 0 in request order equals the sum of price times quantity over the requested items |
| `Pedidos.PedidoCompuesto` | backend/server.py:184-201 | a composed order has the new id, the requested customer id and that customer's current name, status "pendiente", one line per item in request order, each copying the product's id, name and price with subtotal = price × quantity, and total = Σ price × quantity |
| `Estadisticas.SumaTotalesSin` | backend/server.py:253-254 | the revenue sum over a set of orders is any one order's total plus the sum over the rest, whichever is taken out first |
| `Estadisticas.SumaTotalesIgual` | backend/server.py:253-254 | the sum reads only the totals of the orders it names |
| `Estadisticas.IngresosAlInsertar` | backend/server.py:204 | inserting an order that is not completed leaves the revenue unchanged |
| `Estadisticas.IngresosAlEliminar` | backend/server.py:232-237 | deleting an order lowers the revenue by its total if it was completed, and leaves it unchanged otherwise |
| `Estadisticas.IngresosAlCambiarEstado` | backend/server.py:229 | changing an order's status adds its total to the revenue when it becomes completed and removes it when it stops being completed |
| `Estadisticas.ConteosPorEstado` | backend/server.py:245-250 | pending + in progress + completed is at most the number of orders; with only valid statuses, adding the cancelled orders gives the number of orders |
| `Estadisticas.EjemploAgregacion` | backend/server.py:243-264 | statuses pending, pending, in progress, completed (10) and completed (5) give 5 orders, 2 pending, 1 in progress, 2 completed and revenue 15 |
| `Server.Store.constructor` | backend/server.py:17-19 | the store starts with three empty tables and satisfies its invariant |
| `Server.Store.CrearCliente` | backend/server.py:82-87 | adds one customer under an id not in the table, with the given fields and registration time; other tables unchanged |
| `Server.Store.ObtenerClientes` | backend/server.py:89-92 | returns exactly the stored customers |
| `Server.Store.ObtenerCliente` | backend/server.py:94-99 | returns the customer stored under the id, whose own id is that id, or NotFound when absent |
| `Server.Store.ActualizarCliente` | backend/server.py:101-111 | NotFound and no change when absent; otherwise replaces name, phone, email and address, keeps id and registration time, and leaves other customers and tables unchanged |
| `Server.Store.EliminarCliente` | backend/server.py:113-118 | NotFound and no change when absent; otherwise removes only that customer, a later get reports NotFound, and no order changes |
| `Server.Store.CrearProducto` | backend/server.py:122-127 | adds one product under an id not in the table, with the given fields; other tables unchanged |
| `Server.Store.ObtenerProductos` | backend/server.py:129-132 | returns exactly the stored products |
| `Server.Store.ObtenerProducto` | backend/server.py:134-139 | returns the product stored under the id, whose own id is that id, or NotFound when absent |
| `Server.Store.ActualizarProducto` | backend/server.py:141-151 | NotFound and no change when absent; otherwise replaces every editable field, keeps the id, and leaves other products and every order unchanged |
| `Server.Store.EliminarProducto` | backend/server.py:153-158 | NotFound and no change when absent; otherwise removes only that product, a later get reports NotFound, and no order changes |
| `Server.Store.ProcesarProductos` | backend/server.py:176-193 | the loop yields the lines of the reference composition, or NotFound for the first missing product, and its accumulator is the sum of the subtotals |
| `Server.Store.PrepararPedido` | backend/server.py:164-202 | reads only: on success it returns the reference composition under an id not in the order table; on failure it returns the reference error, which does not depend on the id |
| `Server.Store.CrearPedido` | backend/server.py:162-205 | on success adds exactly one order, under an id not in the table, equal to the reference composition; on every error no table changes; revenue is unchanged |
| `Server.Store.ObtenerPedidos` | backend/server.py:207-210 | returns exactly the stored orders |
| `Server.Store.ObtenerPedido` | backend/server.py:212-217 | returns the order stored under the id, which is coherent, or NotFound when absent |
| `Server.Store.ActualizarEstadoPedido` | backend/server.py:219-230 | NotFound when the order is absent, checked first; InvalidArgument for a status outside the four; on success only that order's status changes, and revenue moves accordingly |
| `Server.Store.EliminarPedido` | backend/server.py:232-237 | NotFound and no change when absent; otherwise removes only that order, a later get reports NotFound, and revenue loses its total if it was completed |
| `Server.Store.ObtenerEstadisticas` | backend/server.py:241-264 | returns the table sizes, the counts of pending, in-progress and completed orders, and the sum of totals over completed orders, changing nothing |
| `Escenarios.ComposicionEscenario` | backend_test.py:169-172 | lines of 2 × 250, 1 × 325 and 3 × 400 cents give subtotals 500, 325 and 1200, total 2025, status pending and the date that was sent |
| `Escenarios.AltaCliente` | backend_test.py:66-108 | creating "Juan Pérez" and updating it leaves one customer, named "Juan Pérez Actualizado", with its registration time kept |
| `Escenarios.AltaCatalogo` | backend_test.py:116-130 | the category loop stores five products, the i-th at 250 + 75 × i cents in the i-th category |
| `Escenarios.PedidoDePrueba` | backend_test.py:162-196 | the order of the first three products is stored pending with total 2025 and the customer's current name, and reading it back returns it |
| `Escenarios.AvanzarEstados` | backend_test.py:200-207 | both updates, to "en_proceso" and then to "completado", return the success message, and the order ends completed with its other fields as they were |
| `Escenarios.PanelTrasCompletar` | backend/server.py:241-264 | with one order, completed, the dashboard shows 1 order, 0 pending, 0 in progress, 1 completed and revenue equal to its total |
| `Escenarios.EscenarioPanaderia` | backend_test.py:62-207 | the customer, product and order steps on a fresh store give an order of 2025 and a dashboard of 1 customer, 5 products, 1 completed order and revenue 2025 |

## Left out

- HTTP routing, response models, CORS and logging (backend/server.py:1-25, 266-286).
  These are framework plumbing; each endpoint is a method or function of `Store`.
- The MongoDB client, `async`/`await` and the connection lifecycle. The tables
  are in-memory maps, and each request runs to completion before the next one
  starts. Interleaving between requests is not modelled.
- Floating-point prices. Prices, subtotals and totals are exact integer cents,
  so float rounding in `precio * cantidad` and in the running total is not
  modelled.
- `uuid.uuid4()` and `datetime.utcnow()`. A new id is some string not yet in
  its table, and the clock is a parameter.
- Server.Store.CrearCliente, Server.Store.CrearProducto, Server.Store.CrearPedido:
  the new id is only promised to be absent from its table now. An id freed by a
  delete may be chosen again, and orders that still name a deleted customer
  would then name the new one; `uuid4()` makes such reuse practically
  impossible, which the model does not capture.
- `to_list(1000)` caps every listing and the revenue query at 1000 documents.
  The model lists and sums without a cap, so with more than 1000 completed
  orders the source would leave out the totals of the orders past the first
  1000, which the model includes.
- The contents of a database that already exists when the service starts
  (backend/server.py:17-19). The store starts with three empty tables, so the
  model covers a database that starts empty or holds only records written by
  these endpoints; records written by other means might break `Valid()`.
- The newest-first order of `obtener_pedidos`. The listings return sets, so
  their order is not modelled.
- Pydantic coercion and validation of request bodies, and the `KeyError` that
  a line without `producto_id` or `cantidad`, or a status body without
  `estado`, raises. Requests are assumed well formed.
- Fechas.ParseFecha: Python's `\d` also matches non-ASCII decimal digits, which
  the model rejects; only ASCII digits are modelled.
- The stored delivery date is the parsed `Fecha`; the midnight time of day
  that `datetime` adds is not modelled.
- Server.Store.ObtenerCliente, Server.Store.ObtenerProducto, Server.Store.ObtenerPedido,
  Server.Store.ObtenerClientes, Server.Store.ObtenerProductos, Server.Store.ObtenerPedidos:
  these require the store invariant `Valid()`, which the constructor
  establishes and every method keeps. Lookup by map key stands for
  `find_one({"id": ...})`, and under the invariant the two agree.
