# Order lifecycle of a neighbourhood-shop supply platform

This project models the back end of a platform that groups small shops'
(tenderos') orders by zone and gives them to suppliers (proveedores), and it
proves properties of that model. The model covers three parts:

- the order model `Pedido`, which holds an order row with its detail lines and
  the queries over them;
- the order endpoints of `pedidoController`;
- the authentication middleware.

An order moves through seven states in this order: `pendiente`,
`consolidacion`, `asignacion`, `despacho`, `enviado`, `entregado` and
`recibido`. Each endpoint does one step:

- A shopkeeper creates an order. This is refused while the shopkeeper already
  has an active order.
- The platform consolidates pending orders of one zone.
- The platform assigns consolidated orders to a supplier.
- The platform dispatches assigned orders.
- The supplier reports the order shipped, then delivered.
- The shopkeeper marks products received. When the last product is received,
  the order becomes `recibido`.

Modules, one per file:

- `Estados` (`estados.dfy`): the seven states, their column names, the
  active states and the lifecycle graph.
- `Colecciones` (`colecciones.dfy`): what `WHERE id IN (...)` returns, and
  per-key counters.
- `Entidades` (`entidades.dfy`): ids, users, products, and the product lookup
  the orders need.
- `PedidoModelo` (`pedido.dfy`): the order rows, the pure queries over them,
  and the class `Store`. `Store` stands for the `pedidos` and
  `pedido_detalles` tables. Its methods insert and update rows in place.
- `PedidoController` (`pedido_controller.dfy`): each endpoint, as a method on
  the store. It returns `Result`, and each JSON error answer becomes a
  `Failure` with its HTTP status.
- `CicloVida` (`ciclo_vida.dfy`): the state changes each endpoint can make,
  and whether "at most one active order per shopkeeper" survives it.
- `Auth` (`auth.dfy`): reading the token, resolving it to a user, and the
  role guards.
- `Escenario` (`escenario.dfy`): one order carried through the whole
  lifecycle, followed by the shopkeeper's next order.

Representation choices:

- Prices are integer cents and times are integer hours.
- A request id that JavaScript treats as falsy (absent, `null` or `0`) is
  `None` or `Some(0)`. The predicate for this is `Falta`.
- A falsy string is `None` or `""`. The predicate for this is `FaltaTexto`.

Two behaviours of the code are worth stating on their own:

- `entregado` is not an active state. `findActivePedidoByTendero` searches
  only the five states from `pendiente` to `enviado`, so a shopkeeper whose
  order is delivered but not yet received may create a new order.
- The supplier's state update does not check that the new state follows the
  current one. The lemmas `CicloVida.ActualizacionSaltaPasos` and
  `CicloVida.ActualizacionReactiva` show what this allows.

## Model

| member | source | states |
|---|---|---|
| Estados.DesdeNombre | nuevastecnologias-parcial2-main/backend/models/Pedido.js:15-24 | reading a state column gives back the state with that name, and gives nothing exactly when no state has that name |
| Estados.DesdeNombreDeNombre | nuevastecnologias-parcial2-main/backend/models/Pedido.js:15-24 | every state's column name reads back as that state |
| Estados.EstadosCompletos | nuevastecnologias-parcial2-main/backend/models/Pedido.js:15-24 | the state list has seven entries, names every state, and no two entries share a name |
| Estados.EstadoProveedor | nuevastecnologias-parcial2-main/backend/controllers/pedidoController.js:634-643 | a state string is accepted from a supplier exactly when it is `despacho`, `enviado` or `entregado`, and it maps to the state of that name |
| Colecciones.Filtrar | nuevastecnologias-parcial2-main/backend/controllers/pedidoController.js:351-359 | `WHERE id IN (ids)` returns exactly the rows whose id is listed, never more rows than the table has |
| Colecciones.FiltrarDistintos | nuevastecnologias-parcial2-main/backend/controllers/pedidoController.js:351-359 | rows of a table with distinct ids come back at most once each, however often an id is listed |
| Colecciones.FiltrarPrimero | nuevastecnologias-parcial2-main/backend/controllers/pedidoController.js:371 | the first row the query returns is the first row of the table whose id was requested |
| Colecciones.FiltrarCompleto | nuevastecnologias-parcial2-main/backend/controllers/pedidoController.js:361-367 | the number of rows returned equals the number of ids requested exactly when the ids are distinct and all of them exist |
| Colecciones.Incrementar | nuevastecnologias-parcial2-main/backend/controllers/pedidoController.js:311-317 | the counter update (a missing key counts as 0) adds key `k` if missing, raises its count by one, leaves every other count alone and raises the total of all counts by one |
| Entidades.IdsActivos | nuevastecnologias-parcial2-main/backend/models/Producto.js:77-84 | the ids of exactly the active products |
| Entidades.FindByIds | nuevastecnologias-parcial2-main/backend/models/Producto.js:77-84 | `findByIds` returns exactly the active products whose id is requested, as many as the requested ids that match an active row |
| Entidades.IdsActivosDistintos | nuevastecnologias-parcial2-main/backend/models/Producto.js:77-84 | because product ids are the primary key, no active id is returned twice |
| Entidades.ProductosResueltos | nuevastecnologias-parcial2-main/backend/controllers/pedidoController.js:61-70 | the count check of `createPedido` on the product ids of the request (`IdsPedidos`, one per line) passes exactly when those ids are distinct and each is an active product |
| Entidades.Buscar | nuevastecnologias-parcial2-main/backend/controllers/pedidoController.js:73-80 | `find` over the fetched products yields a product with the requested id exactly when one exists |
| PedidoModelo.MasRecienteActivo | nuevastecnologias-parcial2-main/backend/models/Pedido.js:82-92 | the result is an active order of the shopkeeper with the latest `fecha_pedido`; nothing is returned exactly when the shopkeeper has no order in the five active states |
| PedidoModelo.CuentaRecibidosCota | nuevastecnologias-parcial2-main/backend/models/Pedido.js:126-136 | the received count is at most the line count, and equals it exactly when every line is received |
| PedidoModelo.TodosRecibidosSii | nuevastecnologias-parcial2-main/backend/models/Pedido.js:126-136 | `COUNT(*) === SUM(recibido)` holds exactly when the order has lines and every line is received; over no lines `SUM` is NULL (`SumaRecibido` is `None`), so an order without lines is never complete |
| PedidoModelo.Marcar | nuevastecnologias-parcial2-main/backend/models/Pedido.js:114-123 | marking a product sets `recibido` on each line of that product, and changes no line's other fields and no other line |
| PedidoModelo.MarcarIdempotente | nuevastecnologias-parcial2-main/backend/models/Pedido.js:114-123 | marking the same product twice has the effect of marking it once |
| PedidoModelo.MarcarConserva | nuevastecnologias-parcial2-main/backend/controllers/pedidoController.js:207-223 | marking a product never takes a fully received order out of "all received" |
| PedidoModelo.MarcarUltimo | nuevastecnologias-parcial2-main/backend/controllers/pedidoController.js:207-223 | marking the last outstanding product completes the order |
| PedidoModelo.MarcarPendiente | nuevastecnologias-parcial2-main/backend/controllers/pedidoController.js:207-223 | while another product is outstanding, marking one product does not complete the order |
| PedidoModelo.Store.FindActivePedidoByTendero | nuevastecnologias-parcial2-main/backend/models/Pedido.js:82-92 | the order found is active, belongs to the shopkeeper and is the most recent; none is found exactly when the shopkeeper has no active order |
| PedidoModelo.Store.TodosProductosRecibidos | nuevastecnologias-parcial2-main/backend/models/Pedido.js:126-136 | true exactly when the order exists, has lines, and every line is received |
| PedidoModelo.Store.Create | nuevastecnologias-parcial2-main/backend/models/Pedido.js:28-64 | inserts a new order with the next id and advances the id counter by one: `pendiente`, no supplier, a deadline 72 hours on, one unreceived detail line per product with subtotal = quantity × unit price; no other order changes |
| PedidoModelo.Store.UpdateEstado | nuevastecnologias-parcial2-main/backend/models/Pedido.js:107-111 | sets the state of the order with that id; reports success exactly when the order exists, and changes nothing else |
| PedidoModelo.Store.MarcarProductoRecibido | nuevastecnologias-parcial2-main/backend/models/Pedido.js:114-123 | marks the order's lines of that product received; reports success exactly when the order has such a line |
| PedidoController.CantidadesValidas | nuevastecnologias-parcial2-main/backend/controllers/pedidoController.js:51-59 | the quantity check passes exactly when every quantity is above zero |
| PedidoController.ConPrecios | nuevastecnologias-parcial2-main/backend/controllers/pedidoController.js:72-80 | each line keeps its product and quantity and takes the fetched product's base price |
| PedidoController.CreatePedido | nuevastecnologias-parcial2-main/backend/controllers/pedidoController.js:15-105 | each refusal, in the order the code checks (no zone, an active order exists together with its id, state and date, no products, a bad quantity, an unknown/inactive/repeated product), all answered with 400; success exactly when every check passes, and then a new `pendiente` order at current prices is stored as the last row and nothing else changes |
| PedidoController.MarcarProductoRecibido | nuevastecnologias-parcial2-main/backend/controllers/pedidoController.js:166-240 | each refusal in order (no product, no order with status 404, not the owner with 403, not `entregado`, product not in the order, the rest with 400); on success, the product's lines are received and the order becomes `recibido` exactly when all of its lines are, which is also what both flags report |
| PedidoController.ErrorConsolidacion | nuevastecnologias-parcial2-main/backend/controllers/pedidoController.js:343-390 | each refusal in order (no ids, missing or repeated ids, two zones, an order not `pendiente`), all with status 400; the zone-mismatch refusal names the zone of the first row the query returns; all checks pass exactly when the ids are distinct, all exist, lie in one zone and are all `pendiente` |
| PedidoController.ConsolidarPedidos | nuevastecnologias-parcial2-main/backend/controllers/pedidoController.js:339-416 | on a refusal nothing changes; otherwise exactly the listed orders move to `consolidacion`, and the count and zone name are reported |
| PedidoController.ErrorAsignacion | nuevastecnologias-parcial2-main/backend/controllers/pedidoController.js:427-472 | each refusal in order (no ids, no supplier, unknown supplier with status 404, not a supplier, an existing listed order not in `consolidacion`), the others with 400; all pass exactly when the supplier exists with role `proveedor` and every listed order that exists is in `consolidacion`, so ids that match no order are not reported |
| PedidoController.AsignarProveedor | nuevastecnologias-parcial2-main/backend/controllers/pedidoController.js:423-501 | on a refusal nothing changes; otherwise each listed order that exists moves to `asignacion` under the supplier, and the number of ids requested is reported |
| PedidoController.DespacharPedidos | nuevastecnologias-parcial2-main/backend/controllers/pedidoController.js:508-541 | refuses an empty list with 400; otherwise exactly the listed orders in `asignacion` move to `despacho`, the rest are skipped, and the count moved is reported |
| PedidoController.ActualizarEstadoPedido | nuevastecnologias-parcial2-main/backend/controllers/pedidoController.js:620-689 | each refusal in order (no state, a state a supplier may not set, no order with status 404, not the order's supplier with 403, the rest with 400); success exactly when all pass, and then only that order's state changes, whatever it was before; the previous and new states are reported |
| PedidoController.Listar | nuevastecnologias-parcial2-main/backend/controllers/pedidoController.js:253-288 | the listing is the orders that pass the optional zone and state filters, one entry per matching row, in row order (`ClavesListadas` gives their keys) |
| PedidoController.ListarCuenta | nuevastecnologias-parcial2-main/backend/controllers/pedidoController.js:288-306 | the listing has exactly one entry per matching order, so `total_pedidos` counts the matching orders |
| PedidoController.PasoPorEstado | nuevastecnologias-parcial2-main/backend/controllers/pedidoController.js:311-313 | counting one more order adds one to its own state's counter only |
| PedidoController.PasoPorZona | nuevastecnologias-parcial2-main/backend/controllers/pedidoController.js:311-316 | counting one more order adds one to its own zone's counter only |
| PedidoController.CalcularEstadisticas | nuevastecnologias-parcial2-main/backend/controllers/pedidoController.js:304-317 | `total_pedidos` is the number listed; `por_estado` and `por_zona` hold, for each state or zone name present, how many listed orders have it; each sums to the total |
| PedidoController.GetTodosPedidos | nuevastecnologias-parcial2-main/backend/controllers/pedidoController.js:253-332 | the filtered listing together with statistics that count it by state and zone; `total_pedidos` is the number of matching orders |
| CicloVida.CrearConservaUnActivo | nuevastecnologias-parcial2-main/backend/controllers/pedidoController.js:29-41 | because creation is refused while an active order exists, a successful creation keeps "at most one active order per shopkeeper" |
| CicloVida.ConsolidarRespetaCiclo | nuevastecnologias-parcial2-main/backend/controllers/pedidoController.js:393-399 | a successful consolidation takes only `pendiente` → `consolidacion` edges, touches only the listed orders, and keeps one active order per shopkeeper |
| CicloVida.AsignarRespetaCiclo | nuevastecnologias-parcial2-main/backend/controllers/pedidoController.js:474-481 | a successful assignment takes only `consolidacion` → `asignacion` edges and records a user whose role is `proveedor` |
| CicloVida.DespacharRespetaCiclo | nuevastecnologias-parcial2-main/backend/controllers/pedidoController.js:519-531 | dispatch takes only `asignacion` → `despacho` edges, on listed orders only |
| CicloVida.RecepcionRespetaCiclo | nuevastecnologias-parcial2-main/backend/controllers/pedidoController.js:217-223 | reception keeps the order `entregado` or moves it to `recibido`, and the latter only when every line is received |
| CicloVida.ActualizacionConservaSiActiva | nuevastecnologias-parcial2-main/backend/controllers/pedidoController.js:645-673 | the supplier's update keeps one active order per shopkeeper when the order was already active, or when it moves the order to `entregado` |
| CicloVida.ActualizacionSaltaPasos | nuevastecnologias-parcial2-main/backend/controllers/pedidoController.js:634-673 | a supplier may move an order from `asignacion` straight to `entregado`, which is not an edge of the lifecycle graph |
| CicloVida.ActualizacionReactiva | nuevastecnologias-parcial2-main/backend/controllers/pedidoController.js:645-673 | a supplier may bring a received order back to `despacho` while its shopkeeper has a new active order, leaving two active orders for one shopkeeper |
| Auth.ExtraerToken | nuevastecnologias-parcial2-main/backend/middleware/auth.js:17-19 | a header that starts with `Bearer ` gives the rest of the header as the token; any other header is the token itself |
| Auth.ExtraerTokenBearer | nuevastecnologias-parcial2-main/backend/middleware/auth.js:17-19 | a token sent as `Bearer <token>` is read back unchanged |
| Auth.TokenDeCabecera | nuevastecnologias-parcial2-main/backend/middleware/auth.js:8-26 | a missing or empty header is refused as "token required"; the header `Bearer ` alone is refused as "token not valid"; every other header succeeds with a non-empty token, which is passed on to verification |
| Auth.VerificarToken | nuevastecnologias-parcial2-main/backend/middleware/auth.js:6-66 | a request is authenticated exactly when the token is present, verifies, and names an existing active user; an invalid token, an expired token and an unknown user each have their own refusal, and every refusal is answered with 401 (`Status`) |
| Auth.RequireRole | nuevastecnologias-parcial2-main/backend/middleware/auth.js:69-90 | no user is refused with 401; a user whose role is not listed is refused with 403 (`Status`), and the refusal carries that role and the list; otherwise the request goes on with that user |
| Auth.InstanciasDeRol | nuevastecnologias-parcial2-main/backend/middleware/auth.js:93-97 | each of the five route guards admits a user exactly when the user has one of the guard's roles |
| Auth.UnoComoLista | nuevastecnologias-parcial2-main/backend/middleware/auth.js:78 | a guard given one role behaves the same as a guard given a list with only that role, as `Normalizar` treats it |
| Auth.RequireRoleMonotono | nuevastecnologias-parcial2-main/backend/middleware/auth.js:80-86 | a guard with more roles admits every user a guard with fewer roles admits |
| Escenario.CicloCompleto | nuevastecnologias-parcial2-main/backend/controllers/pedidoController.js:15-689 | the whole lifecycle of one order: an order for 3 × 10.00 and 1 × 5.00 totals 35.00. After the first product is received the order is still `entregado`, after the second it is `recibido`, and the shopkeeper's next order is then accepted |

## Left out

- JWT signing and verification, password hashing, login and registration are
  not modelled. Token verification is a parameter of `Auth.VerificarToken`:
  valid with a user id, invalid, or expired.
- Routing, the HTTP server and JSON formatting are not modelled. Which guard
  protects which route is not part of this model.
- The 500 answers for database or runtime failures are not modelled. Each
  endpoint is one atomic step that either refuses or completes.
- Two concurrent requests are not modelled. In particular, two `createPedido`
  calls for one shopkeeper can both pass the active-order check.
- Listings are not ordered by `fecha_pedido`. The listing of
  `PedidoController.Listar` comes in row order, so it is the same orders in a
  different order. Its contents and its statistics do not depend on the order.
- Order totals and prices as floating point with two decimals are not
  modelled. Money is integer cents.
- `getMisPedidos`, `getPedidosAsignados`, `findByTendero` and
  `findByIdWithDetails` are read-only listings outside the modelled core.
- Zone names come from a join with the `zonas` table, which is not part of
  this model. They are a function parameter, `nombreZona`, and every order's
  zone is assumed to exist.
- Users and products are passed in as table contents: `usuarios` holds the
  active users, and `catalogo` holds the product rows.
- Request values whose JSON type is unexpected are not modelled. These include
  a non-numeric quantity, an id sent as a string, and a `pedidos_ids` that is
  not an array. Quantities are integers and ids are naturals.
- `affectedRows` is taken to be the number of rows matched. With that reading,
  `PedidoController.ActualizarEstadoPedido` can never fail with
  `NoSePudoActualizar`, because the order was found just before the update.
- `SUM(recibido)` is taken to compare equal to `COUNT(*)` when the counts
  agree. The database driver's number types are not part of this model. MySQL
  returns `SUM` of an integer column as DECIMAL, and a driver that hands
  DECIMAL back as a string would make `total === recibidos` always false. In
  that case no order would ever reach `recibido`. The model does not capture
  that outcome.
- PedidoController.Listar: the state filter compares state names exactly,
  case included. In SQL, `p.estado = ?` follows the column's collation, which
  is not part of this model. Under MySQL's default case-insensitive collation
  a filter such as `Pendiente` would also list the `pendiente` orders.
- `Pedido.create` reads the time itself. In the model it is the parameter
  `ahora`.
- `PedidoController.AsignarProveedor` reports the number of ids requested,
  as the code does, not the number of orders changed.
