/** One order through its whole lifecycle, from creation by a shopkeeper to
    full reception, followed by the shopkeeper's next order. Prices are in
    cents: 10.00 is 1000. */
module Escenario {
  import opened Wrappers
  import opened Estados
  import opened Colecciones
  import opened Entidades
  import opened PedidoModelo
  import opened PedidoController

  const TENDERO: Id := 10
  const PROVEEDOR: Id := 20
  const CATALOGO := [Producto(1, 1000, true), Producto(2, 500, true)]
  const LINEAS := [LineaPedido(1, 3), LineaPedido(2, 1)]
  const LINEAS_GUARDADAS := [Detalle(1, 3, 1000, 3000, false), Detalle(2, 1, 500, 500, false)]

  /** The order total: the sum of its line subtotals. */
  function Total(ds: seq<Detalle>): int
  {
    if ds == [] then 0 else ds[0].subtotal + Total(ds[1..])
  }

  /** The store holding only the scenario's order, in the given state. */
  function Solo(id: Id, estado: Estado, proveedor: Option<Id>, ds: seq<Detalle>): map<Id, Pedido>
  {
    map[id := Pedido(TENDERO, 1, estado, 0, PLAZO_HORAS, proveedor, ds)]
  }

  /** The shopkeeper orders 3 of product 1 and 1 of product 2 at hour 0. */
  method Crear(store: Store) returns (id: Id)
    requires store.Valid() && store.pedidos == map[] && store.filas == []
    modifies store
    ensures store.Valid() && store.pedidos == Solo(id, Pendiente, None, LINEAS_GUARDADAS)
  {
    assert CATALOGO[0] in CATALOGO && CATALOGO[1] in CATALOGO;
    assert IdsPedidos(LINEAS) == [1, 2];
    var creado := CreatePedido(store, Usuario(TENDERO, "tendero", Some(1)), LINEAS, CATALOGO, 0);
    assert creado.Success?;
    id := creado.value;
    var ds := store.pedidos[id].detalles;
    forall i | 0 <= i < 2 ensures ds[i] == LINEAS_GUARDADAS[i] {
      assert PrecioVigente(CATALOGO, LINEAS[i].producto, ds[i].precioUnitario);
    }
    assert ds == LINEAS_GUARDADAS;
  }

  /** The platform consolidates the order, assigns the supplier and dispatches. */
  method Preparar(store: Store, id: Id)
    requires store.Valid() && store.pedidos == Solo(id, Pendiente, None, LINEAS_GUARDADAS)
    modifies store
    ensures store.Valid() && store.pedidos == Solo(id, Despacho, Some(PROVEEDOR), LINEAS_GUARDADAS)
  {
    var consolidado := ConsolidarPedidos(store, [id], (z: Id) => "Zona Norte");
    assert store.pedidos == Solo(id, Consolidacion, None, LINEAS_GUARDADAS);
    var asignado := AsignarProveedor(store, [id], Some(PROVEEDOR), map[PROVEEDOR := Usuario(PROVEEDOR, "proveedor", None)]);
    assert store.pedidos == Solo(id, Asignacion, Some(PROVEEDOR), LINEAS_GUARDADAS);
    var despachados := DespacharPedidos(store, [id]);
  }

  /** The supplier ships the order and then delivers it. */
  method Entregar(store: Store, id: Id)
    requires store.Valid() && store.pedidos == Solo(id, Despacho, Some(PROVEEDOR), LINEAS_GUARDADAS)
    modifies store
    ensures store.Valid() && store.pedidos == Solo(id, Entregado, Some(PROVEEDOR), LINEAS_GUARDADAS)
  {
    var enviado := ActualizarEstadoPedido(store, id, Some("enviado"), PROVEEDOR);
    assert store.pedidos == Solo(id, Enviado, Some(PROVEEDOR), LINEAS_GUARDADAS);
    var entregado := ActualizarEstadoPedido(store, id, Some("entregado"), PROVEEDOR);
  }

  /** The shopkeeper receives product 1: product 2 is still outstanding. */
  method RecibirPrimero(store: Store, id: Id) returns (r: Result<Recepcion, Error>)
    requires store.Valid() && store.pedidos == Solo(id, Entregado, Some(PROVEEDOR), LINEAS_GUARDADAS)
    modifies store
    ensures r == Success(Recepcion(false, false))
    ensures store.Valid() && store.pedidos == Solo(id, Entregado, Some(PROVEEDOR), Marcar(LINEAS_GUARDADAS, 1))
  {
    assert TieneProducto(store.pedidos[id], 1) by { assert LINEAS_GUARDADAS[0].producto == 1; }
    MarcarPendiente(LINEAS_GUARDADAS, 1, 1);
    r := MarcarProductoRecibido(store, id, Some(1), TENDERO);
  }

  /** The shopkeeper receives product 2, the last one: the order is received. */
  method RecibirSegundo(store: Store, id: Id) returns (r: Result<Recepcion, Error>)
    requires store.Valid() && store.pedidos == Solo(id, Entregado, Some(PROVEEDOR), Marcar(LINEAS_GUARDADAS, 1))
    modifies store
    ensures r == Success(Recepcion(true, true))
    ensures store.Valid() && store.pedidos.Keys == {id} && store.pedidos[id].estado == Recibido
  {
    var ds := Marcar(LINEAS_GUARDADAS, 1);
    assert TieneProducto(store.pedidos[id], 2) by { assert ds[1].producto == 2; }
    MarcarUltimo(ds, 2);
    r := MarcarProductoRecibido(store, id, Some(2), TENDERO);
  }

  /** With its only order received, the shopkeeper may order again. */
  method PedirDeNuevo(store: Store, id: Id) returns (r: Result<Id, Error>)
    requires store.Valid() && store.pedidos.Keys == {id} && store.pedidos[id].estado == Recibido
    modifies store
    ensures r.Success?
  {
    assert CATALOGO[0] in CATALOGO && CATALOGO[1] in CATALOGO;
    assert IdsPedidos(LINEAS) == [1, 2];
    r := CreatePedido(store, Usuario(TENDERO, "tendero", Some(1)), LINEAS, CATALOGO, 100);
  }

  /** The whole scenario: the order totals 35.00, stays delivered after the
      first reception, is received after the second, and a new order is then
      accepted. */
  method CicloCompleto() returns (total: int, trasPrimero: Estado, trasSegundo: Estado, nuevo: Result<Id, Error>)
    ensures total == 3500
    ensures trasPrimero == Entregado && trasSegundo == Recibido
    ensures nuevo.Success?
  {
    var store := new Store();
    var id := Crear(store);
    total := Total(store.pedidos[id].detalles);
    Preparar(store, id);
    Entregar(store, id);
    var primero := RecibirPrimero(store, id);
    trasPrimero := store.pedidos[id].estado;
    var segundo := RecibirSegundo(store, id);
    trasSegundo := store.pedidos[id].estado;
    nuevo := PedirDeNuevo(store, id);
  }
}
