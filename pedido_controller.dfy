/** The order workflow endpoints (`controllers/pedidoController.js`). Each
    endpoint is one atomic step on the store; its JSON error responses become
    `Failure` values and leave the store as it was. */
module PedidoController {
  import opened Wrappers
  import opened Estados
  import opened Colecciones
  import opened Entidades
  import opened PedidoModelo

  datatype Error =
    | ZonaNoAsignada
    | PedidoActivoExistente(id: Id, estado: Estado, fechaPedido: int)
    | SinProductos
    | CantidadInvalida
    | ProductosInvalidos
    | ProductoRequerido
    | PedidoNoEncontrado
    | AccesoDenegado
    | EstadoNoEntregado(estadoActual: Estado)
    | NoSePudoMarcar
    | SinPedidos
    | PedidosInvalidos
    | ZonasDiferentes(zonaRequerida: string)
    | EstadosInvalidos
    | SinProveedor
    | ProveedorNoEncontrado
    | RolInvalido
    | EstadoRequerido
    | EstadoNoPermitido
    | NoSePudoActualizar

  /** The HTTP status each error is sent with. */
  function Status(e: Error): int
  {
    match e
    case PedidoNoEncontrado => 404
    case ProveedorNoEncontrado => 404
    case AccesoDenegado => 403
    case _ => 400
  }

  /** A requested line `{producto_id, cantidad}`. */
  datatype LineaPedido = LineaPedido(producto: Id, cantidad: int)

  /** JavaScript's `!s` on an optional string: absent, null or empty. */
  predicate FaltaTexto(s: Option<string>)
  {
    s.None? || s.value == ""
  }

  // ------------------------------------------------------------------
  // createPedido
  // ------------------------------------------------------------------

  /** The quantity loop: every `cantidad` must be above zero (`!cantidad` on
      an integer is the zero case). */
  method CantidadesValidas(productos: seq<LineaPedido>) returns (ok: bool)
    ensures ok <==> forall i :: 0 <= i < |productos| ==> productos[i].cantidad > 0
  {
    for i := 0 to |productos|
      invariant forall j :: 0 <= j < i ==> productos[j].cantidad > 0
    {
      if productos[i].cantidad <= 0 {
        return false;
      }
    }
    return true;
  }

  /** `productos.map(p => p.producto_id)` */
  function IdsPedidos(productos: seq<LineaPedido>): (r: seq<Id>)
    ensures |r| == |productos|
    ensures forall i :: 0 <= i < |r| ==> r[i] == productos[i].producto
  {
    seq(|productos|, i requires 0 <= i < |productos| => productos[i].producto)
  }

  /** The unit price of product `id` is `precio` in the catalogue, for an
      active product. */
  ghost predicate PrecioVigente(catalogo: seq<Producto>, id: Id, precio: int)
  {
    exists p :: p in catalogo && p.activo && p.id == id && p.precioBase == precio
  }

  /** Each requested line with the price of the product found for it. */
  function ConPrecios(productos: seq<LineaPedido>, productosDB: seq<Producto>): (r: seq<LineaConPrecio>)
    requires forall i :: 0 <= i < |productos| ==> Buscar(productosDB, productos[i].producto).Some?
    ensures |r| == |productos|
    ensures forall i :: 0 <= i < |productos| ==>
              r[i].producto == productos[i].producto && r[i].cantidad == productos[i].cantidad &&
              exists p :: p in productosDB && p.id == productos[i].producto && p.precioBase == r[i].precioUnitario
  {
    seq(|productos|, i requires 0 <= i < |productos| =>
      LineaConPrecio(productos[i].producto, productos[i].cantidad, Buscar(productosDB, productos[i].producto).value.precioBase))
  }

  /** Every requested product resolves, once, to an active product. */
  ghost predicate Resuelven(catalogo: seq<Producto>, productos: seq<LineaPedido>)
  {
    && Distintos(IdsPedidos(productos))
    && forall i :: 0 <= i < |productos| ==> exists p :: p in catalogo && p.activo && p.id == productos[i].producto
  }

  /** All of `createPedido`'s checks pass. */
  ghost predicate PuedeCrear(ps: map<Id, Pedido>, filas: seq<Id>, usuario: Usuario,
                             productos: seq<LineaPedido>, catalogo: seq<Producto>)
    requires forall k :: k in filas ==> k in ps
  {
    && !Falta(usuario.zona)
    && MasRecienteActivo(ps, filas, usuario.id).None?
    && productos != []
    && (forall i :: 0 <= i < |productos| ==> productos[i].cantidad > 0)
    && Resuelven(catalogo, productos)
  }

  /** The order `createPedido` stores. */
  ghost predicate PedidoNuevo(p: Pedido, usuario: Usuario, productos: seq<LineaPedido>,
                              catalogo: seq<Producto>, ahora: int)
    requires usuario.zona.Some?
  {
    && p.tendero == usuario.id && p.zona == usuario.zona.value
    && p.estado == Pendiente && p.proveedor == None
    && p.fechaPedido == ahora && p.fechaLimite == ahora + PLAZO_HORAS
    && |p.detalles| == |productos|
    && forall i :: 0 <= i < |productos| ==>
         && p.detalles[i].producto == productos[i].producto
         && p.detalles[i].cantidad == productos[i].cantidad
         && PrecioVigente(catalogo, productos[i].producto, p.detalles[i].precioUnitario)
         && p.detalles[i].subtotal == p.detalles[i].cantidad * p.detalles[i].precioUnitario
         && !p.detalles[i].recibido
  }

  /** `createPedido` for the shopkeeper `usuario` at time `ahora`. */
  method CreatePedido(store: Store, usuario: Usuario, productos: seq<LineaPedido>,
                      catalogo: seq<Producto>, ahora: int) returns (r: Result<Id, Error>)
    requires store.Valid() && CatalogoValido(catalogo)
    modifies store
    ensures store.Valid()
    ensures r.Failure? ==>
              store.pedidos == old(store.pedidos) && store.filas == old(store.filas) && store.siguienteId == old(store.siguienteId)
    ensures Falta(usuario.zona) ==> r == Failure(ZonaNoAsignada)
    ensures !Falta(usuario.zona) && old(store.FindActivePedidoByTendero(usuario.id)).Some? ==>
              var a := old(store.FindActivePedidoByTendero(usuario.id)).value;
              r == Failure(PedidoActivoExistente(a, old(store.pedidos)[a].estado, old(store.pedidos)[a].fechaPedido))
    ensures !Falta(usuario.zona) && old(store.FindActivePedidoByTendero(usuario.id)).None? && productos == [] ==>
              r == Failure(SinProductos)
    ensures !Falta(usuario.zona) && old(store.FindActivePedidoByTendero(usuario.id)).None? && productos != [] &&
            (exists i :: 0 <= i < |productos| && productos[i].cantidad <= 0) ==>
              r == Failure(CantidadInvalida)
    ensures !Falta(usuario.zona) && old(store.FindActivePedidoByTendero(usuario.id)).None? && productos != [] &&
            (forall i :: 0 <= i < |productos| ==> productos[i].cantidad > 0) && !Resuelven(catalogo, productos) ==>
              r == Failure(ProductosInvalidos)
    ensures r.Failure? ==> Status(r.error) == 400
    ensures r.Success? <==> PuedeCrear(old(store.pedidos), old(store.filas), usuario, productos, catalogo)
    ensures r.Success? ==>
              && r.value !in old(store.pedidos) && r.value in store.pedidos
              && store.filas == old(store.filas) + [r.value]
              && r.value == old(store.siguienteId) && store.siguienteId == old(store.siguienteId) + 1
              && store.pedidos == old(store.pedidos)[r.value := store.pedidos[r.value]]
              && PedidoNuevo(store.pedidos[r.value], usuario, productos, catalogo, ahora)
  {
    if Falta(usuario.zona) {
      return Failure(ZonaNoAsignada);
    }
    var activo := store.FindActivePedidoByTendero(usuario.id);
    if activo.Some? {
      var a := store.pedidos[activo.value];
      return Failure(PedidoActivoExistente(activo.value, a.estado, a.fechaPedido));
    }
    if productos == [] {
      return Failure(SinProductos);
    }
    var cantidadesOk := CantidadesValidas(productos);
    if !cantidadesOk {
      return Failure(CantidadInvalida);
    }
    var ids := IdsPedidos(productos);
    var productosDB := FindByIds(catalogo, ids);
    ProductosResueltos(catalogo, ids);
    if |productosDB| != |productos| {
      assert !Resuelven(catalogo, productos);
      return Failure(ProductosInvalidos);
    }
    forall i | 0 <= i < |productos|
      ensures Buscar(productosDB, productos[i].producto).Some?
      ensures exists p :: p in catalogo && p.activo && p.id == productos[i].producto
    {
      assert ids[i] in ids;
      var p :| p in catalogo && p.activo && p.id == ids[i];
      assert p in productosDB;
    }
    assert forall i :: 0 <= i < |productos| ==> exists p :: p in catalogo && p.activo && p.id == productos[i].producto;
    assert Resuelven(catalogo, productos);
    var lineas := ConPrecios(productos, productosDB);
    var id := store.Create(usuario.id, usuario.zona.value, lineas, ahora);
    forall i | 0 <= i < |productos|
      ensures PrecioVigente(catalogo, productos[i].producto, store.pedidos[id].detalles[i].precioUnitario)
    {
      assert DetalleDeLinea(store.pedidos[id].detalles[i], lineas[i]);
      var p :| p in productosDB && p.id == productos[i].producto && p.precioBase == lineas[i].precioUnitario;
    }
    return Success(id);
  }

  // ------------------------------------------------------------------
  // marcarProductoRecibido
  // ------------------------------------------------------------------

  datatype Recepcion = Recepcion(pedidoCompletado: bool, puedeCrearNuevoPedido: bool)

  /** The order has a line for that product. */
  predicate TieneProducto(p: Pedido, producto: Id)
  {
    exists i :: 0 <= i < |p.detalles| && p.detalles[i].producto == producto
  }

  /** The shopkeeper `tendero` marks one product of order `pedidoId` received. */
  method MarcarProductoRecibido(store: Store, pedidoId: Id, productoId: Option<Id>, tendero: Id)
    returns (r: Result<Recepcion, Error>)
    requires store.Valid()
    modifies store
    ensures store.Valid() && store.filas == old(store.filas) && store.siguienteId == old(store.siguienteId)
    ensures r.Failure? ==> store.pedidos == old(store.pedidos)
    ensures Falta(productoId) ==> r == Failure(ProductoRequerido)
    ensures !Falta(productoId) && pedidoId !in old(store.pedidos) ==>
              r == Failure(PedidoNoEncontrado) && Status(r.error) == 404
    ensures !Falta(productoId) && pedidoId in old(store.pedidos) && old(store.pedidos)[pedidoId].tendero != tendero ==>
              r == Failure(AccesoDenegado) && Status(r.error) == 403
    ensures r.Failure? && r.error != PedidoNoEncontrado && r.error != AccesoDenegado ==> Status(r.error) == 400
    ensures !Falta(productoId) && pedidoId in old(store.pedidos) && old(store.pedidos)[pedidoId].tendero == tendero &&
            old(store.pedidos)[pedidoId].estado != Entregado ==>
              r == Failure(EstadoNoEntregado(old(store.pedidos)[pedidoId].estado))
    ensures !Falta(productoId) && pedidoId in old(store.pedidos) && old(store.pedidos)[pedidoId].tendero == tendero &&
            old(store.pedidos)[pedidoId].estado == Entregado && !TieneProducto(old(store.pedidos)[pedidoId], productoId.value) ==>
              r == Failure(NoSePudoMarcar)
    ensures r.Success? <==>
              !Falta(productoId) && pedidoId in old(store.pedidos) && old(store.pedidos)[pedidoId].tendero == tendero &&
              old(store.pedidos)[pedidoId].estado == Entregado && TieneProducto(old(store.pedidos)[pedidoId], productoId.value)
    ensures r.Success? ==>
              var ds := Marcar(old(store.pedidos)[pedidoId].detalles, productoId.value);
              && store.pedidos == old(store.pedidos)[pedidoId := old(store.pedidos)[pedidoId].(
                                     detalles := ds, estado := if TodosRecibidos(ds) then Recibido else Entregado)]
              && r.value.pedidoCompletado == TodosRecibidos(ds)
              && r.value.puedeCrearNuevoPedido == TodosRecibidos(ds)
  {
    if Falta(productoId) {
      return Failure(ProductoRequerido);
    }
    if pedidoId !in store.pedidos {
      return Failure(PedidoNoEncontrado);
    }
    var pedido := store.pedidos[pedidoId];
    if pedido.tendero != tendero {
      return Failure(AccesoDenegado);
    }
    if pedido.estado != Entregado {
      return Failure(EstadoNoEntregado(pedido.estado));
    }
    var marcado := store.MarcarProductoRecibido(pedidoId, productoId.value);
    if !marcado {
      assert Marcar(pedido.detalles, productoId.value) == pedido.detalles;
      return Failure(NoSePudoMarcar);
    }
    var todosRecibidos := store.TodosProductosRecibidos(pedidoId);
    TodosRecibidosSii(store.pedidos[pedidoId].detalles);
    if todosRecibidos {
      var _ := store.UpdateEstado(pedidoId, Recibido);
    }
    return Success(Recepcion(todosRecibidos, todosRecibidos));
  }

  // ------------------------------------------------------------------
  // Batch updates shared by consolidation, assignment and dispatch
  // ------------------------------------------------------------------

  /** The store after `UPDATE pedidos SET estado = e WHERE id IN (ids)`. */
  ghost function ConEstado(ps: map<Id, Pedido>, ids: seq<Id>, e: Estado): map<Id, Pedido>
  {
    map k | k in ps :: if k in ids then ps[k].(estado := e) else ps[k]
  }

  /** The store after `UPDATE pedidos SET proveedor_id = prov, estado = 'asignacion' WHERE id IN (ids)`. */
  ghost function ConProveedor(ps: map<Id, Pedido>, ids: seq<Id>, prov: Id): map<Id, Pedido>
  {
    map k | k in ps :: if k in ids then ps[k].(estado := Asignacion, proveedor := Some(prov)) else ps[k]
  }

  /** The store after `UPDATE pedidos SET estado = 'despacho' WHERE id IN (ids) AND estado = 'asignacion'`. */
  ghost function Despachados(ps: map<Id, Pedido>, ids: seq<Id>): map<Id, Pedido>
  {
    map k | k in ps :: if k in ids && ps[k].estado == Asignacion then ps[k].(estado := Despacho) else ps[k]
  }

  lemma ConEstadoPaso(ps: map<Id, Pedido>, ids: seq<Id>, i: nat, e: Estado)
    requires i < |ids| && ids[i] in ps
    ensures var m := ConEstado(ps, ids[..i], e);
            ids[i] in m && ConEstado(ps, ids[..i + 1], e) == m[ids[i] := m[ids[i]].(estado := e)]
  {
    assert ids[..i + 1] == ids[..i] + [ids[i]];
  }

  lemma ConProveedorPaso(ps: map<Id, Pedido>, ids: seq<Id>, i: nat, prov: Id)
    requires i < |ids|
    ensures var m := ConProveedor(ps, ids[..i], prov);
            ConProveedor(ps, ids[..i + 1], prov) ==
              if ids[i] in m then m[ids[i] := m[ids[i]].(estado := Asignacion, proveedor := Some(prov))] else m
  {
    assert ids[..i + 1] == ids[..i] + [ids[i]];
  }

  /** One more id: the row moves, and is counted, only when it is still in
      `asignacion`, which a repeated id no longer is. */
  lemma DespachadosPaso(ps: map<Id, Pedido>, ids: seq<Id>, i: nat)
    requires i < |ids|
    ensures var m := Despachados(ps, ids[..i]);
            var mueve := ids[i] in m && m[ids[i]].estado == Asignacion;
            && Despachados(ps, ids[..i + 1]) == (if mueve then m[ids[i] := m[ids[i]].(estado := Despacho)] else m)
            && |PorDespachar(ps, ids[..i + 1])| == |PorDespachar(ps, ids[..i])| + (if mueve then 1 else 0)
  {
    var id := ids[i];
    assert ids[..i + 1] == ids[..i] + [id];
    var m := Despachados(ps, ids[..i]);
    var antes := PorDespachar(ps, ids[..i]);
    if id in m && m[id].estado == Asignacion {
      assert id !in antes;
      assert PorDespachar(ps, ids[..i + 1]) == antes + {id};
    } else {
      assert PorDespachar(ps, ids[..i + 1]) == antes;
    }
  }

  /** All listed orders that exist lie in one zone. */
  ghost predicate MismaZona(ps: map<Id, Pedido>, ids: seq<Id>)
  {
    forall a, b :: a in ids && b in ids && a in ps && b in ps ==> ps[a].zona == ps[b].zona
  }

  // ------------------------------------------------------------------
  // consolidarPedidos
  // ------------------------------------------------------------------

  /** The checks of `consolidarPedidos`, in the order it runs them; `None`
      when all pass. The rows are those the store returns for `ids`. */
  function ErrorConsolidacion(ps: map<Id, Pedido>, filas: seq<Id>, ids: seq<Id>, nombreZona: Id -> string)
    : (r: Option<Error>)
    requires Distintos(filas) && forall k :: k in ps <==> k in filas
    ensures ids == [] ==> r == Some(SinPedidos)
    ensures ids != [] && !(Distintos(ids) && forall k :: k in ids ==> k in ps) ==> r == Some(PedidosInvalidos)
    ensures ids != [] && Distintos(ids) && (forall k :: k in ids ==> k in ps) && !MismaZona(ps, ids) ==>
              r.Some? && r.value.ZonasDiferentes?
    ensures r.Some? && r.value.ZonasDiferentes? ==>
              exists i :: 0 <= i < |filas| && filas[i] in ids && (forall j :: 0 <= j < i ==> filas[j] !in ids) &&
                          r.value.zonaRequerida == nombreZona(ps[filas[i]].zona)
    ensures r.Some? ==> Status(r.value) == 400
    ensures ids != [] && Distintos(ids) && (forall k :: k in ids ==> k in ps) && MismaZona(ps, ids) &&
            !(forall k :: k in ids ==> ps[k].estado == Pendiente) ==>
              r == Some(EstadosInvalidos)
    ensures r.None? <==>
              && ids != []
              && Distintos(ids)
              && (forall k :: k in ids ==> k in ps)
              && MismaZona(ps, ids)
              && (forall k :: k in ids ==> ps[k].estado == Pendiente)
  {
    FiltrarCompleto(filas, ids);
    if ids == [] then Some(SinPedidos)
    else
      var encontrados := Filtrar(filas, ids);
      if |encontrados| != |ids| then Some(PedidosInvalidos)
      else
        FiltrarPrimero(filas, ids);
        var zona := ps[encontrados[0]].zona;
        if !(forall k :: k in encontrados ==> ps[k].zona == zona) then Some(ZonasDiferentes(nombreZona(zona)))
        else if !(forall k :: k in encontrados ==> ps[k].estado == Pendiente) then Some(EstadosInvalidos)
        else None
  }

  datatype Consolidado = Consolidado(pedidosConsolidados: nat, zona: string)

  /** `consolidarPedidos`: an all-or-nothing move of the listed orders from
      `pendiente` to `consolidacion`. */
  method ConsolidarPedidos(store: Store, ids: seq<Id>, nombreZona: Id -> string) returns (r: Result<Consolidado, Error>)
    requires store.Valid()
    modifies store
    ensures store.Valid() && store.filas == old(store.filas) && store.siguienteId == old(store.siguienteId)
    ensures var e := ErrorConsolidacion(old(store.pedidos), old(store.filas), ids, nombreZona);
            && (e.Some? ==> r == Failure(e.value) && Status(r.error) == 400 && store.pedidos == old(store.pedidos))
            && (e.None? ==> && r == Success(Consolidado(|ids|, nombreZona(old(store.pedidos)[ids[0]].zona)))
                            && store.pedidos == ConEstado(old(store.pedidos), ids, Consolidacion))
  {
    var error := ErrorConsolidacion(store.pedidos, store.filas, ids, nombreZona);
    if error.Some? {
      return Failure(error.value);
    }
    var zona := store.pedidos[ids[0]].zona;
    var ps := store.pedidos;
    var i := 0;
    while i < |ids|
      invariant 0 <= i <= |ids|
      invariant ps == ConEstado(store.pedidos, ids[..i], Consolidacion)
      modifies {}
    {
      assert ids[i] in ids;
      ConEstadoPaso(store.pedidos, ids, i, Consolidacion);
      var id := ids[i];
      ps := ps[id := ps[id].(estado := Consolidacion)];
      i := i + 1;
    }
    assert ids[..i] == ids;
    store.pedidos := ps;
    return Success(Consolidado(|ids|, nombreZona(zona)));
  }

  // ------------------------------------------------------------------
  // asignarProveedor
  // ------------------------------------------------------------------

  /** The checks of `asignarProveedor`, in order; `None` when all pass. Ids
      that match no order are not reported. */
  function ErrorAsignacion(ps: map<Id, Pedido>, filas: seq<Id>, ids: seq<Id>,
                           proveedorId: Option<Id>, usuarios: map<Id, Usuario>): (r: Option<Error>)
    requires forall k :: k in filas ==> k in ps
    ensures ids == [] ==> r == Some(SinPedidos)
    ensures ids != [] && Falta(proveedorId) ==> r == Some(SinProveedor)
    ensures ids != [] && !Falta(proveedorId) && proveedorId.value !in usuarios ==> r == Some(ProveedorNoEncontrado)
    ensures ids != [] && !Falta(proveedorId) && proveedorId.value in usuarios &&
            usuarios[proveedorId.value].rol != "proveedor" ==>
              r == Some(RolInvalido)
    ensures ids != [] && !Falta(proveedorId) && proveedorId.value in usuarios &&
            usuarios[proveedorId.value].rol == "proveedor" &&
            !(forall k :: k in ids && k in filas ==> ps[k].estado == Consolidacion) ==>
              r == Some(EstadosInvalidos)
    ensures r.Some? ==> Status(r.value) == (if r.value.ProveedorNoEncontrado? then 404 else 400)
    ensures r.None? <==>
              && ids != []
              && !Falta(proveedorId)
              && proveedorId.value in usuarios
              && usuarios[proveedorId.value].rol == "proveedor"
              && forall k :: k in ids && k in filas ==> ps[k].estado == Consolidacion
  {
    if ids == [] then Some(SinPedidos)
    else if Falta(proveedorId) then Some(SinProveedor)
    else if proveedorId.value !in usuarios then Some(ProveedorNoEncontrado)
    else if usuarios[proveedorId.value].rol != "proveedor" then Some(RolInvalido)
    else
      var encontrados := Filtrar(filas, ids);
      if !(forall k :: k in encontrados ==> ps[k].estado == Consolidacion) then Some(EstadosInvalidos)
      else None
  }

  datatype Asignado = Asignado(proveedor: Id, pedidosAsignados: nat)

  /** `asignarProveedor`: an all-or-nothing move of the listed orders from
      `consolidacion` to `asignacion`, recording the supplier. The count it
      reports is the number of ids requested. */
  method AsignarProveedor(store: Store, ids: seq<Id>, proveedorId: Option<Id>, usuarios: map<Id, Usuario>)
    returns (r: Result<Asignado, Error>)
    requires store.Valid()
    modifies store
    ensures store.Valid() && store.filas == old(store.filas) && store.siguienteId == old(store.siguienteId)
    ensures var e := ErrorAsignacion(old(store.pedidos), old(store.filas), ids, proveedorId, usuarios);
            && (e.Some? ==> r == Failure(e.value) && store.pedidos == old(store.pedidos))
            && (e.None? ==> && r == Success(Asignado(proveedorId.value, |ids|))
                            && store.pedidos == ConProveedor(old(store.pedidos), ids, proveedorId.value))
  {
    var error := ErrorAsignacion(store.pedidos, store.filas, ids, proveedorId, usuarios);
    if error.Some? {
      return Failure(error.value);
    }
    var proveedor := proveedorId.value;
    var ps := store.pedidos;
    var i := 0;
    while i < |ids|
      invariant 0 <= i <= |ids|
      invariant ps == ConProveedor(store.pedidos, ids[..i], proveedor)
      modifies {}
    {
      ConProveedorPaso(store.pedidos, ids, i, proveedor);
      var id := ids[i];
      if id in ps {
        ps := ps[id := ps[id].(estado := Asignacion, proveedor := Some(proveedor))];
      }
      i := i + 1;
    }
    assert ids[..i] == ids;
    store.pedidos := ps;
    return Success(Asignado(proveedor, |ids|));
  }

  // ------------------------------------------------------------------
  // despacharPedidos
  // ------------------------------------------------------------------

  /** The distinct listed orders currently in `asignacion`. */
  ghost function PorDespachar(ps: map<Id, Pedido>, ids: seq<Id>): set<Id>
  {
    set k | k in ids && k in ps && ps[k].estado == Asignacion
  }

  /** `despacharPedidos`: moves those listed orders that are in `asignacion`
      to `despacho`, skips the rest, and reports how many rows changed. */
  method DespacharPedidos(store: Store, ids: seq<Id>) returns (r: Result<nat, Error>)
    requires store.Valid()
    modifies store
    ensures store.Valid() && store.filas == old(store.filas) && store.siguienteId == old(store.siguienteId)
    ensures ids == [] ==> r == Failure(SinPedidos) && Status(r.error) == 400 && store.pedidos == old(store.pedidos)
    ensures ids != [] ==> && r == Success(|PorDespachar(old(store.pedidos), ids)|)
                          && store.pedidos == Despachados(old(store.pedidos), ids)
  {
    if ids == [] {
      return Failure(SinPedidos);
    }
    var ps := store.pedidos;
    var actualizados := 0;
    var i := 0;
    while i < |ids|
      invariant 0 <= i <= |ids|
      invariant ps == Despachados(store.pedidos, ids[..i])
      modifies {}
      invariant actualizados == |PorDespachar(store.pedidos, ids[..i])|
    {
      DespachadosPaso(store.pedidos, ids, i);
      var id := ids[i];
      if id in ps && ps[id].estado == Asignacion {
        ps := ps[id := ps[id].(estado := Despacho)];
        actualizados := actualizados + 1;
      }
      i := i + 1;
    }
    assert ids[..i] == ids;
    store.pedidos := ps;
    return Success(actualizados);
  }

  // ------------------------------------------------------------------
  // actualizarEstadoPedido
  // ------------------------------------------------------------------

  /** All of `actualizarEstadoPedido`'s checks pass. The current state is not
      consulted. */
  predicate ActualizacionPermitida(ps: map<Id, Pedido>, id: Id, estado: Option<string>, proveedor: Id)
  {
    && !FaltaTexto(estado)
    && estado.value in ESTADOS_PROVEEDOR
    && id in ps
    && ps[id].proveedor == Some(proveedor)
  }

  datatype CambioEstado = CambioEstado(pedidoId: Id, estadoAnterior: Estado, estadoNuevo: Estado)

  /** The supplier `proveedor` sets the state of order `id`. */
  method ActualizarEstadoPedido(store: Store, id: Id, estado: Option<string>, proveedor: Id)
    returns (r: Result<CambioEstado, Error>)
    requires store.Valid()
    modifies store
    ensures store.Valid() && store.filas == old(store.filas) && store.siguienteId == old(store.siguienteId)
    ensures r.Failure? ==> store.pedidos == old(store.pedidos)
    ensures FaltaTexto(estado) ==> r == Failure(EstadoRequerido)
    ensures !FaltaTexto(estado) && estado.value !in ESTADOS_PROVEEDOR ==> r == Failure(EstadoNoPermitido)
    ensures !FaltaTexto(estado) && estado.value in ESTADOS_PROVEEDOR && id !in old(store.pedidos) ==>
              r == Failure(PedidoNoEncontrado) && Status(r.error) == 404
    ensures !FaltaTexto(estado) && estado.value in ESTADOS_PROVEEDOR && id in old(store.pedidos) &&
            old(store.pedidos)[id].proveedor != Some(proveedor) ==>
              r == Failure(AccesoDenegado) && Status(r.error) == 403
    ensures r.Failure? && r.error != PedidoNoEncontrado && r.error != AccesoDenegado ==> Status(r.error) == 400
    ensures r.Success? <==> ActualizacionPermitida(old(store.pedidos), id, estado, proveedor)
    ensures r.Success? ==>
              var nuevo := EstadoProveedor(estado.value).value;
              && r.value == CambioEstado(id, old(store.pedidos)[id].estado, nuevo)
              && Nombre(nuevo) == estado.value
              && store.pedidos == old(store.pedidos)[id := old(store.pedidos)[id].(estado := nuevo)]
  {
    if FaltaTexto(estado) {
      return Failure(EstadoRequerido);
    }
    var nuevo := EstadoProveedor(estado.value);
    if nuevo.None? {
      return Failure(EstadoNoPermitido);
    }
    if id !in store.pedidos {
      return Failure(PedidoNoEncontrado);
    }
    var pedido := store.pedidos[id];
    if pedido.proveedor != Some(proveedor) {
      return Failure(AccesoDenegado);
    }
    var actualizado := store.UpdateEstado(id, nuevo.value);
    if !actualizado {
      return Failure(NoSePudoActualizar);
    }
    return Success(CambioEstado(id, pedido.estado, nuevo.value));
  }

  // ------------------------------------------------------------------
  // getTodosPedidos: filters and statistics
  // ------------------------------------------------------------------

  /** The optional zone and state filters of `getTodosPedidos`. Query
      parameters are strings, so only an absent or empty one is falsy: `None`
      stands for both, and a zone filter of 0 is applied like any other. */
  predicate PasaFiltro(p: Pedido, zona: Option<Id>, estado: Option<string>)
  {
    (zona.None? || p.zona == zona.value) && (FaltaTexto(estado) || Nombre(p.estado) == estado.value)
  }

  /** The ids of the rows that pass the filters. */
  ghost function Coinciden(ps: map<Id, Pedido>, filas: seq<Id>, zona: Option<Id>, estado: Option<string>): set<Id>
    requires forall k :: k in filas ==> k in ps
  {
    set k | k in filas && PasaFiltro(ps[k], zona, estado)
  }

  /** The keys of the rows that pass the filters, in row order. */
  function ClavesListadas(ps: map<Id, Pedido>, filas: seq<Id>, zona: Option<Id>, estado: Option<string>): (r: seq<Id>)
    requires forall k :: k in filas ==> k in ps
    ensures forall k :: k in r <==> k in filas && PasaFiltro(ps[k], zona, estado)
  {
    if filas == [] then []
    else
      var resto := ClavesListadas(ps, filas[1..], zona, estado);
      assert forall k :: k in filas <==> k == filas[0] || k in filas[1..];
      (if PasaFiltro(ps[filas[0]], zona, estado) then [filas[0]] else []) + resto
  }

  /** The orders `getTodosPedidos` lists: the rows that pass the filters, in
      row order. */
  function Listar(ps: map<Id, Pedido>, filas: seq<Id>, zona: Option<Id>, estado: Option<string>): (r: seq<Pedido>)
    requires forall k :: k in filas ==> k in ps
    ensures var ks := ClavesListadas(ps, filas, zona, estado);
            |r| == |ks| && forall i :: 0 <= i < |r| ==> ks[i] in ps && r[i] == ps[ks[i]]
    ensures |r| <= |filas|
    ensures forall p :: p in r ==> PasaFiltro(p, zona, estado) && exists k :: k in filas && ps[k] == p
    ensures forall k :: k in filas && PasaFiltro(ps[k], zona, estado) ==> ps[k] in r
  {
    if filas == [] then []
    else
      var p := ps[filas[0]];
      var resto := Listar(ps, filas[1..], zona, estado);
      assert forall k :: k in filas <==> k == filas[0] || k in filas[1..];
      (if PasaFiltro(p, zona, estado) then [p] else []) + resto
  }

  /** Over a table whose keys do not repeat, the listing has one entry per
      matching row. */
  lemma {:induction false} ListarCuenta(ps: map<Id, Pedido>, filas: seq<Id>, zona: Option<Id>, estado: Option<string>)
    requires Distintos(filas) && forall k :: k in filas ==> k in ps
    ensures |Listar(ps, filas, zona, estado)| == |Coinciden(ps, filas, zona, estado)|
  {
    if filas == [] {
      assert Coinciden(ps, filas, zona, estado) == {};
    } else {
      DistintosCola(filas);
      ListarCuenta(ps, filas[1..], zona, estado);
      CoincidenPaso(ps, filas, zona, estado);
    }
  }

  lemma CoincidenPaso(ps: map<Id, Pedido>, filas: seq<Id>, zona: Option<Id>, estado: Option<string>)
    requires filas != [] && forall k :: k in filas ==> k in ps
    requires filas[0] !in filas[1..]
    ensures var antes := Coinciden(ps, filas[1..], zona, estado);
            && filas[0] !in antes
            && Coinciden(ps, filas, zona, estado) ==
                 if PasaFiltro(ps[filas[0]], zona, estado) then antes + {filas[0]} else antes
  {
    assert forall k :: k in filas <==> k == filas[0] || k in filas[1..];
  }

  /** How many listed orders are in state `e`. */
  function ContarEstado(ps: seq<Pedido>, e: Estado): nat
  {
    if ps == [] then 0
    else ContarEstado(ps[..|ps| - 1], e) + (if ps[|ps| - 1].estado == e then 1 else 0)
  }

  /** How many listed orders belong to a zone named `z`. */
  function ContarZona(ps: seq<Pedido>, nombreZona: Id -> string, z: string): nat
  {
    if ps == [] then 0
    else ContarZona(ps[..|ps| - 1], nombreZona, z) + (if nombreZona(ps[|ps| - 1].zona) == z then 1 else 0)
  }

  /** `m` holds, for each state present in `ps`, how many orders are in it. */
  ghost predicate CuentaPorEstado(m: map<Estado, nat>, ps: seq<Pedido>)
  {
    && (forall e :: e in m ==> m[e] == ContarEstado(ps, e) > 0)
    && (forall e :: e !in m ==> ContarEstado(ps, e) == 0)
  }

  /** `m` holds, for each zone name present in `ps`, how many orders are in it. */
  ghost predicate CuentaPorZona(m: map<string, nat>, ps: seq<Pedido>, nombreZona: Id -> string)
  {
    && (forall z :: z in m ==> m[z] == ContarZona(ps, nombreZona, z) > 0)
    && (forall z :: z !in m ==> ContarZona(ps, nombreZona, z) == 0)
  }

  /** One more listed order adds one to its own state's counter. */
  lemma PasoPorEstado(listado: seq<Pedido>, i: nat, m: map<Estado, nat>)
    requires i < |listado|
    requires CuentaPorEstado(m, listado[..i])
    ensures CuentaPorEstado(Incrementar(m, listado[i].estado), listado[..i + 1])
  {
    assert listado[..i + 1][..i] == listado[..i];
  }

  /** One more listed order adds one to its own zone's counter. */
  lemma PasoPorZona(listado: seq<Pedido>, nombreZona: Id -> string, i: nat, m: map<string, nat>)
    requires i < |listado|
    requires CuentaPorZona(m, listado[..i], nombreZona)
    ensures var z := nombreZona(listado[i].zona);
            CuentaPorZona(Incrementar(m, z), listado[..i + 1], nombreZona)
  {
    assert listado[..i + 1][..i] == listado[..i];
  }

  datatype Estadisticas = Estadisticas(totalPedidos: nat, porEstado: map<Estado, nat>, porZona: map<string, nat>)

  /** The `forEach` that fills the `por_estado` and `por_zona` counters. */
  method CalcularEstadisticas(listado: seq<Pedido>, nombreZona: Id -> string) returns (s: Estadisticas)
    ensures s.totalPedidos == |listado|
    ensures SumaValores(s.porEstado) == s.totalPedidos
    ensures SumaValores(s.porZona) == s.totalPedidos
    ensures CuentaPorEstado(s.porEstado, listado)
    ensures CuentaPorZona(s.porZona, listado, nombreZona)
  {
    var porEstado: map<Estado, nat> := map[];
    var porZona: map<string, nat> := map[];
    var i := 0;
    assert listado[..0] == [];
    while i < |listado|
      invariant 0 <= i <= |listado|
      invariant SumaValores(porEstado) == i && SumaValores(porZona) == i
      invariant CuentaPorEstado(porEstado, listado[..i])
      invariant CuentaPorZona(porZona, listado[..i], nombreZona)
    {
      var p := listado[i];
      PasoPorEstado(listado, i, porEstado);
      PasoPorZona(listado, nombreZona, i, porZona);
      porEstado := Incrementar(porEstado, p.estado);
      porZona := Incrementar(porZona, nombreZona(p.zona));
      i := i + 1;
    }
    assert listado[..i] == listado;
    return Estadisticas(i, porEstado, porZona);
  }

  /** `getTodosPedidos`: the filtered listing and its statistics. */
  method GetTodosPedidos(store: Store, zona: Option<Id>, estado: Option<string>, nombreZona: Id -> string)
    returns (listado: seq<Pedido>, s: Estadisticas)
    requires store.Valid()
    ensures listado == Listar(store.pedidos, store.filas, zona, estado)
    ensures s.totalPedidos == |listado|
    ensures SumaValores(s.porEstado) == s.totalPedidos && SumaValores(s.porZona) == s.totalPedidos
    ensures s.totalPedidos == |Coinciden(store.pedidos, store.filas, zona, estado)|
    ensures CuentaPorEstado(s.porEstado, listado) && CuentaPorZona(s.porZona, listado, nombreZona)
  {
    listado := Listar(store.pedidos, store.filas, zona, estado);
    ListarCuenta(store.pedidos, store.filas, zona, estado);
    s := CalcularEstadisticas(listado, nombreZona);
  }
}
