/** The order model (`models/Pedido.js`): an order row with its detail lines,
    kept in an in-memory store that stands for the `pedidos` and
    `pedido_detalles` tables. Prices are integer cents, times integer hours. */
module PedidoModelo {
  import opened Wrappers
  import opened Estados
  import opened Colecciones
  import opened Entidades

  /** Hours from an order's creation to its consolidation deadline. */
  const PLAZO_HORAS: int := 72

  /** A `pedido_detalles` row. */
  datatype Detalle = Detalle(producto: Id, cantidad: int, precioUnitario: int, subtotal: int, recibido: bool)

  /** A `pedidos` row together with its detail rows. */
  datatype Pedido = Pedido(
    tendero: Id,
    zona: Id,
    estado: Estado,
    fechaPedido: int,
    fechaLimite: int,
    proveedor: Option<Id>,
    detalles: seq<Detalle>)

  /** A requested product line with the unit price copied from the catalogue. */
  datatype LineaConPrecio = LineaConPrecio(producto: Id, cantidad: int, precioUnitario: int)

  /** The detail row `create` inserts for one product line. */
  predicate DetalleDeLinea(d: Detalle, l: LineaConPrecio)
  {
    && d.producto == l.producto
    && d.cantidad == l.cantidad
    && d.precioUnitario == l.precioUnitario
    && d.subtotal == l.cantidad * l.precioUnitario
    && !d.recibido
  }

  predicate EsActivoDe(p: Pedido, tendero: Id)
  {
    p.tendero == tendero && Activo(p.estado)
  }

  /** The active order of `tendero` with the latest `fechaPedido` among the
      rows `filas` (`ORDER BY fecha_pedido DESC LIMIT 1`; among equal dates
      any one may come back, and this one keeps the last such row in row
      order). */
  function MasRecienteActivo(ps: map<Id, Pedido>, filas: seq<Id>, tendero: Id): (r: Option<Id>)
    requires forall k :: k in filas ==> k in ps
    ensures r.Some? ==> r.value in filas && EsActivoDe(ps[r.value], tendero)
    ensures r.Some? ==> forall k :: k in filas && EsActivoDe(ps[k], tendero) ==>
                          ps[k].fechaPedido <= ps[r.value].fechaPedido
    ensures r.None? ==> forall k :: k in filas ==> !EsActivoDe(ps[k], tendero)
  {
    if filas == [] then None
    else
      var resto := MasRecienteActivo(ps, filas[1..], tendero);
      var k := filas[0];
      assert forall j :: j in filas <==> j == k || j in filas[1..];
      if !EsActivoDe(ps[k], tendero) then resto
      else if resto.Some? && ps[k].fechaPedido <= ps[resto.value].fechaPedido then resto
      else Some(k)
  }

  /** `SUM(recibido)` over an order's detail rows: NULL when there are none. */
  function SumaRecibido(ds: seq<Detalle>): (r: Option<nat>)
    ensures r.None? <==> ds == []
  {
    if ds == [] then None else Some(CuentaRecibidos(ds))
  }

  function CuentaRecibidos(ds: seq<Detalle>): nat
  {
    if ds == [] then 0 else (if ds[0].recibido then 1 else 0) + CuentaRecibidos(ds[1..])
  }

  /** `COUNT(*) === SUM(recibido)` for an order's lines. */
  predicate TodosRecibidos(ds: seq<Detalle>)
  {
    SumaRecibido(ds) == Some(|ds|)
  }

  lemma {:induction false} CuentaRecibidosCota(ds: seq<Detalle>)
    ensures CuentaRecibidos(ds) <= |ds|
    ensures CuentaRecibidos(ds) == |ds| <==> forall i :: 0 <= i < |ds| ==> ds[i].recibido
  {
    if ds != [] {
      CuentaRecibidosCota(ds[1..]);
      if forall i :: 0 <= i < |ds| ==> ds[i].recibido {
        assert forall i :: 0 <= i < |ds[1..]| ==> ds[1..][i].recibido by {
          forall i | 0 <= i < |ds[1..]| ensures ds[1..][i].recibido {
            assert ds[1..][i] == ds[i + 1];
          }
        }
      }
      if CuentaRecibidos(ds) == |ds| {
        forall i | 0 <= i < |ds| ensures ds[i].recibido {
          if i > 0 {
            assert ds[i] == ds[1..][i - 1];
          }
        }
      }
    }
  }

  /** Every line is received exactly when the order has lines and none is
      outstanding; an order without lines never counts as received. */
  lemma TodosRecibidosSii(ds: seq<Detalle>)
    ensures TodosRecibidos(ds) <==> |ds| > 0 && forall i :: 0 <= i < |ds| ==> ds[i].recibido
  {
    CuentaRecibidosCota(ds);
  }

  /** One line after `SET recibido = 1 WHERE producto_id = producto`. */
  function MarcarLinea(d: Detalle, producto: Id): Detalle
  {
    if d.producto == producto then d.(recibido := true) else d
  }

  /** An order's lines after marking `producto` received. */
  function Marcar(ds: seq<Detalle>, producto: Id): (r: seq<Detalle>)
    ensures |r| == |ds|
    ensures forall i :: 0 <= i < |ds| ==>
              r[i].recibido == (ds[i].recibido || ds[i].producto == producto) &&
              r[i].(recibido := ds[i].recibido) == ds[i]
  {
    seq(|ds|, i requires 0 <= i < |ds| => MarcarLinea(ds[i], producto))
  }

  /** Marking the same product twice leaves the lines as the first mark did. */
  lemma MarcarIdempotente(ds: seq<Detalle>, producto: Id)
    ensures Marcar(Marcar(ds, producto), producto) == Marcar(ds, producto)
  {
  }

  /** Marking never takes an order out of "all received". */
  lemma MarcarConserva(ds: seq<Detalle>, producto: Id)
    requires TodosRecibidos(ds)
    ensures TodosRecibidos(Marcar(ds, producto))
  {
    TodosRecibidosSii(ds);
    TodosRecibidosSii(Marcar(ds, producto));
  }

  /** Marking the last outstanding product completes the order. */
  lemma MarcarUltimo(ds: seq<Detalle>, producto: Id)
    requires forall i :: 0 <= i < |ds| && ds[i].producto != producto ==> ds[i].recibido
    requires exists i :: 0 <= i < |ds| && ds[i].producto == producto
    ensures TodosRecibidos(Marcar(ds, producto))
  {
    TodosRecibidosSii(Marcar(ds, producto));
  }

  /** While some other product is outstanding, marking one product does not
      complete the order. */
  lemma MarcarPendiente(ds: seq<Detalle>, producto: Id, i: nat)
    requires i < |ds| && ds[i].producto != producto && !ds[i].recibido
    ensures !TodosRecibidos(Marcar(ds, producto))
  {
    TodosRecibidosSii(Marcar(ds, producto));
  }

  /** The in-memory order store. `filas` lists the keys of `pedidos` in row
      order, which is the order the store returns rows in; `siguienteId` is the
      auto-increment counter. */
  class Store {
    var pedidos: map<Id, Pedido>
    var filas: seq<Id>
    var siguienteId: Id

    ghost predicate Valid()
      reads this
    {
      && Distintos(filas)
      && (forall k :: k in pedidos <==> k in filas)
      && (forall k :: k in pedidos ==> k < siguienteId)
    }

    constructor ()
      ensures Valid() && pedidos == map[] && filas == []
    {
      pedidos := map[];
      filas := [];
      siguienteId := 1;
    }

    /** `Pedido.findActivePedidoByTendero`: the shopkeeper's most recent order
        in one of the five active states, if any. */
    function FindActivePedidoByTendero(tendero: Id): (r: Option<Id>)
      reads this
      requires Valid()
      ensures r.Some? ==> r.value in pedidos && EsActivoDe(pedidos[r.value], tendero)
      ensures r.Some? ==> forall k :: k in pedidos && EsActivoDe(pedidos[k], tendero) ==>
                            pedidos[k].fechaPedido <= pedidos[r.value].fechaPedido
      ensures r.None? <==> forall k :: k in pedidos ==> !EsActivoDe(pedidos[k], tendero)
    {
      MasRecienteActivo(pedidos, filas, tendero)
    }

    /** `Pedido.todosProductosRecibidos`: the order's line count equals its
        received-line count. A missing order has no lines, so it yields false. */
    function TodosProductosRecibidos(id: Id): (r: bool)
      reads this
      ensures r <==> id in pedidos && |pedidos[id].detalles| > 0 &&
                     forall i :: 0 <= i < |pedidos[id].detalles| ==> pedidos[id].detalles[i].recibido
    {
      if id in pedidos then
        TodosRecibidosSii(pedidos[id].detalles);
        TodosRecibidos(pedidos[id].detalles)
      else false
    }

    /** `Pedido.create`: inserts a new order row (state left to the table
        default, `pendiente`; deadline 72 hours after `ahora`) and then one
        detail row per product line. */
    method Create(tendero: Id, zona: Id, productos: seq<LineaConPrecio>, ahora: int) returns (id: Id)
      requires Valid()
      modifies this
      ensures Valid()
      ensures id == old(siguienteId) && id !in old(pedidos) && siguienteId == old(siguienteId) + 1
      ensures filas == old(filas) + [id]
      ensures id in pedidos && pedidos == old(pedidos)[id := pedidos[id]]
      ensures pedidos[id].tendero == tendero && pedidos[id].zona == zona
      ensures pedidos[id].estado == Pendiente && pedidos[id].proveedor == None
      ensures pedidos[id].fechaPedido == ahora && pedidos[id].fechaLimite == ahora + PLAZO_HORAS
      ensures |pedidos[id].detalles| == |productos|
      ensures forall j :: 0 <= j < |productos| ==> DetalleDeLinea(pedidos[id].detalles[j], productos[j])
    {
      id := siguienteId;
      var cabecera := Pedido(tendero, zona, Pendiente, ahora, ahora + PLAZO_HORAS, None, []);
      forall k | k in filas ensures k != id {
        assert k in pedidos;
      }
      pedidos := pedidos[id := cabecera];
      filas := filas + [id];
      siguienteId := siguienteId + 1;
      var i := 0;
      while i < |productos|
        invariant 0 <= i <= |productos|
        invariant Valid()
        invariant filas == old(filas) + [id] && siguienteId == id + 1
        invariant id in pedidos && pedidos == old(pedidos)[id := cabecera.(detalles := pedidos[id].detalles)]
        invariant |pedidos[id].detalles| == i
        invariant forall j :: 0 <= j < i ==> DetalleDeLinea(pedidos[id].detalles[j], productos[j])
      {
        var linea := productos[i];
        var subtotal := linea.cantidad * linea.precioUnitario;
        var p := pedidos[id];
        pedidos := pedidos[id := p.(detalles := p.detalles + [Detalle(linea.producto, linea.cantidad, linea.precioUnitario, subtotal, false)])];
        i := i + 1;
      }
    }

    /** `Pedido.updateEstado`: sets the state of the order with that id;
        reports whether a row matched. */
    method UpdateEstado(id: Id, estado: Estado) returns (ok: bool)
      requires Valid()
      modifies this
      ensures Valid() && filas == old(filas) && siguienteId == old(siguienteId)
      ensures ok <==> id in old(pedidos)
      ensures pedidos == if ok then old(pedidos)[id := old(pedidos)[id].(estado := estado)] else old(pedidos)
    {
      ok := id in pedidos;
      if ok {
        pedidos := pedidos[id := pedidos[id].(estado := estado)];
      }
    }

    /** `Pedido.marcarProductoRecibido`: flags every line of the order for that
        product as received; reports whether some line matched. */
    method MarcarProductoRecibido(pedidoId: Id, productoId: Id) returns (marcado: bool)
      requires Valid()
      modifies this
      ensures Valid() && filas == old(filas) && siguienteId == old(siguienteId)
      ensures marcado <==> (pedidoId in old(pedidos) &&
                            exists i :: 0 <= i < |old(pedidos)[pedidoId].detalles| &&
                                        old(pedidos)[pedidoId].detalles[i].producto == productoId)
      ensures pedidos == if pedidoId in old(pedidos)
                         then old(pedidos)[pedidoId := old(pedidos)[pedidoId].(detalles := Marcar(old(pedidos)[pedidoId].detalles, productoId))]
                         else old(pedidos)
    {
      if pedidoId !in pedidos {
        return false;
      }
      var p := pedidos[pedidoId];
      var ds := p.detalles;
      marcado := false;
      var i := 0;
      while i < |ds|
        invariant 0 <= i <= |ds| == |p.detalles|
        invariant forall j :: 0 <= j < i ==> ds[j] == MarcarLinea(p.detalles[j], productoId)
        invariant forall j :: i <= j < |ds| ==> ds[j] == p.detalles[j]
        invariant marcado <==> exists j :: 0 <= j < i && p.detalles[j].producto == productoId
      {
        if ds[i].producto == productoId {
          ds := ds[i := ds[i].(recibido := true)];
          marcado := true;
        }
        i := i + 1;
      }
      assert ds == Marcar(p.detalles, productoId);
      pedidos := pedidos[pedidoId := p.(detalles := ds)];
    }
  }
}
