/** What the endpoints do to the lifecycle as a whole: which state changes each
    one can make, and whether it keeps "at most one active order per
    shopkeeper". */
module CicloVida {
  import opened Wrappers
  import opened Estados
  import opened Colecciones
  import opened Entidades
  import opened PedidoModelo
  import opened PedidoController

  /** No shopkeeper has two orders in an active state. */
  ghost predicate UnActivoPorTendero(ps: map<Id, Pedido>)
  {
    forall a, b :: a in ps && b in ps && a != b && Activo(ps[a].estado) && Activo(ps[b].estado) ==>
      ps[a].tendero != ps[b].tendero
  }

  /** No order appeared or vanished, and each kept its state or took one edge
      of the lifecycle graph. */
  ghost predicate SoloPasosDelGrafo(antes: map<Id, Pedido>, despues: map<Id, Pedido>)
  {
    && antes.Keys == despues.Keys
    && forall k :: k in antes ==>
         despues[k].estado == antes[k].estado || Sucesor(antes[k].estado, despues[k].estado)
  }

  /** A successful creation stores a `pendiente` order for a shopkeeper who had
      no active one, so the rule still holds. */
  lemma CrearConservaUnActivo(ps: map<Id, Pedido>, filas: seq<Id>, usuario: Usuario, productos: seq<LineaPedido>,
                              catalogo: seq<Producto>, ahora: int, id: Id, p: Pedido)
    requires forall k :: k in ps <==> k in filas
    requires PuedeCrear(ps, filas, usuario, productos, catalogo)
    requires id !in ps && PedidoNuevo(p, usuario, productos, catalogo, ahora)
    requires UnActivoPorTendero(ps)
    ensures UnActivoPorTendero(ps[id := p])
  {
  }

  /** A successful consolidation moves exactly the listed orders, each from
      `pendiente` to `consolidacion`, and keeps the rule. */
  lemma ConsolidarRespetaCiclo(ps: map<Id, Pedido>, filas: seq<Id>, ids: seq<Id>, nombreZona: Id -> string)
    requires Distintos(filas) && forall k :: k in ps <==> k in filas
    requires ErrorConsolidacion(ps, filas, ids, nombreZona).None?
    ensures var ps' := ConEstado(ps, ids, Consolidacion);
            && SoloPasosDelGrafo(ps, ps')
            && (forall k :: k in ids ==> ps[k].estado == Pendiente && ps'[k] == ps[k].(estado := Consolidacion))
            && (forall k :: k in ps && k !in ids ==> ps'[k] == ps[k])
            && (UnActivoPorTendero(ps) ==> UnActivoPorTendero(ps'))
  {
  }

  /** A successful assignment moves each listed order that exists from
      `consolidacion` to `asignacion` under the supplier, and keeps the rule. */
  lemma AsignarRespetaCiclo(ps: map<Id, Pedido>, filas: seq<Id>, ids: seq<Id>,
                            proveedorId: Option<Id>, usuarios: map<Id, Usuario>)
    requires forall k :: k in ps <==> k in filas
    requires ErrorAsignacion(ps, filas, ids, proveedorId, usuarios).None?
    ensures var ps' := ConProveedor(ps, ids, proveedorId.value);
            && SoloPasosDelGrafo(ps, ps')
            && (forall k :: k in ids && k in ps ==>
                  ps'[k].estado == Asignacion && ps'[k].proveedor == Some(proveedorId.value) &&
                  usuarios[proveedorId.value].rol == "proveedor")
            && (forall k :: k in ps && k !in ids ==> ps'[k] == ps[k])
            && (UnActivoPorTendero(ps) ==> UnActivoPorTendero(ps'))
  {
  }

  /** Dispatch only ever moves `asignacion` to `despacho`, and keeps the rule. */
  lemma DespacharRespetaCiclo(ps: map<Id, Pedido>, ids: seq<Id>)
    ensures var ps' := Despachados(ps, ids);
            && SoloPasosDelGrafo(ps, ps')
            && (forall k :: k in ps && ps'[k] != ps[k] ==> k in ids && ps[k].estado == Asignacion && ps'[k].estado == Despacho)
            && (UnActivoPorTendero(ps) ==> UnActivoPorTendero(ps'))
  {
  }

  /** Marking a product received keeps the order `entregado` or moves it to
      `recibido`, the latter only once every line is received; the rule holds
      because neither state is active. */
  lemma RecepcionRespetaCiclo(ps: map<Id, Pedido>, id: Id, producto: Id)
    requires id in ps && ps[id].estado == Entregado
    ensures var ds := Marcar(ps[id].detalles, producto);
            var ps' := ps[id := ps[id].(detalles := ds, estado := if TodosRecibidos(ds) then Recibido else Entregado)];
            && SoloPasosDelGrafo(ps, ps')
            && (ps'[id].estado == Recibido ==>
                  |ds| > 0 && forall i :: 0 <= i < |ds| ==> ds[i].recibido)
            && (UnActivoPorTendero(ps) ==> UnActivoPorTendero(ps'))
  {
    TodosRecibidosSii(Marcar(ps[id].detalles, producto));
  }

  /** The supplier's update keeps the rule when the order was already active,
      or when it moves the order to `entregado`. */
  lemma ActualizacionConservaSiActiva(ps: map<Id, Pedido>, id: Id, estado: Option<string>, proveedor: Id)
    requires ActualizacionPermitida(ps, id, estado, proveedor)
    requires Activo(ps[id].estado) || estado.value == "entregado"
    requires UnActivoPorTendero(ps)
    ensures UnActivoPorTendero(ps[id := ps[id].(estado := EstadoProveedor(estado.value).value)])
  {
  }

  /** The supplier's update does not follow the lifecycle graph: an order in
      `asignacion` may jump straight to `entregado`. */
  lemma ActualizacionSaltaPasos()
    ensures var ps := map[1 := Pedido(7, 1, Asignacion, 0, PLAZO_HORAS, Some(3), [])];
            && ActualizacionPermitida(ps, 1, Some("entregado"), 3)
            && !Sucesor(ps[1].estado, EstadoProveedor("entregado").value)
  {
  }

  /** The supplier's update can bring a received order back to an active
      state while its shopkeeper already has a new active order, so the rule
      "at most one active order per shopkeeper" is not an invariant of the
      workflow as a whole. */
  lemma ActualizacionReactiva()
    ensures var ps := map[1 := Pedido(7, 1, Recibido, 0, PLAZO_HORAS, Some(3), []),
                          2 := Pedido(7, 1, Pendiente, 100, 100 + PLAZO_HORAS, None, [])];
            && UnActivoPorTendero(ps)
            && ActualizacionPermitida(ps, 1, Some("despacho"), 3)
            && !UnActivoPorTendero(ps[1 := ps[1].(estado := EstadoProveedor("despacho").value)])
  {
    var ps := map[1 := Pedido(7, 1, Recibido, 0, PLAZO_HORAS, Some(3), []),
                  2 := Pedido(7, 1, Pendiente, 100, 100 + PLAZO_HORAS, None, [])];
    var ps' := ps[1 := ps[1].(estado := Despacho)];
    assert ps'[1].tendero == ps'[2].tendero;
  }
}
