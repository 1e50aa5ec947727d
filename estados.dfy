/** The seven states of an order (`Pedido.ESTADOS`) and the names the store keeps for them. */
module Estados {
  import opened Wrappers

  datatype Estado = Pendiente | Consolidacion | Asignacion | Despacho | Enviado | Entregado | Recibido

  /** The string stored in the `estado` column. */
  function Nombre(e: Estado): string
  {
    match e
    case Pendiente => "pendiente"
    case Consolidacion => "consolidacion"
    case Asignacion => "asignacion"
    case Despacho => "despacho"
    case Enviado => "enviado"
    case Entregado => "entregado"
    case Recibido => "recibido"
  }

  /** The constant list of states, in lifecycle order. */
  const ESTADOS: seq<Estado> := [Pendiente, Consolidacion, Asignacion, Despacho, Enviado, Entregado, Recibido]

  /** Reads a state name back; any other string is not a state. */
  function DesdeNombre(s: string): (r: Option<Estado>)
    ensures r.Some? ==> Nombre(r.value) == s
    ensures r.None? ==> forall e :: Nombre(e) != s
  {
    if s == "pendiente" then Some(Pendiente)
    else if s == "consolidacion" then Some(Consolidacion)
    else if s == "asignacion" then Some(Asignacion)
    else if s == "despacho" then Some(Despacho)
    else if s == "enviado" then Some(Enviado)
    else if s == "entregado" then Some(Entregado)
    else if s == "recibido" then Some(Recibido)
    else None
  }

  /** Reading back a state's name gives the state: names are one-to-one. */
  lemma DesdeNombreDeNombre(e: Estado)
    ensures DesdeNombre(Nombre(e)) == Some(e)
  {
  }

  /** `ESTADOS` lists every state exactly once, under seven distinct names. */
  lemma EstadosCompletos()
    ensures |ESTADOS| == 7
    ensures forall e :: e in ESTADOS
    ensures forall i, j :: 0 <= i < j < |ESTADOS| ==> Nombre(ESTADOS[i]) != Nombre(ESTADOS[j])
  {
    forall e: Estado ensures e in ESTADOS {
      match e
      case Pendiente => assert ESTADOS[0] == e;
      case Consolidacion => assert ESTADOS[1] == e;
      case Asignacion => assert ESTADOS[2] == e;
      case Despacho => assert ESTADOS[3] == e;
      case Enviado => assert ESTADOS[4] == e;
      case Entregado => assert ESTADOS[5] == e;
      case Recibido => assert ESTADOS[6] == e;
    }
  }

  /** The states in which an order counts as active for its shopkeeper.
      `Entregado` and `Recibido` are not among them. */
  predicate Activo(e: Estado)
  {
    e == Pendiente || e == Consolidacion || e == Asignacion || e == Despacho || e == Enviado
  }

  /** The lifecycle graph: one edge per step the workflow is meant to take. */
  predicate Sucesor(a: Estado, b: Estado)
  {
    match a
    case Pendiente => b == Consolidacion
    case Consolidacion => b == Asignacion
    case Asignacion => b == Despacho
    case Despacho => b == Enviado
    case Enviado => b == Entregado
    case Entregado => b == Recibido
    case Recibido => false
  }

  /** The names a supplier may send as a new state. */
  const ESTADOS_PROVEEDOR: seq<string> := ["despacho", "enviado", "entregado"]

  /** The supplier's requested state, if it is one of the permitted names. */
  function EstadoProveedor(s: string): (r: Option<Estado>)
    ensures r.Some? <==> s in ESTADOS_PROVEEDOR
    ensures r.Some? ==> Nombre(r.value) == s && r.value in {Despacho, Enviado, Entregado}
  {
    if s in ESTADOS_PROVEEDOR then DesdeNombre(s) else None
  }
}
