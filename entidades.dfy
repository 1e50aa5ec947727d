/** The users and products the order workflow looks up. Their tables belong to
    single-table models that are not part of this model; only the two lookups
    the orders need are given here, over the table rows passed in. */
module Entidades {
  import opened Wrappers
  import opened Colecciones

  /** Store-generated row ids. */
  type Id = nat

  /** JavaScript's `!x` on an optional numeric id: absent, null or 0. */
  predicate Falta(x: Option<Id>)
  {
    x.None? || x.value == 0
  }

  /** A row of the active users (`Usuario.findById` sees only active rows). */
  datatype Usuario = Usuario(id: Id, rol: string, zona: Option<Id>)

  /** A row of the product table; `precioBase` in cents. */
  datatype Producto = Producto(id: Id, precioBase: int, activo: bool)

  function IdsDe(catalogo: seq<Producto>): (r: seq<Id>)
    ensures |r| == |catalogo|
    ensures forall i :: 0 <= i < |r| ==> r[i] == catalogo[i].id
  {
    if catalogo == [] then [] else [catalogo[0].id] + IdsDe(catalogo[1..])
  }

  /** Product ids are the table's primary key. */
  predicate CatalogoValido(catalogo: seq<Producto>)
  {
    Distintos(IdsDe(catalogo))
  }

  /** The ids of the active products, in row order. */
  function IdsActivos(catalogo: seq<Producto>): (r: seq<Id>)
    ensures forall x :: x in r <==> exists p :: p in catalogo && p.activo && p.id == x
  {
    if catalogo == [] then []
    else
      var resto := IdsActivos(catalogo[1..]);
      assert forall p :: p in catalogo <==> p == catalogo[0] || p in catalogo[1..];
      (if catalogo[0].activo then [catalogo[0].id] else []) + resto
  }

  /** `Producto.findByIds`: the active rows whose id is requested, each once. */
  function FindByIds(catalogo: seq<Producto>, ids: seq<Id>): (r: seq<Producto>)
    ensures forall p :: p in r <==> p in catalogo && p.activo && p.id in ids
    ensures |r| == |Filtrar(IdsActivos(catalogo), ids)|
  {
    if catalogo == [] then []
    else
      var resto := FindByIds(catalogo[1..], ids);
      assert forall p :: p in catalogo <==> p == catalogo[0] || p in catalogo[1..];
      var activos := IdsActivos(catalogo);
      assert catalogo[0].activo ==> activos[0] == catalogo[0].id && activos[1..] == IdsActivos(catalogo[1..]);
      assert !catalogo[0].activo ==> activos == IdsActivos(catalogo[1..]);
      (if catalogo[0].activo && catalogo[0].id in ids then [catalogo[0]] else []) + resto
  }

  /** The active ids of a valid catalogue do not repeat. */
  lemma {:induction false} IdsActivosDistintos(catalogo: seq<Producto>)
    requires CatalogoValido(catalogo)
    ensures Distintos(IdsActivos(catalogo))
  {
    if catalogo != [] {
      var resto := catalogo[1..];
      assert IdsDe(resto) == IdsDe(catalogo)[1..];
      IdsActivosDistintos(resto);
      if catalogo[0].activo {
        forall p | p in resto ensures p.id != catalogo[0].id {
          var k :| 0 <= k < |resto| && resto[k] == p;
          assert IdsDe(catalogo)[k + 1] == p.id;
        }
        var r := IdsActivos(catalogo);
        var t := IdsActivos(resto);
        assert r == [catalogo[0].id] + t;
        assert catalogo[0].id !in t;
        forall i, j | 0 <= i < j < |r| ensures r[i] != r[j] {
          if i > 0 {
            assert r[i] == t[i - 1] && r[j] == t[j - 1];
          } else {
            assert r[j] == t[j - 1] && t[j - 1] in t;
          }
        }
      }
    }
  }

  /** The products of a valid catalogue resolve a request exactly when no id is
      repeated and every id is an active product. */
  lemma ProductosResueltos(catalogo: seq<Producto>, ids: seq<Id>)
    requires CatalogoValido(catalogo)
    ensures |FindByIds(catalogo, ids)| == |ids| <==>
              Distintos(ids) && forall x :: x in ids ==> exists p :: p in catalogo && p.activo && p.id == x
  {
    IdsActivosDistintos(catalogo);
    FiltrarCompleto(IdsActivos(catalogo), ids);
  }

  /** `productosDB.find(pr => pr.id === id)`: the first row with that id. */
  function Buscar(productos: seq<Producto>, id: Id): (r: Option<Producto>)
    ensures r.Some? <==> exists p :: p in productos && p.id == id
    ensures r.Some? ==> r.value in productos && r.value.id == id
  {
    if productos == [] then None
    else if productos[0].id == id then Some(productos[0])
    else
      var r := Buscar(productos[1..], id);
      assert forall p :: p in productos <==> p == productos[0] || p in productos[1..];
      r
  }
}
