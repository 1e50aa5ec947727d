/** Facts about the row lists a `WHERE id IN (...)` query returns, and about
    the counters a JavaScript object keeps. */
module Colecciones {

  predicate Distintos(s: seq<nat>)
  {
    forall i, j :: 0 <= i < j < |s| ==> s[i] != s[j]
  }

  /** Dropping the first entry keeps a list free of repeats, and the first
      entry does not occur again. */
  lemma DistintosCola(s: seq<nat>)
    requires Distintos(s) && s != []
    ensures Distintos(s[1..]) && s[0] !in s[1..]
  {
  }

  ghost function Conjunto(s: seq<nat>): set<nat>
  {
    set x | x in s
  }

  /** The rows of `filas` (a table's keys, in row order) whose key appears in
      `ids`: what `SELECT ... WHERE id IN (ids)` returns. Each row comes back
      once, however often its key is repeated in `ids`. */
  function Filtrar(filas: seq<nat>, ids: seq<nat>): (r: seq<nat>)
    ensures forall x :: x in r <==> x in filas && x in ids
    ensures |r| <= |filas|
  {
    if filas == [] then []
    else (if filas[0] in ids then [filas[0]] else []) + Filtrar(filas[1..], ids)
  }

  lemma {:induction false} FiltrarDistintos(filas: seq<nat>, ids: seq<nat>)
    requires Distintos(filas)
    ensures Distintos(Filtrar(filas, ids))
  {
    if filas != [] {
      FiltrarDistintos(filas[1..], ids);
      var resto := Filtrar(filas[1..], ids);
      assert filas[0] !in filas[1..];
      assert filas[0] !in resto;
    }
  }

  /** The first row returned is the first row of the table whose key is
      requested. */
  lemma {:induction false} FiltrarPrimero(filas: seq<nat>, ids: seq<nat>)
    requires Filtrar(filas, ids) != []
    ensures exists i :: 0 <= i < |filas| && filas[i] in ids && (forall j :: 0 <= j < i ==> filas[j] !in ids) &&
                        Filtrar(filas, ids)[0] == filas[i]
  {
    if filas[0] !in ids {
      FiltrarPrimero(filas[1..], ids);
      var i :| 0 <= i < |filas[1..]| && filas[1..][i] in ids && (forall j :: 0 <= j < i ==> filas[1..][j] !in ids) &&
               Filtrar(filas[1..], ids)[0] == filas[1..][i];
      forall j | 0 <= j < i + 1 ensures filas[j] !in ids {
        if j > 0 {
          assert filas[j] == filas[1..][j - 1];
        }
      }
      assert filas[i + 1] == filas[1..][i];
    }
  }

  /** A list has at most as many distinct elements as entries, and exactly as
      many when no entry repeats. */
  lemma {:induction false} CardinalConjunto(s: seq<nat>)
    ensures |Conjunto(s)| <= |s|
    ensures |Conjunto(s)| == |s| <==> Distintos(s)
  {
    if s == [] {
      assert Conjunto(s) == {};
    } else {
      var resto := s[1..];
      CardinalConjunto(resto);
      assert Conjunto(s) == {s[0]} + Conjunto(resto);
      if s[0] in resto {
        assert Conjunto(s) == Conjunto(resto);
        var k :| 0 <= k < |resto| && resto[k] == s[0];
        assert s[0] == s[k + 1];
      } else {
        assert s[0] !in Conjunto(resto);
        if Distintos(resto) {
          forall i, j | 0 <= i < j < |s| ensures s[i] != s[j] {
            if i > 0 {
              assert s[i] == resto[i - 1] && s[j] == resto[j - 1];
            } else {
              assert s[j] == resto[j - 1];
            }
          }
        } else {
          var i, j :| 0 <= i < j < |resto| && resto[i] == resto[j];
          assert s[i + 1] == s[j + 1];
        }
      }
    }
  }

  /** The row-count test the controllers apply: the query returns as many rows
      as keys were requested exactly when no key is repeated and every key is
      in the table. */
  lemma FiltrarCompleto(filas: seq<nat>, ids: seq<nat>)
    requires Distintos(filas)
    ensures |Filtrar(filas, ids)| == |ids| <==> Distintos(ids) && forall x :: x in ids ==> x in filas
  {
    var r := Filtrar(filas, ids);
    FiltrarDistintos(filas, ids);
    CardinalConjunto(r);
    CardinalConjunto(ids);
    var comunes := Conjunto(r);
    assert comunes == Conjunto(filas) * Conjunto(ids);
    assert comunes <= Conjunto(ids);
    if |r| == |ids| {
      assert |comunes| == |r| && |Conjunto(ids)| <= |ids|;
      assert |Conjunto(ids) - comunes| == |Conjunto(ids)| - |comunes| == 0;
      assert Conjunto(ids) - comunes == {};
      forall x | x in ids ensures x in filas {
        assert x in Conjunto(ids);
      }
    }
    if Distintos(ids) && forall x :: x in ids ==> x in filas {
      assert Conjunto(ids) <= Conjunto(filas);
      assert comunes == Conjunto(ids);
    }
  }

  /** The sum of a counter object's values. */
  ghost function SumaValores<K>(m: map<K, nat>): nat
    decreases |m|
  {
    if |m| == 0 then 0
    else
      var k := Elegir(m);
      m[k] + SumaValores(m - {k})
  }

  ghost function Elegir<K>(m: map<K, nat>): (k: K)
    requires |m| > 0
    ensures k in m
  {
    assert m.Keys != {};
    var k :| k in m; k
  }

  /** Any key may be taken out first. */
  lemma {:induction false} SumaValoresSin<K>(m: map<K, nat>, k: K)
    requires k in m
    ensures SumaValores(m) == m[k] + SumaValores(m - {k})
    decreases |m|
  {
    var j := Elegir(m);
    if j != k {
      var sinJ, sinK := m - {j}, m - {k};
      SumaValoresSin(sinJ, k);
      SumaValoresSin(sinK, j);
      assert sinJ - {k} == sinK - {j};
    }
  }

  /** The value a JavaScript counter holds for a key: `(m[k] || 0)`. */
  function Cuenta<K>(m: map<K, nat>, k: K): nat
  {
    if k in m then m[k] else 0
  }

  /** `m[k] = (m[k] || 0) + 1`: one more for `k`, the other counters as they
      were, so the counters' sum grows by exactly one. */
  function Incrementar<K>(m: map<K, nat>, k: K): (r: map<K, nat>)
    ensures r.Keys == m.Keys + {k}
    ensures r[k] == Cuenta(m, k) + 1
    ensures forall j :: j in m && j != k ==> r[j] == m[j]
    ensures SumaValores(r) == SumaValores(m) + 1
  {
    IncrementarSuma(m, k);
    m[k := Cuenta(m, k) + 1]
  }

  lemma IncrementarSuma<K>(m: map<K, nat>, k: K)
    ensures SumaValores(m[k := Cuenta(m, k) + 1]) == SumaValores(m) + 1
  {
    var m' := m[k := Cuenta(m, k) + 1];
    SumaValoresSin(m', k);
    assert m' - {k} == m - {k};
    if k in m {
      SumaValoresSin(m, k);
    } else {
      assert m - {k} == m;
    }
  }
}
