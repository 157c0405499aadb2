/** The array operations the console uses on lists: `filter` (with `.length` as a count)
    and `reduce` as a running sum. */
module Colecciones {

  /** `r` is `s` with some elements dropped and the rest kept in order. */
  predicate Subsecuencia<T(==)>(r: seq<T>, s: seq<T>)
    decreases |s|
  {
    r == [] || (|s| > 0 && ((r[0] == s[0] && Subsecuencia(r[1..], s[1..])) || Subsecuencia(r, s[1..])))
  }

  /** `s.filter(p)`: the elements satisfying `p`, in their original order. */
  function Filtrar<T(==)>(s: seq<T>, p: T -> bool): (r: seq<T>)
    ensures |r| <= |s|
    ensures forall i :: 0 <= i < |r| ==> r[i] in s && p(r[i])
    ensures forall i :: 0 <= i < |s| && p(s[i]) ==> s[i] in r
    ensures Subsecuencia(r, s)
    ensures (forall i :: 0 <= i < |s| ==> p(s[i])) ==> r == s
  {
    if s == [] then []
    else if p(s[0]) then [s[0]] + Filtrar(s[1..], p)
    else Filtrar(s[1..], p)
  }

  /** An element and its negation split a list: `filter(p).length + filter(!p).length`
      is the list's length. */
  lemma {:induction false} FiltrarComplemento<T>(s: seq<T>, p: T -> bool, q: T -> bool)
    requires forall x :: q(x) == !p(x)
    ensures |Filtrar(s, p)| + |Filtrar(s, q)| == |s|
  {
    if s != [] {
      FiltrarComplemento(s[1..], p, q);
    }
  }

  /** A filter is no longer than a filter by a weaker condition. */
  lemma {:induction false} FiltrarMonotono<T>(s: seq<T>, p: T -> bool, q: T -> bool)
    requires forall x :: p(x) ==> q(x)
    ensures |Filtrar(s, p)| <= |Filtrar(s, q)|
  {
    if s != [] {
      FiltrarMonotono(s[1..], p, q);
    }
  }

  /** `s.reduce((acc, x) => acc + f(x), 0)`: a left-to-right sum. */
  function Sumar<T>(s: seq<T>, f: T -> real): real
  {
    if s == [] then 0.0 else Sumar(s[..|s| - 1], f) + f(s[|s| - 1])
  }

  /** Summing a concatenation sums the parts. */
  lemma {:induction false} SumarConcat<T>(a: seq<T>, b: seq<T>, f: T -> real)
    ensures Sumar(a + b, f) == Sumar(a, f) + Sumar(b, f)
  {
    if b == [] {
      assert a + b == a;
    } else {
      assert (a + b)[..|a + b| - 1] == a + b[..|b| - 1];
      SumarConcat(a, b[..|b| - 1], f);
    }
  }

  /** Replacing one element changes the sum by the difference of the two terms. */
  lemma SumarActualizar<T>(s: seq<T>, i: nat, x: T, f: T -> real)
    requires i < |s|
    ensures Sumar(s[i := x], f) == Sumar(s, f) - f(s[i]) + f(x)
  {
    assert s == s[..i] + [s[i]] + s[i + 1..];
    assert s[i := x] == s[..i] + [x] + s[i + 1..];
    SumarConcat(s[..i] + [s[i]], s[i + 1..], f);
    SumarConcat(s[..i], [s[i]], f);
    SumarConcat(s[..i] + [x], s[i + 1..], f);
    SumarConcat(s[..i], [x], f);
    assert [x][..0] == [];
    assert [s[i]][..0] == [];
  }

  /** Sums of pointwise-equal terms agree; a sum of two term functions is the sum of sums. */
  lemma {:induction false} SumarAditivo<T>(s: seq<T>, f: T -> real, g: T -> real, h: T -> real)
    requires forall i :: 0 <= i < |s| ==> h(s[i]) == f(s[i]) + g(s[i])
    ensures Sumar(s, h) == Sumar(s, f) + Sumar(s, g)
  {
    if s != [] {
      SumarAditivo(s[..|s| - 1], f, g, h);
    }
  }

  /** Removing position `i > 0` is keeping the head and removing position `i - 1` of the tail. */
  lemma SinPosicionCola<T>(s: seq<T>, i: nat)
    requires 0 < i < |s|
    ensures [s[0]] + (s[1..][..i - 1] + s[1..][i..]) == s[..i] + s[i + 1..]
  {
    assert s[..i] == [s[0]] + s[1..][..i - 1];
    assert s[i + 1..] == s[1..][i..];
  }

  /** Filtering out exactly one element removes that element and keeps the others in order. */
  lemma {:induction false} FiltrarSinUno<T>(s: seq<T>, p: T -> bool, i: nat)
    requires i < |s| && !p(s[i])
    requires forall k :: 0 <= k < |s| && k != i ==> p(s[k])
    ensures Filtrar(s, p) == s[..i] + s[i + 1..]
  {
    var t := s[1..];
    if i == 0 {
      assert forall k :: 0 <= k < |t| ==> p(t[k]) by {
        forall k | 0 <= k < |t| ensures p(t[k]) {
          assert t[k] == s[k + 1];
        }
      }
      assert Filtrar(s, p) == Filtrar(t, p);
      assert s[..0] + s[1..] == t;
    } else {
      assert forall k :: 0 <= k < |t| && k != i - 1 ==> p(t[k]) by {
        forall k | 0 <= k < |t| && k != i - 1 ensures p(t[k]) {
          assert t[k] == s[k + 1];
        }
      }
      FiltrarSinUno(t, p, i - 1);
      assert p(s[0]);
      SinPosicionCola(s, i);
    }
  }

  /** Scaling every term scales the sum. */
  lemma {:induction false} SumarEscala<T>(s: seq<T>, f: T -> real, g: T -> real, k: real)
    requires forall i :: 0 <= i < |s| ==> g(s[i]) == f(s[i]) * k
    ensures Sumar(s, g) == Sumar(s, f) * k
  {
    if s != [] {
      SumarEscala(s[..|s| - 1], f, g, k);
    }
  }

  /** Filtering twice is filtering once by both conditions. */
  lemma {:induction false} FiltrarFiltrar<T>(s: seq<T>, p: T -> bool, q: T -> bool, pq: T -> bool)
    requires forall x :: pq(x) == (p(x) && q(x))
    ensures Filtrar(Filtrar(s, p), q) == Filtrar(s, pq)
  {
    if s != [] {
      FiltrarFiltrar(s[1..], p, q, pq);
      if p(s[0]) {
        assert ([s[0]] + Filtrar(s[1..], p))[1..] == Filtrar(s[1..], p);
      }
    }
  }

  /** A sum of non-negative terms is non-negative. */
  lemma {:induction false} SumarNoNegativo<T>(s: seq<T>, f: T -> real)
    requires forall k :: 0 <= k < |s| ==> f(s[k]) >= 0.0
    ensures Sumar(s, f) >= 0.0
  {
    if s != [] {
      SumarNoNegativo(s[..|s| - 1], f);
    }
  }

  /** Replacing one element changes a filter's length by what leaves and what enters. */
  lemma {:induction false} FiltrarActualizar<T>(s: seq<T>, i: nat, x: T, p: T -> bool)
    requires i < |s|
    ensures |Filtrar(s[i := x], p)| == |Filtrar(s, p)| - (if p(s[i]) then 1 else 0) + (if p(x) then 1 else 0)
  {
    if i == 0 {
      assert s[i := x][1..] == s[1..];
    } else {
      assert s[i := x][1..] == s[1..][i - 1 := x];
      FiltrarActualizar(s[1..], i - 1, x, p);
    }
  }
}
