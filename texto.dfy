/** The handful of JavaScript string operations the console relies on:
    `trim`, `toLowerCase`, `includes`, `\d{n}` patterns and decimal rendering of numbers. */
module Texto {

  /** The code points `String.prototype.trim` removes: the ECMAScript WhiteSpace and
      LineTerminator sets. */
  predicate EsEspacio(c: char) {
    c == ' ' || c == '\t' || c == '\n' || c == '\r' || c == '\U{000B}' || c == '\U{000C}'
    || c == '\U{00A0}' || c == '\U{1680}' || ('\U{2000}' <= c <= '\U{200A}')
    || c == '\U{2028}' || c == '\U{2029}' || c == '\U{202F}' || c == '\U{205F}'
    || c == '\U{3000}' || c == '\U{FEFF}'
  }

  /** Every character is white space (the empty string included). */
  predicate EsBlanco(s: string) {
    forall i :: 0 <= i < |s| ==> EsEspacio(s[i])
  }

  /** The first index at or after `i` that does not hold white space (`|s|` when there
      is none): the scan `trim` makes from the start. */
  function SaltarInicio(s: string, i: nat): (n: nat)
    requires i <= |s|
    ensures i <= n <= |s|
    ensures n == |s| || !EsEspacio(s[n])
    ensures forall k :: i <= k < n ==> EsEspacio(s[k])
    decreases |s| - i
  {
    if i < |s| && EsEspacio(s[i]) then SaltarInicio(s, i + 1) else i
  }

  /** The end of `s[lo..j]` once its trailing white space is dropped (`lo` when it is all
      white space): the scan `trim` makes from the end. */
  function SaltarFin(s: string, lo: nat, j: nat): (n: nat)
    requires lo <= j <= |s|
    ensures lo <= n <= j
    ensures n == lo || !EsEspacio(s[n - 1])
    ensures forall k :: n <= k < j ==> EsEspacio(s[k])
  {
    if j > lo && EsEspacio(s[j - 1]) then SaltarFin(s, lo, j - 1) else j
  }

  /** The length of the leading blank run of `s`: all blank before it, a non-space
      character (or the end) at it. */
  function Sangria(s: string): (n: nat)
    ensures n <= |s| && EsBlanco(s[..n])
    ensures n == |s| || !EsEspacio(s[n])
  {
    SaltarInicio(s, 0)
  }

  /** `s.trim()`: the slice of `s` between its leading blank run and a blank tail; empty
      exactly for blank input, otherwise starts and ends with a non-space character. */
  function Recortar(s: string): (r: string)
    ensures r == [] <==> EsBlanco(s)
    ensures r == [] || (!EsEspacio(r[0]) && !EsEspacio(r[|r| - 1]))
    ensures |r| <= |s|
    ensures var i := Sangria(s);
      i + |r| <= |s| && r == s[i..i + |r|] && EsBlanco(s[i + |r|..])
  {
    var i := Sangria(s);
    var j := SaltarFin(s, i, |s|);
    assert i < |s| ==> i < j;
    assert EsBlanco(s) ==> i == |s|;
    assert i == |s| ==> EsBlanco(s) by {
      if i == |s| {
        assert s == s[..i];
      }
    }
    s[i..j]
  }

  /** Trimming twice is trimming once. */
  lemma {:induction false} RecortarIdempotente(s: string)
    ensures Recortar(Recortar(s)) == Recortar(s)
  {
    var r := Recortar(s);
    if r != [] {
      assert Sangria(r) == 0;
      assert SaltarFin(r, 0, |r|) == |r|;
      assert r[0..|r|] == r;
    }
  }

  /** A string that begins with a non-space prefix `p` keeps that prefix after trimming. */
  lemma {:induction false} RecortarConservaPrefijo(p: string, s: string)
    requires |p| > 0 && !EsEspacio(p[0]) && !EsEspacio(p[|p| - 1])
    ensures p <= Recortar(p + s)
  {
    var t := p + s;
    assert t[0] == p[0];
    assert Sangria(t) == 0;
    var j := SaltarFin(t, 0, |t|);
    assert t[|p| - 1] == p[|p| - 1];
    assert j >= |p|;
    assert Recortar(t) == t[0..j];
    assert t[0..j][..|p|] == p;
  }

  /** `String.prototype.toLowerCase` on one character: ASCII and Latin-1 capitals. */
  function MinusculaChar(c: char): char {
    if 'A' <= c <= 'Z' || ('\U{00C0}' <= c <= '\U{00DE}' && c != '\U{00D7}')
    then (c as int + 32) as char
    else c
  }

  /** `s.toLowerCase()`, character by character. */
  function Minusculas(s: string): (r: string)
    ensures |r| == |s|
    ensures forall i :: 0 <= i < |s| ==> r[i] == MinusculaChar(s[i])
  {
    seq(|s|, i requires 0 <= i < |s| => MinusculaChar(s[i]))
  }

  /** Lower-casing twice is lower-casing once (a filter text lowered by one method and
      again by the table's predicate matches the same rows). */
  lemma MinusculasIdempotente(s: string)
    ensures Minusculas(Minusculas(s)) == Minusculas(s)
  {
  }

  /** `texto.trim().toLowerCase()`: the filter text the maintenance screens install. */
  function FiltroDe(texto: string): (r: string)
    ensures |r| <= |texto|
    ensures r == [] <==> EsBlanco(texto)
  {
    Minusculas(Recortar(texto))
  }

  /** Spaces typed around the search do not change it. */
  lemma FiltroIgnoraEspacios(texto: string)
    ensures FiltroDe(Recortar(texto)) == FiltroDe(texto)
  {
    RecortarIdempotente(texto);
  }

  /** `s.includes(t)`. */
  predicate Contiene(s: string, t: string) {
    exists i :: 0 <= i <= |s| && t <= s[i..]
  }

  /** The empty string is contained in every string, and every string in itself. */
  lemma ContieneTrivial(s: string)
    ensures Contiene(s, "") && Contiene(s, s)
  {
    assert "" <= s[0..];
    assert s <= s[0..];
  }

  /** A prefix is contained. */
  lemma ContienePrefijo(p: string, s: string)
    requires p <= s
    ensures Contiene(s, p)
  {
    assert p <= s[0..];
  }

  /** Only the ASCII digits 0-9 (what `\d` matches in a JavaScript pattern). */
  predicate SoloDigitos(s: string) {
    forall i :: 0 <= i < |s| ==> '0' <= s[i] <= '9'
  }

  /** `/^\d{n}$/.test(s)`. */
  predicate DigitosExactos(s: string, n: nat) {
    |s| == n && SoloDigitos(s)
  }

  function DigitoChar(d: nat): (c: char)
    requires d < 10
    ensures '0' <= c <= '9'
  {
    ('0' as int + d) as char
  }

  /** Decimal rendering of a natural number (what `toString()` gives for it). */
  function NatATexto(n: nat): (r: string)
    ensures |r| >= 1 && SoloDigitos(r)
    ensures |r| == 1 <==> n < 10
  {
    if n < 10 then [DigitoChar(n)] else NatATexto(n / 10) + [DigitoChar(n % 10)]
  }

  /** Distinct numbers render as distinct strings. */
  lemma {:induction false} NatATextoInyectivo(a: nat, b: nat)
    requires NatATexto(a) == NatATexto(b)
    ensures a == b
  {
    if a >= 10 && b >= 10 {
      var ra, rb := NatATexto(a), NatATexto(b);
      assert ra[|ra| - 1] == DigitoChar(a % 10);
      assert rb[|rb| - 1] == DigitoChar(b % 10);
      assert ra[..|ra| - 1] == NatATexto(a / 10);
      assert rb[..|rb| - 1] == NatATexto(b / 10);
      NatATextoInyectivo(a / 10, b / 10);
    }
  }

  /** Decimal rendering of an integer, with a leading minus sign when negative. */
  function EnteroATexto(i: int): (r: string)
    ensures |r| >= 1 && (r[0] == '-' <==> i < 0)
    ensures '0' <= r[|r| - 1] <= '9'
  {
    if i < 0 then "-" + NatATexto(-i) else NatATexto(i)
  }

  /** Distinct integers render as distinct strings. */
  lemma {:induction false} EnteroATextoInyectivo(a: int, b: int)
    requires EnteroATexto(a) == EnteroATexto(b)
    ensures a == b
  {
    if a < 0 {
      assert EnteroATexto(a)[1..] == NatATexto(-a);
      assert EnteroATexto(b)[1..] == NatATexto(-b);
      NatATextoInyectivo(-a, -b);
    } else {
      NatATextoInyectivo(a, b);
    }
  }
}
