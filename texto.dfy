/**
 * The two string operations the handlers apply to user input:
 * `str.lower()`, on the ASCII capitals, and `str.strip()`, on every
 * character Python counts as white space.
 */
module Texto {
  function MinusculaChar(c: char): (r: char)
  {
    if 'A' <= c <= 'Z' then (c as int - 'A' as int + 'a' as int) as char else c
  }

  /** `s.lower()`: every ASCII capital replaced by its small letter. */
  function Minusculas(s: string): (r: string)
  {
    seq(|s|, i requires 0 <= i < |s| => MinusculaChar(s[i]))
  }

  /** Lower-casing leaves a string without capitals unchanged (for instance every key the handlers look up). */
  lemma {:induction false} MinusculasSinMayusculas(s: string)
    requires forall i :: 0 <= i < |s| ==> !('A' <= s[i] <= 'Z')
    ensures Minusculas(s) == s
  {
    if s != [] {
      MinusculasSinMayusculas(s[1..]);
    }
  }

  /**
   * The characters `str.isspace()` accepts and `str.strip()` removes: tab
   * to carriage return, the four separators 0x1C to 0x1F, the space, NEL,
   * the no-break space, the Ogham space mark, the spaces 0x2000 to 0x200A,
   * the line and paragraph separators, the narrow no-break space, the
   * medium mathematical space and the ideographic space.
   */
  predicate EsEspacio(c: char)
  {
    || '\t' <= c <= '\r'
    || '\U{1C}' <= c <= ' '
    || c == '\U{85}' || c == '\U{A0}' || c == '\U{1680}'
    || '\U{2000}' <= c <= '\U{200A}'
    || c == '\U{2028}' || c == '\U{2029}' || c == '\U{202F}' || c == '\U{205F}' || c == '\U{3000}'
  }

  /** `s.lstrip()`. */
  function QuitarIzquierda(s: string): (r: string)
    ensures |r| <= |s| && r == s[|s| - |r|..]
    ensures r == [] || !EsEspacio(r[0])
    ensures forall i :: 0 <= i < |s| - |r| ==> EsEspacio(s[i])
  {
    if s != [] && EsEspacio(s[0]) then QuitarIzquierda(s[1..]) else s
  }

  /** `s.rstrip()`. */
  function QuitarDerecha(s: string): (r: string)
    ensures |r| <= |s| && r == s[..|r|]
    ensures r == [] || !EsEspacio(r[|r| - 1])
    ensures forall i :: |r| <= i < |s| ==> EsEspacio(s[i])
  {
    if s != [] && EsEspacio(s[|s| - 1]) then QuitarDerecha(s[..|s| - 1]) else s
  }

  /**
   * `s.strip()`: an infix of `s` with no white space at either end, whatever
   * was cut off on both sides being white space.
   */
  function Recortar(s: string): (r: string)
    ensures |r| <= |s|
    ensures r == [] || (!EsEspacio(r[0]) && !EsEspacio(r[|r| - 1]))
    ensures exists a, b :: 0 <= a <= b <= |s| && r == s[a..b]
                           && (forall k :: 0 <= k < a || b <= k < |s| ==> EsEspacio(s[k]))
  {
    var l := QuitarIzquierda(s);
    var r := QuitarDerecha(l);
    RecorteInfijo(s, l, r);
    r
  }

  /** Cutting white space off the left and then off the right leaves an infix whose surroundings are white space. */
  lemma RecorteInfijo(s: string, l: string, r: string)
    requires |l| <= |s| && l == s[|s| - |l|..] && forall i :: 0 <= i < |s| - |l| ==> EsEspacio(s[i])
    requires |r| <= |l| && r == l[..|r|] && forall i :: |r| <= i < |l| ==> EsEspacio(l[i])
    ensures exists a, b :: 0 <= a <= b <= |s| && r == s[a..b]
                           && (forall k :: 0 <= k < a || b <= k < |s| ==> EsEspacio(s[k]))
  {
    var a := |s| - |l|;
    var b := a + |r|;
    assert r == s[a..b];
    forall k | 0 <= k < a || b <= k < |s|
      ensures EsEspacio(s[k])
    {
      if b <= k {
        assert s[k] == l[k - a];
      }
    }
  }
}
