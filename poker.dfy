/**
 * Heads-up poker of app/services/juegos/poker.py: the player against the
 * house ("banca") over one 52-card deck, with a pot, betting streets, hand
 * ranking, the house's one-action-per-street policy, showdown and surrender.
 *
 * Randomness is a parameter: the shuffled deck (`mezcla`), the draw of
 * `random.random()` the house uses (`azar`), the session id (`uuid4`) and the
 * clock (`ahora`, in seconds).
 *
 * This module holds the value layer shared by the table: the constants of
 * the game, the deck and the cards, hand ranking (`Mano`, `Valoracion`) and
 * the comparison of two hands at showdown. The session snapshots (`Vista`)
 * and the classes the source mutates (`Jugador`, `Mesa`, `Sesion`) live in
 * module `PokerMesa`, which imports this one.
 */
module Poker {
  import opened Wrappers
  import opened Modelos

  const APUESTAS_PERMITIDAS: seq<int> := [200, 500, 1000, 2500, 5000, 10000]
  const BLINDS: seq<int> := [10, 25, 50, 100, 200, 500]
  /** `MAX_HORAS_SESION` (two hours), in seconds. */
  const VIDA_SESION: real := 7200.0

  // ---------------------------------------------------------------- cards

  datatype Palo = Corazones | Diamantes | Treboles | Picas

  /** The suits in the order `Palo` declares them. */
  const PALOS: seq<Palo> := [Corazones, Diamantes, Treboles, Picas]

  /** The ace's value, the highest card value. */
  const AS: int := 14

  /** `valor_numerico()`: 2 to 10, then J = 11, Q = 12, K = 13 and A = 14. */
  type Valor = v: int | 2 <= v <= 14 witness 2

  datatype Carta = Carta(valor: Valor, palo: Palo)

  /** `crear_baraja`: suit by suit, from 2 up to the ace within each suit. */
  function Baraja(): (b: seq<Carta>)
    ensures |b| == 52
  {
    seq(52, i requires 0 <= i < 52 => Carta(i % 13 + 2, PALOS[i / 13]))
  }

  function IndicePalo(p: Palo): (k: int)
    ensures 0 <= k < 4 && PALOS[k] == p
  {
    match p
    case Corazones => 0
    case Diamantes => 1
    case Treboles => 2
    case Picas => 3
  }

  /** The deck holds 52 distinct cards, and every card is in it. */
  lemma BarajaCompleta()
    ensures forall i, j :: 0 <= i < j < 52 ==> Baraja()[i] != Baraja()[j]
    ensures forall c: Carta :: c in Baraja()
  {
    var b := Baraja();
    forall i, j | 0 <= i < j < 52
      ensures b[i] != b[j]
    {
      if i / 13 != j / 13 {
        assert IndicePalo(b[i].palo) == i / 13 && IndicePalo(b[j].palo) == j / 13;
      }
    }
    forall c: Carta
      ensures c in b
    {
      var i := 13 * IndicePalo(c.palo) + (c.valor - 2);
      assert i / 13 == IndicePalo(c.palo) && i % 13 == c.valor - 2;
      assert b[i] == c;
    }
  }

  /** `[c.valor_numerico() for c in cartas]`. */
  function Valores(cs: seq<Carta>): (vs: seq<int>)
    ensures |vs| == |cs|
    ensures forall i :: 0 <= i < |cs| ==> vs[i] == cs[i].valor
  {
    if cs == [] then [] else [cs[0].valor] + Valores(cs[1..])
  }

  /** `[c.palo for c in cartas]`. */
  function Palos(cs: seq<Carta>): (ps: seq<Palo>)
    ensures |ps| == |cs|
    ensures forall i :: 0 <= i < |cs| ==> ps[i] == cs[i].palo
  {
    if cs == [] then [] else [cs[0].palo] + Palos(cs[1..])
  }

  /** `[c.valor_numerico() for c in cartas if c.palo == p]`. */
  function ValoresDePalo(cs: seq<Carta>, p: Palo): (vs: seq<int>)
    ensures |vs| <= |cs|
    ensures forall x :: x in vs <==> exists i :: 0 <= i < |cs| && cs[i].palo == p && cs[i].valor == x
  {
    if cs == [] then []
    else
      var resto := ValoresDePalo(cs[1..], p);
      assert forall i :: 1 <= i < |cs| ==> cs[i] == cs[1..][i - 1];
      if cs[0].palo == p then [cs[0].valor] + resto else resto
  }

  /** A list of card values: every entry lies between 2 and 14. */
  predicate DeCartas(vs: seq<int>)
  {
    forall x :: x in vs ==> 2 <= x <= 14
  }

  lemma ValoresDeCartas(cs: seq<Carta>, p: Palo)
    ensures DeCartas(Valores(cs)) && DeCartas(ValoresDePalo(cs, p))
  {
  }

  // ---------------------------------------------------------------- sorting and counting

  /** `n` copies of `v`. */
  function Repetir(v: int, n: nat): (s: seq<int>)
    ensures |s| == n
  {
    if n == 0 then [] else [v] + Repetir(v, n - 1)
  }

  /** The values of `ms` from `v` down to 1, each as many times as `ms` holds it. */
  function Bajar(ms: multiset<int>, v: int): seq<int>
    decreases v
  {
    if v < 1 then [] else Repetir(v, ms[v]) + Bajar(ms, v - 1)
  }

  /**
   * `sorted(vs, reverse=True)` on card values: from 14 down, each value as
   * often as it occurs. `OrdenDescOrdena` shows it is the descending
   * rearrangement of `vs`.
   */
  function OrdenDesc(vs: seq<int>): seq<int>
  {
    Bajar(multiset(vs), AS)
  }

  predicate Descendente(s: seq<int>)
  {
    forall i, j :: 0 <= i < j < |s| ==> s[i] >= s[j]
  }

  predicate Estricta(s: seq<int>)
  {
    forall i, j :: 0 <= i < j < |s| ==> s[i] > s[j]
  }

  lemma {:induction false} RepetirCuenta(v: int, n: nat)
    ensures forall x :: multiset(Repetir(v, n))[x] == if x == v then n else 0
    ensures forall x :: x in Repetir(v, n) ==> x == v
  {
    if n > 0 {
      RepetirCuenta(v, n - 1);
    }
  }

  lemma {:induction false} BajarCuenta(ms: multiset<int>, v: int)
    ensures forall x :: multiset(Bajar(ms, v))[x] == if 1 <= x <= v then ms[x] else 0
    ensures forall x :: x in Bajar(ms, v) ==> 1 <= x <= v
    ensures Descendente(Bajar(ms, v))
    decreases v
  {
    if v >= 1 {
      BajarCuenta(ms, v - 1);
      RepetirCuenta(v, ms[v]);
      var a, b := Repetir(v, ms[v]), Bajar(ms, v - 1);
      assert Bajar(ms, v) == a + b;
      forall i, j | 0 <= i < j < |a + b|
        ensures (a + b)[i] >= (a + b)[j]
      {
        if j < |a| {
          assert a[i] in a && a[j] in a;
        } else if i < |a| {
          assert a[i] in a && b[j - |a|] in b;
        } else {
          assert (a + b)[i] == b[i - |a|] && (a + b)[j] == b[j - |a|];
        }
      }
    }
  }

  /** When every value of `ms` lies between 1 and `v`, `Bajar` lists all of `ms`. */
  lemma BajarPermuta(ms: multiset<int>, v: int)
    requires forall x :: ms[x] > 0 ==> 1 <= x <= v
    ensures multiset(Bajar(ms, v)) == ms
  {
    BajarCuenta(ms, v);
    forall x
      ensures multiset(Bajar(ms, v))[x] == ms[x]
    {
      if !(1 <= x <= v) {
        assert ms[x] == 0;
      }
    }
  }

  lemma CartasEnMultiset(vs: seq<int>)
    requires DeCartas(vs)
    ensures forall x :: multiset(vs)[x] > 0 ==> 1 <= x <= 14
  {
    forall x | multiset(vs)[x] > 0
      ensures 1 <= x <= 14
    {
      assert x in vs;
    }
  }

  /** `OrdenDesc` sorts: same values, same multiplicities, in descending order. */
  lemma OrdenDescOrdena(vs: seq<int>)
    requires DeCartas(vs)
    ensures multiset(OrdenDesc(vs)) == multiset(vs)
    ensures |OrdenDesc(vs)| == |vs|
    ensures Descendente(OrdenDesc(vs))
    ensures DeCartas(OrdenDesc(vs))
  {
    var ms := multiset(vs);
    CartasEnMultiset(vs);
    BajarPermuta(ms, AS);
    BajarCuenta(ms, AS);
    assert |multiset(OrdenDesc(vs))| == |OrdenDesc(vs)|;
    forall x | x in OrdenDesc(vs)
      ensures 2 <= x <= 14
    {
      assert x in multiset(OrdenDesc(vs));
      assert x in vs;
    }
  }

  /** `sorted(set(S), reverse=True)` for values between 1 and 14. */
  function Distintos(S: set<int>, v: int): seq<int>
    decreases v
  {
    if v < 1 then [] else (if v in S then [v] else []) + Distintos(S, v - 1)
  }

  lemma {:induction false} DistintosMiembros(S: set<int>, v: int)
    ensures forall x :: x in Distintos(S, v) <==> x in S && 1 <= x <= v
    ensures Estricta(Distintos(S, v))
    decreases v
  {
    if v >= 1 {
      DistintosMiembros(S, v - 1);
      var a, b := if v in S then [v] else [], Distintos(S, v - 1);
      assert Distintos(S, v) == a + b;
      forall i, j | 0 <= i < j < |a + b|
        ensures (a + b)[i] > (a + b)[j]
      {
        if i < |a| {
          assert b[j - |a|] in b;
        } else {
          assert (a + b)[i] == b[i - |a|] && (a + b)[j] == b[j - |a|];
        }
      }
    }
  }

  /** `set(vs)`. */
  function ConjuntoDe(vs: seq<int>): (s: set<int>)
    ensures forall x :: x in s <==> x in vs
  {
    set x | x in vs
  }

  /** `d.get(x, 0)`. */
  function Cuenta<T>(c: map<T, int>, x: T): int
  {
    if x in c then c[x] else 0
  }

  /** The dictionary the counting loops of `evaluar_mano` build: occurrences of each entry. */
  function Conteo<T>(s: seq<T>): map<T, int>
    decreases |s|
  {
    if s == [] then map[]
    else
      var c := Conteo(s[..|s| - 1]);
      c[s[|s| - 1] := Cuenta(c, s[|s| - 1]) + 1]
  }

  /** The keys of `Conteo(s)` in the order a Python dict keeps them: by first insertion. */
  function Orden<T(==)>(s: seq<T>): seq<T>
    decreases |s|
  {
    if s == [] then []
    else
      var o := Orden(s[..|s| - 1]);
      if s[|s| - 1] in o then o else o + [s[|s| - 1]]
  }

  /** The counts are the multiplicities, and the keys are exactly the entries, in both orders. */
  lemma {:induction false} ConteoCuenta<T>(s: seq<T>)
    ensures forall x :: Cuenta(Conteo(s), x) == multiset(s)[x]
    ensures forall x :: x in Conteo(s) <==> x in s
    ensures forall x :: x in Orden(s) <==> x in s
    decreases |s|
  {
    if s != [] {
      var p := s[..|s| - 1];
      ConteoCuenta(p);
      assert s == p + [s[|s| - 1]];
      assert multiset(s) == multiset(p) + multiset{s[|s| - 1]};
    }
  }

  /** `[v for v in vs if v not in S]`. */
  function Fuera(vs: seq<int>, S: set<int>): (r: seq<int>)
    ensures forall x :: x in r <==> x in vs && x !in S
  {
    if vs == [] then []
    else
      assert forall x :: x in vs <==> x == vs[0] || x in vs[1..];
      (if vs[0] in S then [] else [vs[0]]) + Fuera(vs[1..], S)
  }

  lemma {:induction false} FueraTam(vs: seq<int>, a: int, b: int)
    ensures |Fuera(vs, {a})| == |vs| - multiset(vs)[a]
    ensures a != b ==> |Fuera(vs, {a, b})| == |vs| - multiset(vs)[a] - multiset(vs)[b]
  {
    if vs != [] {
      FueraTam(vs[1..], a, b);
      assert vs == [vs[0]] + vs[1..];
      assert multiset(vs) == multiset{vs[0]} + multiset(vs[1..]);
    }
  }

  /** `max(s)`. */
  function Maximo(s: seq<int>): (m: int)
    requires |s| > 0
    ensures m in s && forall x :: x in s ==> x <= m
  {
    if |s| == 1 then s[0]
    else
      var r := Maximo(s[1..]);
      assert forall x :: x in s <==> x == s[0] || x in s[1..];
      if s[0] >= r then s[0] else r
  }

  /** `s[:n]`. */
  function Tomar(s: seq<int>, n: nat): (r: seq<int>)
    ensures |r| == if |s| <= n then |s| else n
    ensures r == s[..|r|]
  {
    if |s| <= n then s else s[..n]
  }

  /** A list with no entry twice. */
  predicate SinRepetir<T(==)>(s: seq<T>)
  {
    forall i, j :: 0 <= i < j < |s| ==> s[i] != s[j]
  }

  lemma {:induction false} OrdenSinRepetir<T>(s: seq<T>)
    ensures SinRepetir(Orden(s))
    decreases |s|
  {
    if s != [] {
      OrdenSinRepetir(s[..|s| - 1]);
    }
  }

  // ---------------------------------------------------------------- straights

  /**
   * The loop of `hay_escalera` from index `i` on: the first window of five
   * entries whose ends differ by exactly 4 (`range(len(u) - 4)` stops at the
   * last full window).
   */
  function Buscar(u: seq<int>, i: nat): Option<seq<int>>
    decreases |u| - i
  {
    if i + 4 < |u| then
      if u[i] - u[i + 4] == 4 then Some(u[i..i + 5]) else Buscar(u, i + 1)
    else None
  }

  /**
   * `hay_escalera(valset)`: the distinct values from the top down, searched
   * for five in a row; failing that, and with an ace present, the same search
   * with the ace counted as 1 (for card values, `set(u2)` is this set).
   */
  function EscaleraDe(vs: seq<int>): Option<seq<int>>
  {
    var S := ConjuntoDe(vs);
    var u := Distintos(S, AS);
    var r := Buscar(u, 0);
    if r.Some? then r
    else if AS in u then Buscar(Distintos(S - {AS} + {1}, AS), 0)
    else None
  }

  /** The ace plays as 1 in the lowest straight. */
  function Alto(x: int): int
  {
    if x == 1 then 14 else x
  }

  /** The card values of `S` hold the straight whose top card is `t` (5 for A-2-3-4-5). */
  predicate EscaleraEn(S: set<int>, t: int)
  {
    5 <= t <= 14 && t in S && t - 1 in S && t - 2 in S && t - 3 in S && Alto(t - 4) in S
  }

  /** Five values in a row, from the first down. */
  predicate EnFila(w: seq<int>)
  {
    |w| == 5 && w[1] == w[0] - 1 && w[2] == w[0] - 2 && w[3] == w[0] - 3 && w[4] == w[0] - 4
  }

  /** In a strictly descending list, ends four apart mean the five entries are consecutive. */
  lemma Ventana(u: seq<int>, j: nat)
    requires Estricta(u) && j + 4 < |u| && u[j] - u[j + 4] == 4
    ensures EnFila(u[j..j + 5])
  {
    assert u[j] > u[j + 1] > u[j + 2] > u[j + 3] > u[j + 4];
  }

  /** What `Buscar` finds is five consecutive entries of `u`. */
  lemma {:induction false} BuscarSana(u: seq<int>, i: nat)
    requires Estricta(u) && Buscar(u, i).Some?
    ensures EnFila(Buscar(u, i).value)
    ensures forall x :: x in Buscar(u, i).value ==> x in u
    decreases |u| - i
  {
    if u[i] - u[i + 4] == 4 {
      Ventana(u, i);
    } else {
      BuscarSana(u, i + 1);
    }
  }

  /** A window at `j` or later is found, and what is found starts at least as high. */
  lemma {:induction false} BuscarHalla(u: seq<int>, i: nat, j: nat)
    requires Estricta(u) && i <= j && j + 4 < |u| && u[j] - u[j + 4] == 4
    ensures Buscar(u, i).Some? && |Buscar(u, i).value| == 5 && Buscar(u, i).value[0] >= u[j]
    decreases j - i
  {
    if u[i] - u[i + 4] != 4 {
      BuscarHalla(u, i + 1, j);
    }
  }

  /** In a strictly descending list, the entry after `t` is `t - 1` when `t - 1` is present. */
  lemma Siguiente(u: seq<int>, j: nat, t: int)
    requires Estricta(u) && j < |u| && u[j] == t && t - 1 in u
    ensures j + 1 < |u| && u[j + 1] == t - 1
  {
    var m :| 0 <= m < |u| && u[m] == t - 1;
    assert m > j;
    assert u[j + 1] >= u[m];
  }

  /** Five values in a row among the entries of `u` make `Buscar` succeed with a top at least as high. */
  lemma BuscarCompleta(u: seq<int>, t: int)
    requires Estricta(u)
    requires t in u && t - 1 in u && t - 2 in u && t - 3 in u && t - 4 in u
    ensures Buscar(u, 0).Some? && |Buscar(u, 0).value| == 5 && Buscar(u, 0).value[0] >= t
  {
    var j :| 0 <= j < |u| && u[j] == t;
    Siguiente(u, j, t);
    Siguiente(u, j + 1, t - 1);
    Siguiente(u, j + 2, t - 2);
    Siguiente(u, j + 3, t - 3);
    BuscarHalla(u, 0, j);
  }

  /** Five values in a row, all among `S` and at least 2, form a straight of `S`. */
  lemma FilaEscalera(S: set<int>, w: seq<int>)
    requires EnFila(w) && 2 <= w[4] && w[0] <= 14
    requires w[0] in S && w[1] in S && w[2] in S && w[3] in S && w[4] in S
    ensures EscaleraEn(S, w[0])
  {
  }

  /** What the search over `sorted(set(S), reverse=True)` finds: five values of `S` in a row, at most `v`. */
  lemma HallazgoEn(S: set<int>, v: int)
    requires Buscar(Distintos(S, v), 0).Some?
    ensures var w := Buscar(Distintos(S, v), 0).value;
            && EnFila(w) && 1 <= w[4] && w[0] <= v
            && w[0] in S && w[1] in S && w[2] in S && w[3] in S && w[4] in S
  {
    var u := Distintos(S, v);
    DistintosMiembros(S, v);
    BuscarSana(u, 0);
    var w := Buscar(u, 0).value;
    assert w[0] in u && w[1] in u && w[2] in u && w[3] in u && w[4] in u;
  }

  /** Five values of `S` in a row, at most `v`, make the search succeed with a top at least as high. */
  lemma HallaEn(S: set<int>, v: int, t: int)
    requires 1 <= t - 4 && t <= v
    requires t in S && t - 1 in S && t - 2 in S && t - 3 in S && t - 4 in S
    ensures Buscar(Distintos(S, v), 0).Some? && |Buscar(Distintos(S, v), 0).value| == 5
    ensures Buscar(Distintos(S, v), 0).value[0] >= t
  {
    var u := Distintos(S, v);
    DistintosMiembros(S, v);
    assert t in u && t - 1 in u && t - 2 in u && t - 3 in u && t - 4 in u;
    BuscarCompleta(u, t);
  }

  lemma AsPresente(S: set<int>)
    requires AS in Distintos(S, AS)
    ensures AS in S
  {
    DistintosMiembros(S, AS);
  }

  /** A run found with the ace counted as 1 is a straight of the values with the ace. */
  lemma AsBajo(S: set<int>, w: seq<int>)
    requires AS in S && EnFila(w) && 1 <= w[4] && w[0] <= AS
    requires var S2 := S - {AS} + {1};
             w[0] in S2 && w[1] in S2 && w[2] in S2 && w[3] in S2 && w[4] in S2
    ensures EscaleraEn(S, w[0])
  {
  }

  /** What `hay_escalera` returns is a straight of the values it was given. */
  lemma EscaleraSana(vs: seq<int>)
    requires DeCartas(vs) && EscaleraDe(vs).Some?
    ensures EnFila(EscaleraDe(vs).value)
    ensures EscaleraEn(ConjuntoDe(vs), EscaleraDe(vs).value[0])
  {
    var S := ConjuntoDe(vs);
    if Buscar(Distintos(S, AS), 0).Some? {
      HallazgoEn(S, AS);
      var w := Buscar(Distintos(S, AS), 0).value;
      assert w[4] in vs;
      FilaEscalera(S, w);
    } else {
      var S2 := S - {AS} + {1};
      AsPresente(S);
      HallazgoEn(S2, AS);
      AsBajo(S, Buscar(Distintos(S2, AS), 0).value);
    }
  }

  /** Any straight among the values is found, and what is returned starts no lower. */
  lemma EscaleraCompleta(vs: seq<int>, t: int)
    requires DeCartas(vs) && EscaleraEn(ConjuntoDe(vs), t)
    ensures EscaleraDe(vs).Some? && |EscaleraDe(vs).value| == 5 && EscaleraDe(vs).value[0] >= t
  {
    var S := ConjuntoDe(vs);
    if t >= 6 {
      HallaEn(S, AS, t);
    } else if Buscar(Distintos(S, AS), 0).Some? {
      HallazgoEn(S, AS);
      var w := Buscar(Distintos(S, AS), 0).value;
      assert w[4] in vs;
    } else {
      DistintosMiembros(S, AS);
      HallaEn(S - {AS} + {1}, AS, t);
    }
  }

  // ---------------------------------------------------------------- hand ranking

  /** `ManoPoker`, weakest first. */
  datatype Mano = CartaAlta | Par | DoblePar | Trio | Escalera | Color | FullHouse | Poquer | EscaleraColor | EscaleraReal

  /** `ManoPoker.value`. */
  function Fuerza(m: Mano): (f: int)
    ensures 1 <= f <= 10
  {
    match m
    case CartaAlta => 1
    case Par => 2
    case DoblePar => 3
    case Trio => 4
    case Escalera => 5
    case Color => 6
    case FullHouse => 7
    case Poquer => 8
    case EscaleraColor => 9
    case EscaleraReal => 10
  }

  /** What `evaluar_mano` returns: the category and the values that break ties within it. */
  datatype Valoracion = Valoracion(mano: Mano, desempate: seq<int>)

  /**
   * `[v for v, cnt in d.items() if cnt == k]`, with `o` the keys in dictionary
   * order and `c` the counts (`ConteoCuenta`: the dictionary's counts are the
   * multiplicities).
   */
  function Filtrar(o: seq<int>, c: multiset<int>, k: int): (r: seq<int>)
    ensures forall x :: x in r <==> x in o && c[x] == k
  {
    if o == [] then []
    else
      assert forall x :: x in o <==> x == o[0] || x in o[1..];
      (if c[o[0]] == k then [o[0]] else []) + Filtrar(o[1..], c, k)
  }

  /** `(c[x], x) <= (c[y], y)` in Python's tuple order. */
  predicate NoSupera(c: multiset<int>, x: int, y: int)
  {
    c[x] < c[y] || (c[x] == c[y] && x <= y)
  }

  /**
   * The key that `sorted(d.items(), key=lambda x: (x[1], x[0]), reverse=True)`
   * puts first: the most frequent, and among those the highest.
   */
  function Mejor(o: seq<int>, c: multiset<int>): (m: int)
    requires |o| > 0
    ensures m in o && forall x :: x in o ==> NoSupera(c, x, m)
  {
    if |o| == 1 then o[0]
    else
      var r := Mejor(o[1..], c);
      assert forall x :: x in o <==> x == o[0] || x in o[1..];
      if NoSupera(c, r, o[0]) then o[0] else r
  }

  /** The key that the same sort puts second: the best of the others. */
  function Segundo(o: seq<int>, c: multiset<int>): (m: int)
    requires |o| >= 2 && SinRepetir(o)
    ensures m in o && m != Mejor(o, c)
    ensures forall x :: x in o && x != Mejor(o, c) ==> NoSupera(c, x, m)
  {
    var r := Fuera(o, {Mejor(o, c)});
    assert o[0] in r || o[1] in r;
    Mejor(r, c)
  }

  /** The first suit, in dictionary order, counted at least five times (`flush_palo`). */
  function PrimeroConCinco(o: seq<Palo>, c: multiset<Palo>): (r: Option<Palo>)
    ensures r.Some? ==> r.value in o && c[r.value] >= 5
    ensures r.None? ==> forall p :: p in o ==> c[p] < 5
  {
    if o == [] then None
    else if c[o[0]] >= 5 then Some(o[0])
    else
      assert forall x :: x in o <==> x == o[0] || x in o[1..];
      PrimeroConCinco(o[1..], c)
  }

  /** The suit `p` holds 10, J, Q, K and A. */
  predicate RealEn(cs: seq<Carta>, p: Palo)
  {
    {10, 11, 12, 13, 14} <= ConjuntoDe(ValoresDePalo(cs, p))
  }

  /**
   * `evaluar_mano(cartas)`, in the order the source tries the categories.
   * `Err(500)` is the `ValueError` of `max()` over an empty sequence, which
   * the kicker of four of a kind and of two pair raise on a four-card hand.
   */
  function Evaluacion(cs: seq<Carta>): Result<Valoracion>
  {
    if exists p :: RealEn(cs, p) then Ok(Valoracion(EscaleraReal, [14, 13, 12, 11, 10])) else SinReal(cs)
  }

  /** `evaluar_mano` from the straight flush on. */
  function SinReal(cs: seq<Carta>): Result<Valoracion>
  {
    var palos := Palos(cs);
    var color := PrimeroConCinco(Orden(palos), multiset(palos));
    var ec := if color.Some? then EscaleraDe(ValoresDePalo(cs, color.value)) else None;
    if ec.Some? then Ok(Valoracion(EscaleraColor, ec.value))
    else SinEscaleraColor(cs, OrdenDesc(Valores(cs)), color)
  }

  /** `evaluar_mano` from four of a kind on; `valores` are the values sorted from the top. */
  function SinEscaleraColor(cs: seq<Carta>, valores: seq<int>, color: Option<Palo>): Result<Valoracion>
  {
    var cuatros := Filtrar(Orden(valores), multiset(valores), 4);
    if cuatros != [] then ConPoquer(valores, Maximo(cuatros)) else SinPoquer(cs, valores, color)
  }

  /**
   * `valores_ordenados[0]` counted at least three times and
   * `valores_ordenados[1]` at least twice.
   */
  predicate PrimerosFull(valores: seq<int>)
  {
    var o, cv := Orden(valores), multiset(valores);
    |o| >= 2 && (OrdenSinRepetir(valores); cv[Mejor(o, cv)] >= 3 && cv[Segundo(o, cv)] >= 2)
  }

  function SinPoquer(cs: seq<Carta>, valores: seq<int>, color: Option<Palo>): Result<Valoracion>
  {
    if PrimerosFull(valores) then
      var o, cv := Orden(valores), multiset(valores);
      OrdenSinRepetir(valores);
      Ok(Valoracion(FullHouse, [Mejor(o, cv), Segundo(o, cv)]))
    else SinFull(cs, valores, color)
  }

  function SinFull(cs: seq<Carta>, valores: seq<int>, color: Option<Palo>): Result<Valoracion>
  {
    if color.Some? then Ok(ConColor(cs, color.value)) else SinColor(valores)
  }

  function SinColor(valores: seq<int>): Result<Valoracion>
  {
    var e := EscaleraDe(valores);
    if e.Some? then Ok(Valoracion(Escalera, e.value)) else DesdeTrio(valores)
  }

  /** Four of a kind of `v4`, with the highest other value as kicker (none: `ValueError`). */
  function ConPoquer(valores: seq<int>, v4: int): Result<Valoracion>
  {
    var resto := Fuera(valores, {v4});
    if resto == [] then Err(500) else Ok(Valoracion(Poquer, [v4, Maximo(resto)]))
  }

  /** A flush in suit `p`: its five highest values. */
  function ConColor(cs: seq<Carta>, p: Palo): Valoracion
  {
    Valoracion(Color, Tomar(OrdenDesc(ValoresDePalo(cs, p)), 5))
  }

  /** `evaluar_mano` from three of a kind on. */
  function DesdeTrio(valores: seq<int>): Result<Valoracion>
  {
    var o, cv := Orden(valores), multiset(valores);
    var tres := Filtrar(o, cv, 3);
    if tres != [] then Ok(ConTrio(valores, Maximo(tres)))
    else DesdePares(valores, OrdenDesc(Filtrar(o, cv, 2)))
  }

  /** Three of a kind of `v3`, with the two highest other values. */
  function ConTrio(valores: seq<int>, v3: int): Valoracion
  {
    Valoracion(Trio, [v3] + Tomar(OrdenDesc(Fuera(valores, {v3})), 2))
  }

  /** Two pair, one pair or high card, from the paired values `pares` sorted from the top. */
  function DesdePares(valores: seq<int>, pares: seq<int>): Result<Valoracion>
  {
    if |pares| >= 2 then
      var resto := Fuera(valores, {pares[0], pares[1]});
      if resto == [] then Err(500)
      else Ok(Valoracion(DoblePar, [pares[0], pares[1], Maximo(resto)]))
    else if |pares| == 1 then Ok(ConPar(valores, pares[0]))
    else Ok(Valoracion(CartaAlta, Tomar(valores, 5)))
  }

  /** One pair of `p`, with the three highest other values. */
  function ConPar(valores: seq<int>, p: int): Valoracion
  {
    Valoracion(Par, [p] + Tomar(OrdenDesc(Fuera(valores, {p})), 3))
  }

  // ---------------------------------------------------------------- when `evaluar_mano` fails

  lemma {:induction false} SinRepetirCuenta(s: seq<int>)
    requires SinRepetir(s)
    ensures forall x :: multiset(s)[x] <= 1
  {
    if s != [] {
      SinRepetirCuenta(s[1..]);
      assert s == [s[0]] + s[1..];
      assert s[0] !in s[1..];
    }
  }

  lemma DosVeces(s: seq<int>, i: nat, j: nat)
    requires i < j < |s| && s[i] == s[j]
    ensures multiset(s)[s[i]] >= 2
  {
    assert s == s[..j] + s[j..];
    assert s[i] in s[..j] && s[j] in s[j..];
  }

  lemma {:induction false} FiltrarSinRepetir(o: seq<int>, c: multiset<int>, k: int)
    requires SinRepetir(o)
    ensures SinRepetir(Filtrar(o, c, k))
  {
    if o != [] {
      FiltrarSinRepetir(o[1..], c, k);
      assert o[0] !in o[1..];
    }
  }

  /** Sorting a list of distinct card values gives a strictly descending list. */
  lemma OrdenDescEstricta(vs: seq<int>)
    requires DeCartas(vs) && SinRepetir(vs)
    ensures Estricta(OrdenDesc(vs))
  {
    var w := OrdenDesc(vs);
    OrdenDescOrdena(vs);
    SinRepetirCuenta(vs);
    forall i, j | 0 <= i < j < |w|
      ensures w[i] > w[j]
    {
      if w[i] == w[j] {
        DosVeces(w, i, j);
      }
    }
  }

  /** The facts about `valores` and its two dictionaries that every stage of `evaluar_mano` uses. */
  ghost predicate Ordenados(valores: seq<int>)
  {
    && DeCartas(valores)
    && SinRepetir(Orden(valores))
    && (forall x :: x in Orden(valores) <==> x in valores)
  }

  lemma ValoresOrdenados(cs: seq<Carta>)
    ensures Ordenados(OrdenDesc(Valores(cs)))
    ensures |OrdenDesc(Valores(cs))| == |cs|
    ensures multiset(OrdenDesc(Valores(cs))) == multiset(Valores(cs))
  {
    var p :| true;
    ValoresDeCartas(cs, p);
    OrdenDescOrdena(Valores(cs));
    OrdenSinRepetir(OrdenDesc(Valores(cs)));
    ConteoCuenta(OrdenDesc(Valores(cs)));
  }

  /** The two pair values are two different values, each counted twice. */
  lemma Pares(valores: seq<int>)
    requires Ordenados(valores)
    ensures var pares := OrdenDesc(Filtrar(Orden(valores), multiset(valores), 2));
            && Estricta(pares)
            && forall x :: x in pares <==> x in valores && multiset(valores)[x] == 2
  {
    var f := Filtrar(Orden(valores), multiset(valores), 2);
    FiltrarSinRepetir(Orden(valores), multiset(valores), 2);
    OrdenDescEstricta(f);
    OrdenDescOrdena(f);
    forall x
      ensures x in OrdenDesc(f) <==> x in f
    {
      assert x in OrdenDesc(f) <==> x in multiset(OrdenDesc(f));
    }
  }

  /** With a fifth card, two pair always has a kicker. */
  lemma KickerDoblePar(valores: seq<int>)
    requires Ordenados(valores) && |valores| != 4
    requires |OrdenDesc(Filtrar(Orden(valores), multiset(valores), 2))| >= 2
    ensures var pares := OrdenDesc(Filtrar(Orden(valores), multiset(valores), 2));
            Fuera(valores, {pares[0], pares[1]}) != []
  {
    var pares := OrdenDesc(Filtrar(Orden(valores), multiset(valores), 2));
    Pares(valores);
    assert pares[0] in pares && pares[1] in pares;
    FueraTam(valores, pares[0], pares[1]);
  }

  /** With a fifth card, four of a kind always has a kicker. */
  lemma KickerPoquer(valores: seq<int>)
    requires Ordenados(valores) && |valores| != 4
    requires Filtrar(Orden(valores), multiset(valores), 4) != []
    ensures Fuera(valores, {Maximo(Filtrar(Orden(valores), multiset(valores), 4))}) != []
  {
    var v4 := Maximo(Filtrar(Orden(valores), multiset(valores), 4));
    FueraTam(valores, v4, v4);
  }

  /** The two kickers whose absence makes `max()` fail are there. */
  predicate ConKickers(valores: seq<int>)
  {
    var o, cv := Orden(valores), multiset(valores);
    var cuatros, pares := Filtrar(o, cv, 4), OrdenDesc(Filtrar(o, cv, 2));
    && (cuatros != [] ==> Fuera(valores, {Maximo(cuatros)}) != [])
    && (|pares| >= 2 ==> Fuera(valores, {pares[0], pares[1]}) != [])
  }

  lemma Kickers(valores: seq<int>)
    requires Ordenados(valores) && |valores| != 4
    ensures ConKickers(valores)
  {
    var o, cv := Orden(valores), multiset(valores);
    if Filtrar(o, cv, 4) != [] {
      KickerPoquer(valores);
    }
    if |OrdenDesc(Filtrar(o, cv, 2))| >= 2 {
      KickerDoblePar(valores);
    }
  }

  lemma SinColorSinError(valores: seq<int>)
    requires ConKickers(valores)
    ensures SinColor(valores).Ok?
  {
  }

  lemma SinFullSinError(cs: seq<Carta>, valores: seq<int>, color: Option<Palo>)
    requires ConKickers(valores)
    ensures SinFull(cs, valores, color).Ok?
  {
    SinColorSinError(valores);
  }

  lemma SinPoquerSinError(cs: seq<Carta>, valores: seq<int>, color: Option<Palo>)
    requires ConKickers(valores)
    ensures SinPoquer(cs, valores, color).Ok?
  {
    SinFullSinError(cs, valores, color);
  }

  lemma SinEscaleraColorSinError(cs: seq<Carta>, valores: seq<int>, color: Option<Palo>)
    requires ConKickers(valores)
    ensures SinEscaleraColor(cs, valores, color).Ok?
  {
    SinPoquerSinError(cs, valores, color);
  }

  lemma KickersDe(cs: seq<Carta>)
    requires |cs| != 4
    ensures ConKickers(OrdenDesc(Valores(cs)))
  {
    ValoresOrdenados(cs);
    Kickers(OrdenDesc(Valores(cs)));
  }

  lemma SinRealSinError(cs: seq<Carta>)
    requires ConKickers(OrdenDesc(Valores(cs)))
    ensures SinReal(cs).Ok?
  {
    var palos := Palos(cs);
    var color := PrimeroConCinco(Orden(palos), multiset(palos));
    SinEscaleraColorSinError(cs, OrdenDesc(Valores(cs)), color);
  }

  /** `evaluar_mano` only fails on four cards: four of a kind, or two pairs. */
  lemma EvaluacionSinError(cs: seq<Carta>)
    requires |cs| != 4
    ensures Evaluacion(cs).Ok?
  {
    KickersDe(cs);
    SinRealSinError(cs);
  }

  // ---------------------------------------------------------------- the category is the standard one

  /** The multiplicities `ms` of the card values hold four of a kind, and so on. */
  ghost predicate HayPoquer(ms: multiset<int>) { exists v :: ms[v] >= 4 }
  ghost predicate HayFull(ms: multiset<int>) { exists a, b :: a != b && ms[a] >= 3 && ms[b] >= 2 }
  ghost predicate HayTrio(ms: multiset<int>) { exists v :: ms[v] >= 3 }
  ghost predicate HayDoblePar(ms: multiset<int>) { exists a, b :: a != b && ms[a] >= 2 && ms[b] >= 2 }
  ghost predicate HayPar(ms: multiset<int>) { exists v :: ms[v] >= 2 }

  /** Five cards of one suit. */
  ghost predicate HayColor(cs: seq<Carta>) { exists p :: multiset(Palos(cs))[p] >= 5 }

  /** Five values in a row (an ace may play low). */
  ghost predicate HayEscalera(vs: seq<int>) { exists t :: EscaleraEn(ConjuntoDe(vs), t) }

  /** Five values in a row within one suit. */
  ghost predicate HayEscaleraColor(cs: seq<Carta>)
  {
    exists p, t :: EscaleraEn(ConjuntoDe(ValoresDePalo(cs, p)), t)
  }

  /** The standard ranking of a hand: the best category its cards make. */
  ghost function Categoria(cs: seq<Carta>): Mano
  {
    if exists p :: RealEn(cs, p) then EscaleraReal
    else if HayEscaleraColor(cs) then EscaleraColor
    else CategoriaSinEscaleraColor(HayColor(cs), multiset(Valores(cs)), Valores(cs))
  }

  /** The ranking below a straight flush, from whether there is a flush and the values `vs` with multiplicities `ms`. */
  ghost function CategoriaSinEscaleraColor(color: bool, ms: multiset<int>, vs: seq<int>): Mano
  {
    if HayPoquer(ms) then Poquer else CategoriaSinPoquer(color, ms, vs)
  }

  ghost function CategoriaSinPoquer(color: bool, ms: multiset<int>, vs: seq<int>): Mano
  {
    if HayFull(ms) then FullHouse else CategoriaSinFull(color, ms, vs)
  }

  ghost function CategoriaSinFull(color: bool, ms: multiset<int>, vs: seq<int>): Mano
  {
    if color then Color else CategoriaSinColor(ms, vs)
  }

  ghost function CategoriaSinColor(ms: multiset<int>, vs: seq<int>): Mano
  {
    if HayEscalera(vs) then Escalera else CategoriaDesdeTrio(ms)
  }

  ghost function CategoriaDesdeTrio(ms: multiset<int>): Mano
  {
    if HayTrio(ms) then Trio
    else if HayDoblePar(ms) then DoblePar
    else if HayPar(ms) then Par
    else CartaAlta
  }

  /** The cards of one 52-card deck that a hand can hold at showdown: distinct, at most seven. */
  predicate UnaMano(cs: seq<Carta>)
  {
    SinRepetir(cs) && |cs| <= 7
  }

  lemma {:induction false} ConjuntoTam(vs: seq<int>)
    ensures |ConjuntoDe(vs)| <= |vs|
  {
    if vs != [] {
      ConjuntoTam(vs[1..]);
      assert ConjuntoDe(vs) == {vs[0]} + ConjuntoDe(vs[1..]);
    }
  }

  /** A straight needs five different values. */
  lemma EscaleraCinco(vs: seq<int>, t: int)
    requires EscaleraEn(ConjuntoDe(vs), t)
    ensures |vs| >= 5
  {
    var F := {t, t - 1, t - 2, t - 3, Alto(t - 4)};
    assert |F| == 5;
    assert F <= ConjuntoDe(vs);
    ConjuntoTam(vs);
  }

  lemma {:induction false} ValoresDePaloCuenta(cs: seq<Carta>, p: Palo)
    ensures |ValoresDePalo(cs, p)| == multiset(Palos(cs))[p]
  {
    if cs != [] {
      ValoresDePaloCuenta(cs[1..], p);
      assert Palos(cs) == [cs[0].palo] + Palos(cs[1..]);
    }
  }

  lemma {:induction false} DosPalos(cs: seq<Carta>, p: Palo, q: Palo)
    requires p != q
    ensures multiset(Palos(cs))[p] + multiset(Palos(cs))[q] <= |cs|
  {
    if cs != [] {
      DosPalos(cs[1..], p, q);
      assert Palos(cs) == [cs[0].palo] + Palos(cs[1..]);
    }
  }

  /** The suits of the cards of value `v`. */
  function PalosDeValor(cs: seq<Carta>, v: Valor): (ps: seq<Palo>)
    ensures |ps| == multiset(Valores(cs))[v]
    ensures forall x :: x in ps ==> Carta(v, x) in cs
  {
    if cs == [] then []
    else
      var resto := PalosDeValor(cs[1..], v);
      assert Valores(cs) == [cs[0].valor] + Valores(cs[1..]);
      assert forall c :: c in cs[1..] ==> c in cs;
      (if cs[0].valor == v then [cs[0].palo] else []) + resto
  }

  lemma NoEnResto(cs: seq<Carta>)
    requires SinRepetir(cs) && cs != []
    ensures cs[0] !in cs[1..]
  {
  }

  lemma SinRepetirDelante(x: Palo, s: seq<Palo>)
    requires SinRepetir(s) && x !in s
    ensures SinRepetir([x] + s)
  {
    var t := [x] + s;
    forall a, b | 0 <= a < b < |t|
      ensures t[a] != t[b]
    {
      assert t[b] == s[b - 1];
      if a > 0 {
        assert t[a] == s[a - 1];
      }
    }
  }

  lemma {:induction false} PalosDeValorSinRepetir(cs: seq<Carta>, v: Valor)
    requires SinRepetir(cs)
    ensures SinRepetir(PalosDeValor(cs, v))
  {
    if cs != [] {
      PalosDeValorSinRepetir(cs[1..], v);
      var resto := PalosDeValor(cs[1..], v);
      if cs[0].valor == v {
        NoEnResto(cs);
        assert cs[0] == Carta(v, cs[0].palo);
        SinRepetirDelante(cs[0].palo, resto);
      }
    }
  }

  lemma {:induction false} PalosAcotados(s: seq<Palo>, R: set<Palo>)
    requires SinRepetir(s) && forall x :: x in s ==> x in R
    ensures |s| <= |R|
  {
    if s != [] {
      assert forall x :: x in s[1..] ==> x in s && x != s[0];
      PalosAcotados(s[1..], R - {s[0]});
    }
  }

  /** Distinct cards hold each value at most four times, once per suit. */
  lemma UnaBarajaCuenta(cs: seq<Carta>)
    requires SinRepetir(cs)
    ensures forall v :: multiset(Valores(cs))[v] <= 4
  {
    forall v | 2 <= v <= 14
      ensures multiset(Valores(cs))[v] <= 4
    {
      PalosDeValorSinRepetir(cs, v);
      var R := {Corazones, Diamantes, Treboles, Picas};
      forall x | x in PalosDeValor(cs, v)
        ensures x in R
      {
        assert IndicePalo(x) < 4;
      }
      PalosAcotados(PalosDeValor(cs, v), R);
    }
    forall v | !(2 <= v <= 14)
      ensures multiset(Valores(cs))[v] == 0
    {
      var p :| true;
      ValoresDeCartas(cs, p);
    }
  }

  /** `any(cnt == k ...)` over the value counts, when no value is counted more than `k` times: some value is counted `k` times or more. */
  lemma FiltrarEtapa(valores: seq<int>, k: int)
    requires Ordenados(valores) && k > 0 && forall v :: multiset(valores)[v] <= k
    ensures Filtrar(Orden(valores), multiset(valores), k) != [] <==> exists v :: multiset(valores)[v] >= k
  {
    var ms := multiset(valores);
    var f := Filtrar(Orden(valores), ms, k);
    if exists v :: ms[v] >= k {
      var v :| ms[v] >= k;
      assert v in valores;
      assert v in f;
    }
    if f != [] {
      var v := f[0];
      assert v in f && ms[v] == k;
    }
  }

  /** The full-house test on the two leading entries of `valores_ordenados` holds exactly on a full house. */
  lemma FullEtapa(valores: seq<int>)
    requires Ordenados(valores)
    ensures PrimerosFull(valores) <==> HayFull(multiset(valores))
  {
    var o, ms := Orden(valores), multiset(valores);
    if HayFull(ms) {
      var a, b :| a != b && ms[a] >= 3 && ms[b] >= 2;
      assert a in valores && b in valores;
      assert a in o && b in o;
      DosDistintos(o, a, b);
      var m := Mejor(o, ms);
      var n := Segundo(o, ms);
      assert NoSupera(ms, a, m);
      if m == a {
        assert NoSupera(ms, b, n);
      } else {
        assert NoSupera(ms, a, n);
      }
    }
  }

  lemma DosDistintos(s: seq<int>, a: int, b: int)
    requires a in s && b in s && a != b
    ensures |s| >= 2
  {
  }

  /** The two-pair test: at least two paired values exactly on two pair. */
  lemma DobleParEtapa(valores: seq<int>)
    requires Ordenados(valores) && forall v :: multiset(valores)[v] <= 2
    ensures |OrdenDesc(Filtrar(Orden(valores), multiset(valores), 2))| >= 2 <==> HayDoblePar(multiset(valores))
  {
    var ms := multiset(valores);
    var pares := OrdenDesc(Filtrar(Orden(valores), ms, 2));
    Pares(valores);
    if HayDoblePar(ms) {
      var a, b :| a != b && ms[a] >= 2 && ms[b] >= 2;
      assert a in valores && b in valores;
      assert a in pares && b in pares;
      DosDistintos(pares, a, b);
    }
    if |pares| >= 2 {
      assert pares[0] in pares && pares[1] in pares && pares[0] > pares[1];
    }
  }

  /** The one-pair test: some paired value exactly when some value is paired. */
  lemma ParEtapa(valores: seq<int>)
    requires Ordenados(valores) && forall v :: multiset(valores)[v] <= 2
    ensures |OrdenDesc(Filtrar(Orden(valores), multiset(valores), 2))| >= 1 <==> HayPar(multiset(valores))
  {
    var ms := multiset(valores);
    var pares := OrdenDesc(Filtrar(Orden(valores), ms, 2));
    Pares(valores);
    if v :| ms[v] >= 2 {
      assert v in valores;
      assert v in pares;
    }
    if |pares| >= 1 {
      assert pares[0] in pares;
    }
  }

  lemma EscaleraEtapa(vs: seq<int>)
    requires DeCartas(vs)
    ensures EscaleraDe(vs).Some? <==> HayEscalera(vs)
  {
    if EscaleraDe(vs).Some? {
      EscaleraSana(vs);
    }
    if t :| EscaleraEn(ConjuntoDe(vs), t) {
      EscaleraCompleta(vs, t);
    }
  }

  lemma MismoConjunto(a: seq<int>, b: seq<int>)
    requires multiset(a) == multiset(b)
    ensures ConjuntoDe(a) == ConjuntoDe(b)
  {
    forall x
      ensures x in a <==> x in b
    {
      assert x in a <==> x in multiset(a);
      assert x in b <==> x in multiset(b);
    }
  }

  /** `flush_palo` is found exactly on a flush, and with at most nine cards no other suit has five. */
  lemma ColorEtapa(cs: seq<Carta>)
    requires |cs| <= 9
    ensures var palos := Palos(cs);
            var color := PrimeroConCinco(Orden(palos), multiset(palos));
            && (color.Some? <==> HayColor(cs))
            && (color.Some? ==> forall p :: multiset(palos)[p] >= 5 ==> p == color.value)
  {
    var palos := Palos(cs);
    var ms := multiset(palos);
    var color := PrimeroConCinco(Orden(palos), ms);
    ConteoCuenta(palos);
    if HayColor(cs) {
      var p :| ms[p] >= 5;
      assert p in palos;
      assert p in Orden(palos);
    }
    if color.Some? {
      forall p | ms[p] >= 5
        ensures p == color.value
      {
        if p != color.value {
          DosPalos(cs, p, color.value);
        }
      }
    }
  }

  /** The straight-flush test, made on `flush_palo` only, holds exactly on a straight flush. */
  lemma EscaleraColorEtapa(cs: seq<Carta>)
    requires |cs| <= 9
    ensures var palos := Palos(cs);
            var color := PrimeroConCinco(Orden(palos), multiset(palos));
            (color.Some? && EscaleraDe(ValoresDePalo(cs, color.value)).Some?) <==> HayEscaleraColor(cs)
  {
    var palos := Palos(cs);
    var color := PrimeroConCinco(Orden(palos), multiset(palos));
    ColorEtapa(cs);
    if color.Some? && EscaleraDe(ValoresDePalo(cs, color.value)).Some? {
      var q := color.value;
      ValoresDeCartas(cs, q);
      EscaleraSana(ValoresDePalo(cs, q));
    }
    if HayEscaleraColor(cs) {
      var p, t :| EscaleraEn(ConjuntoDe(ValoresDePalo(cs, p)), t);
      EscaleraCinco(ValoresDePalo(cs, p), t);
      ValoresDePaloCuenta(cs, p);
      assert HayColor(cs);
      ValoresDeCartas(cs, p);
      EscaleraCompleta(ValoresDePalo(cs, p), t);
    }
  }

  /** The last three tests of `evaluar_mano` pick two pair, pair or high card by the number of paired values. */
  lemma DesdeParesCategoria(valores: seq<int>, pares: seq<int>, doble: bool, par: bool)
    requires |pares| >= 2 <==> doble
    requires |pares| >= 1 <==> par
    ensures DesdePares(valores, pares).Ok? ==>
            DesdePares(valores, pares).value.mano == (if doble then DoblePar else if par then Par else CartaAlta)
  {
  }

  lemma DesdeTrioCategoria(valores: seq<int>)
    requires Ordenados(valores) && forall v :: multiset(valores)[v] <= 3
    ensures DesdeTrio(valores).Ok? ==> DesdeTrio(valores).value.mano == CategoriaDesdeTrio(multiset(valores))
  {
    var ms := multiset(valores);
    FiltrarEtapa(valores, 3);
    if !HayTrio(ms) {
      var pares := OrdenDesc(Filtrar(Orden(valores), ms, 2));
      DobleParEtapa(valores);
      ParEtapa(valores);
      DesdeParesCategoria(valores, pares, HayDoblePar(ms), HayPar(ms));
    }
  }

  lemma SinColorCategoria(valores: seq<int>)
    requires Ordenados(valores) && forall v :: multiset(valores)[v] <= 3
    ensures SinColor(valores).Ok? ==> SinColor(valores).value.mano == CategoriaSinColor(multiset(valores), valores)
  {
    EscaleraEtapa(valores);
    DesdeTrioCategoria(valores);
  }

  lemma SinFullCategoria(cs: seq<Carta>, valores: seq<int>, color: Option<Palo>)
    requires Ordenados(valores) && forall v :: multiset(valores)[v] <= 3
    ensures SinFull(cs, valores, color).Ok? ==>
            SinFull(cs, valores, color).value.mano == CategoriaSinFull(color.Some?, multiset(valores), valores)
  {
    SinColorCategoria(valores);
  }

  lemma SinPoquerCategoria(cs: seq<Carta>, valores: seq<int>, color: Option<Palo>)
    requires Ordenados(valores) && forall v :: multiset(valores)[v] <= 3
    ensures SinPoquer(cs, valores, color).Ok? ==>
            SinPoquer(cs, valores, color).value.mano == CategoriaSinPoquer(color.Some?, multiset(valores), valores)
  {
    FullEtapa(valores);
    SinFullCategoria(cs, valores, color);
  }

  lemma SinEscaleraColorCategoria(cs: seq<Carta>, valores: seq<int>, color: Option<Palo>)
    requires Ordenados(valores) && forall v :: multiset(valores)[v] <= 4
    ensures SinEscaleraColor(cs, valores, color).Ok? ==>
            SinEscaleraColor(cs, valores, color).value.mano == CategoriaSinEscaleraColor(color.Some?, multiset(valores), valores)
  {
    FiltrarEtapa(valores, 4);
    if !HayPoquer(multiset(valores)) {
      SinPoquerCategoria(cs, valores, color);
    }
  }

  /** Below a straight flush the sorted values rank as the hand's own values do. */
  lemma ValoresCategoria(cs: seq<Carta>, color: Option<Palo>)
    requires UnaMano(cs)
    ensures var valores := OrdenDesc(Valores(cs));
            SinEscaleraColor(cs, valores, color).Ok? ==>
            SinEscaleraColor(cs, valores, color).value.mano ==
            CategoriaSinEscaleraColor(color.Some?, multiset(Valores(cs)), Valores(cs))
  {
    var valores := OrdenDesc(Valores(cs));
    ValoresOrdenados(cs);
    UnaBarajaCuenta(cs);
    SinEscaleraColorCategoria(cs, valores, color);
    MismaCategoria(color.Some?, valores, Valores(cs));
  }

  lemma MismaCategoria(color: bool, a: seq<int>, b: seq<int>)
    requires multiset(a) == multiset(b)
    ensures CategoriaSinEscaleraColor(color, multiset(a), a) == CategoriaSinEscaleraColor(color, multiset(b), b)
  {
    MismoConjunto(a, b);
  }

  lemma SinRealCategoria(cs: seq<Carta>)
    requires UnaMano(cs)
    ensures SinReal(cs).Ok? ==>
            SinReal(cs).value.mano ==
            if HayEscaleraColor(cs) then EscaleraColor
            else CategoriaSinEscaleraColor(HayColor(cs), multiset(Valores(cs)), Valores(cs))
  {
    var palos := Palos(cs);
    var color := PrimeroConCinco(Orden(palos), multiset(palos));
    EscaleraColorEtapa(cs);
    ColorEtapa(cs);
    ValoresCategoria(cs, color);
  }

  /**
   * `evaluar_mano` names the standard category of any hand of distinct
   * cards, and answers on every such hand but a four-card one.
   */
  lemma EvaluacionCategoria(cs: seq<Carta>)
    requires UnaMano(cs)
    ensures Evaluacion(cs).Ok? ==> Evaluacion(cs).value.mano == Categoria(cs)
    ensures |cs| != 4 ==> Evaluacion(cs).Ok?
  {
    if |cs| != 4 {
      EvaluacionSinError(cs);
    }
    if !exists p :: RealEn(cs, p) {
      SinRealCategoria(cs);
      assert Evaluacion(cs) == SinReal(cs);
    }
  }

  // ---------------------------------------------------------------- `evaluar_mano` step by step

  /** The counting loops of `evaluar_mano`: `d[x] = d.get(x, 0) + 1` over `s`, keys kept in insertion order. */
  method Contar<T(==)>(s: seq<T>) returns (conteo: map<T, int>, orden: seq<T>)
    ensures conteo == Conteo(s) && orden == Orden(s)
  {
    conteo, orden := map[], [];
    for i := 0 to |s|
      invariant conteo == Conteo(s[..i]) && orden == Orden(s[..i])
    {
      assert s[..i + 1][..i] == s[..i];
      ConteoCuenta(s[..i]);
      if s[i] !in conteo {
        orden := orden + [s[i]];
      }
      conteo := conteo[s[i] := Cuenta(conteo, s[i]) + 1];
    }
    assert s[..|s|] == s;
  }

  /** The loop over `Palo` looking for 10 to the ace in one suit. */
  method BuscarReal(cs: seq<Carta>) returns (hay: bool)
    ensures hay <==> exists p :: RealEn(cs, p)
  {
    for i := 0 to 4
      invariant forall k :: 0 <= k < i ==> !RealEn(cs, PALOS[k])
    {
      var vals := ConjuntoDe(ValoresDePalo(cs, PALOS[i]));
      if {10, 11, 12, 13, 14} <= vals {
        assert RealEn(cs, PALOS[i]);
        return true;
      }
    }
    forall p
      ensures !RealEn(cs, p)
    {
      assert PALOS[IndicePalo(p)] == p;
    }
    return false;
  }

  /** The loop that sets `flush_palo`: the first suit of the dictionary counted five times or more. */
  method BuscarColor(conteo: map<Palo, int>, orden: seq<Palo>, ghost palos: seq<Palo>) returns (color: Option<Palo>)
    requires conteo == Conteo(palos) && orden == Orden(palos)
    ensures color == PrimeroConCinco(orden, multiset(palos))
  {
    ConteoCuenta(palos);
    var ms := multiset(palos);
    var i := 0;
    while i < |orden|
      invariant i <= |orden|
      invariant PrimeroConCinco(orden[i..], ms) == PrimeroConCinco(orden, ms)
    {
      var p := orden[i];
      assert p in palos;
      if conteo[p] >= 5 {
        return Some(p);
      }
      assert orden[i..][1..] == orden[i + 1..];
      i := i + 1;
    }
    return None;
  }

  /** `for i in range(len(u) - 4)` in `hay_escalera`: the first window whose ends differ by 4. */
  method BuscarVentana(u: seq<int>) returns (r: Option<seq<int>>)
    ensures r == Buscar(u, 0)
  {
    var i := 0;
    while i + 4 < |u|
      invariant Buscar(u, i) == Buscar(u, 0)
      decreases |u| - i
    {
      if u[i] - u[i + 4] == 4 {
        return Some(u[i..i + 5]);
      }
      i := i + 1;
    }
    return None;
  }

  /** `hay_escalera(valset)`. */
  method BuscarEscalera(vs: seq<int>) returns (r: Option<seq<int>>)
    ensures r == EscaleraDe(vs)
  {
    var u := Distintos(ConjuntoDe(vs), AS);
    r := BuscarVentana(u);
    if r.None? && AS in u {
      var u2 := Distintos(ConjuntoDe(vs) - {AS} + {1}, AS);
      r := BuscarVentana(u2);
    }
  }

  /** `evaluar_mano(cartas)`, loop by loop; it computes `Evaluacion`. */
  method EvaluarMano(cs: seq<Carta>) returns (r: Result<Valoracion>)
    ensures r == Evaluacion(cs)
  {
    var royal := BuscarReal(cs);
    if royal {
      return Ok(Valoracion(EscaleraReal, [14, 13, 12, 11, 10]));
    }
    r := EvaluarSinReal(cs);
  }

  /** `evaluar_mano` from the flush candidate on. */
  method EvaluarSinReal(cs: seq<Carta>) returns (r: Result<Valoracion>)
    ensures r == SinReal(cs)
  {
    var valores := OrdenDesc(Valores(cs));
    var palos := Palos(cs);
    var conteoPalos, ordenPalos := Contar(palos);
    var color := BuscarColor(conteoPalos, ordenPalos, palos);
    if color.Some? {
      var ec := BuscarEscalera(ValoresDePalo(cs, color.value));
      if ec.Some? {
        return Ok(Valoracion(EscaleraColor, ec.value));
      }
    }
    r := EvaluarSinEscaleraColor(cs, valores, color);
  }

  /** `evaluar_mano` from four of a kind on, with the counting loop over the values. */
  method EvaluarSinEscaleraColor(cs: seq<Carta>, valores: seq<int>, color: Option<Palo>) returns (r: Result<Valoracion>)
    ensures r == SinEscaleraColor(cs, valores, color)
  {
    var conteoValores, ordenValores := Contar(valores);
    var cuatros := Filtrar(ordenValores, multiset(valores), 4);
    if cuatros != [] {
      return ConPoquer(valores, Maximo(cuatros));
    }
    if PrimerosFull(valores) {
      OrdenSinRepetir(valores);
      return Ok(Valoracion(FullHouse, [Mejor(ordenValores, multiset(valores)), Segundo(ordenValores, multiset(valores))]));
    }
    if color.Some? {
      return Ok(ConColor(cs, color.value));
    }
    var escalera := BuscarEscalera(valores);
    if escalera.Some? {
      return Ok(Valoracion(Escalera, escalera.value));
    }
    return DesdeTrio(valores);
  }

  // ---------------------------------------------------------------- showdown

  /** Who the showdown favours: `ganador` of `_resolver_showdown`, `Empate` for a split pot. */
  datatype Vencedor = GanaJugador | GanaBanca | Empate

  function Contrario(g: Vencedor): Vencedor
  {
    match g
    case GanaJugador => GanaBanca
    case GanaBanca => GanaJugador
    case Empate => Empate
  }

  /** The kicker loop over `zip(vals_j, vals_b)`: the first position where the lists differ decides; `zip` stops at the shorter. */
  function Desempate(a: seq<int>, b: seq<int>): Vencedor
    decreases |a|
  {
    if a == [] || b == [] then Empate
    else if a[0] > b[0] then GanaJugador
    else if b[0] > a[0] then GanaBanca
    else Desempate(a[1..], b[1..])
  }

  /** The category decides first, then the kickers. */
  function Veredicto(j: Valoracion, b: Valoracion): Vencedor
  {
    if Fuerza(j.mano) > Fuerza(b.mano) then GanaJugador
    else if Fuerza(b.mano) > Fuerza(j.mano) then GanaBanca
    else Desempate(j.desempate, b.desempate)
  }

  /** The player wins the kickers exactly when the lists agree up to some position at which the player's is higher. */
  lemma {:induction false} DesempateGana(a: seq<int>, b: seq<int>)
    ensures Desempate(a, b) == GanaJugador <==> exists k :: 0 <= k < |a| && k < |b| && a[..k] == b[..k] && a[k] > b[k]
    decreases |a|
  {
    if a == [] || b == [] {
    } else if a[0] > b[0] {
      assert a[..0] == b[..0];
    } else if b[0] > a[0] {
    } else {
      DesempateGana(a[1..], b[1..]);
      if Desempate(a, b) == GanaJugador {
        var k :| 0 <= k < |a| - 1 && k < |b| - 1 && a[1..][..k] == b[1..][..k] && a[1..][k] > b[1..][k];
        assert a[..k + 1] == [a[0]] + a[1..][..k];
        assert b[..k + 1] == [b[0]] + b[1..][..k];
        assert a[k + 1] > b[k + 1];
      }
      if k :| 0 <= k < |a| && k < |b| && a[..k] == b[..k] && a[k] > b[k] {
        assert k > 0;
        assert a[1..][..k - 1] == a[..k][1..] && b[1..][..k - 1] == b[..k][1..];
        assert a[1..][k - 1] > b[1..][k - 1];
      }
    }
  }

  /** Swapping the lists swaps the winner. */
  lemma {:induction false} DesempateSimetrico(a: seq<int>, b: seq<int>)
    ensures Desempate(b, a) == Contrario(Desempate(a, b))
    decreases |a|
  {
    if a != [] && b != [] && a[0] == b[0] {
      DesempateSimetrico(a[1..], b[1..]);
    }
  }

  /** Kicker lists of equal length split the pot exactly when they are equal. */
  lemma {:induction false} EmpateIguales(a: seq<int>, b: seq<int>)
    requires |a| == |b|
    ensures Desempate(a, b) == Empate <==> a == b
    decreases |a|
  {
    if a != [] && a[0] == b[0] {
      EmpateIguales(a[1..], b[1..]);
      if a[1..] == b[1..] {
        assert a == [a[0]] + a[1..] && b == [b[0]] + b[1..];
      }
    }
  }

  /** The showdown does not depend on which hand is the player's. */
  lemma VeredictoSimetrico(j: Valoracion, b: Valoracion)
    ensures Veredicto(b, j) == Contrario(Veredicto(j, b))
  {
    DesempateSimetrico(j.desempate, b.desempate);
  }

  /** The kicker loop with its `break`s; it computes `Desempate`. */
  method Desempatar(vj: seq<int>, vb: seq<int>) returns (ganador: Vencedor)
    ensures ganador == Desempate(vj, vb)
  {
    var i := 0;
    while i < |vj| && i < |vb|
      invariant i <= |vj| && i <= |vb|
      invariant Desempate(vj[i..], vb[i..]) == Desempate(vj, vb)
      decreases |vj| - i
    {
      if vj[i] > vb[i] {
        return GanaJugador;
      }
      if vb[i] > vj[i] {
        return GanaBanca;
      }
      assert vj[i..][1..] == vj[i + 1..] && vb[i..][1..] == vb[i + 1..];
      i := i + 1;
    }
    return Empate;
  }
}
