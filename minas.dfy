/**
 * The mines game of app/services/juegos/minas.py: a square board with hidden
 * mines, a flood-filling open, flags, cashing out and the handlers that move
 * the balance. The mine positions drawn by `random.sample` and the session id
 * (`uuid4`) are parameters.
 */
module Minas {
  import opened Wrappers
  import opened Modelos

  datatype Config = Config(tamano: int, minas: int, multiplicadorBase: real)

  /** `MINAS_CONFIG`. */
  function ConfigDe(dificultad: string): (c: Option<Config>)
    ensures c.Some? ==> c.value.tamano in {5, 6, 7} && 0 < c.value.minas < c.value.tamano * c.value.tamano
  {
    if dificultad == "facil" then Some(Config(5, 5, 1.05))
    else if dificultad == "medio" then Some(Config(6, 10, 1.10))
    else if dificultad == "dificil" then Some(Config(7, 20, 1.15))
    else None
  }

  const APUESTA_MINIMA: int := 100

  // ---------------------------------------------------------------- the board

  /** One cell dictionary of `tablero` (its `x`/`y` keys are its indices). */
  datatype Casilla = Casilla(esMina: bool, abierta: bool, marcada: bool, minasCercanas: int)

  type Tablero = seq<seq<Casilla>>

  /** The eight neighbour offsets, in the order both loops visit them. */
  const DIRECCIONES: seq<(int, int)> := [(-1, -1), (-1, 0), (-1, 1), (0, -1), (0, 1), (1, -1), (1, 0), (1, 1)]

  predicate Cuadrado(b: Tablero, n: int)
  {
    |b| == n && forall i :: 0 <= i < n ==> |b[i]| == n
  }

  predicate EnRango(n: int, x: int, y: int)
  {
    0 <= x < n && 0 <= y < n
  }

  predicate EsMinaEn(b: Tablero, n: int, x: int, y: int)
    requires Cuadrado(b, n)
  {
    EnRango(n, x, y) && b[x][y].esMina
  }

  /** How many of the first `k` neighbours of `(x, y)` are mines on the board. */
  function MinasCercanas(b: Tablero, n: int, x: int, y: int, k: int): (c: int)
    requires Cuadrado(b, n) && 0 <= k <= 8
  {
    if k == 0 then 0
    else MinasCercanas(b, n, x, y, k - 1)
         + (if EsMinaEn(b, n, x + DIRECCIONES[k - 1].0, y + DIRECCIONES[k - 1].1) then 1 else 0)
  }

  /** The count is at most the number of neighbours looked at, and zero exactly when none of them is a mine. */
  lemma {:induction false} MinasCercanasCero(b: Tablero, n: int, x: int, y: int, k: int)
    requires Cuadrado(b, n) && 0 <= k <= 8
    ensures 0 <= MinasCercanas(b, n, x, y, k) <= k
    ensures MinasCercanas(b, n, x, y, k) == 0 <==>
      forall d :: 0 <= d < k ==> !EsMinaEn(b, n, x + DIRECCIONES[d].0, y + DIRECCIONES[d].1)
  {
    if k > 0 {
      MinasCercanasCero(b, n, x, y, k - 1);
    }
  }

  /** Boards with their mines in the same cells. */
  ghost predicate MismasMinas(b1: Tablero, b2: Tablero, n: int)
    requires Cuadrado(b1, n) && Cuadrado(b2, n)
  {
    forall i, j :: EnRango(n, i, j) ==> b1[i][j].esMina == b2[i][j].esMina
  }

  /** The counts only depend on where the mines are. */
  lemma {:induction false} MinasCercanasMismas(b1: Tablero, b2: Tablero, n: int, x: int, y: int, k: int)
    requires Cuadrado(b1, n) && Cuadrado(b2, n) && MismasMinas(b1, b2, n) && 0 <= k <= 8
    ensures MinasCercanas(b1, n, x, y, k) == MinasCercanas(b2, n, x, y, k)
  {
    if k > 0 {
      MinasCercanasMismas(b1, b2, n, x, y, k - 1);
    }
  }

  /** `_contar_minas_cercanas`: one pass over the eight directions. */
  method ContarMinasCercanas(b: Tablero, n: int, x: int, y: int) returns (contador: int)
    requires Cuadrado(b, n)
    ensures contador == MinasCercanas(b, n, x, y, 8)
  {
    contador := 0;
    for d := 0 to 8
      invariant contador == MinasCercanas(b, n, x, y, d)
    {
      var nx, ny := x + DIRECCIONES[d].0, y + DIRECCIONES[d].1;
      if 0 <= nx < n && 0 <= ny < n {
        if b[nx][ny].esMina {
          contador := contador + 1;
        }
      }
    }
  }

  /** `i * tamano + j`, the number `random.sample` draws for cell `(i, j)`. */
  function Posicion(n: int, i: int, j: int): int
  {
    i * n + j
  }

  /**
   * The board `_generar_tablero` builds from the sampled positions: a mine
   * exactly where the position was drawn, everything closed and unflagged,
   * and every other cell holding its count of neighbouring mines (mines keep 0).
   */
  ghost predicate EsTableroDe(b: Tablero, n: int, posiciones: set<int>)
  {
    && Cuadrado(b, n)
    && (forall i, j :: EnRango(n, i, j) ==>
          && b[i][j].esMina == (Posicion(n, i, j) in posiciones)
          && !b[i][j].abierta && !b[i][j].marcada
          && b[i][j].minasCercanas == (if b[i][j].esMina then 0 else MinasCercanas(b, n, i, j, 8)))
  }

  /** The first loop of `_generar_tablero`: the mine flags, counts at 0. */
  method TableroSinCuentas(n: int, posiciones: set<int>) returns (b: Tablero)
    requires n >= 0
    ensures Cuadrado(b, n)
    ensures forall i, j :: EnRango(n, i, j) ==> b[i][j] == Casilla(Posicion(n, i, j) in posiciones, false, false, 0)
  {
    b := [];
    for i := 0 to n
      invariant |b| == i
      invariant forall r :: 0 <= r < i ==> |b[r]| == n
      invariant forall r, j :: 0 <= r < i && 0 <= j < n ==> b[r][j] == Casilla(Posicion(n, r, j) in posiciones, false, false, 0)
    {
      var fila: seq<Casilla> := [];
      for j := 0 to n
        invariant |fila| == j
        invariant forall c :: 0 <= c < j ==> fila[c] == Casilla(Posicion(n, i, c) in posiciones, false, false, 0)
      {
        var posicion := i * n + j;
        var esMina := posicion in posiciones;
        fila := fila + [Casilla(esMina, false, false, 0)];
      }
      b := b + [fila];
    }
  }

  /** `_generar_tablero`: the flags, then the count of every cell that is not a mine. */
  method GenerarTablero(n: int, posiciones: set<int>) returns (b: Tablero)
    requires n >= 0
    ensures EsTableroDe(b, n, posiciones)
  {
    b := TableroSinCuentas(n, posiciones);
    ghost var b0 := b;
    for i := 0 to n
      invariant Cuadrado(b, n) && MismasMinas(b0, b, n)
      invariant forall r, j :: EnRango(n, r, j) ==> b[r][j].esMina == b0[r][j].esMina && !b[r][j].abierta && !b[r][j].marcada
      invariant forall r, j :: EnRango(n, r, j) && r >= i ==> b[r][j] == b0[r][j]
      invariant forall r, j :: EnRango(n, r, j) && r < i ==>
                  b[r][j].minasCercanas == (if b[r][j].esMina then 0 else MinasCercanas(b0, n, r, j, 8))
    {
      for j := 0 to n
        invariant Cuadrado(b, n) && MismasMinas(b0, b, n)
        invariant forall r, c :: EnRango(n, r, c) ==> b[r][c].esMina == b0[r][c].esMina && !b[r][c].abierta && !b[r][c].marcada
        invariant forall r, c :: EnRango(n, r, c) && (r > i || (r == i && c >= j)) ==> b[r][c] == b0[r][c]
        invariant forall r, c :: EnRango(n, r, c) && (r < i || (r == i && c < j)) ==>
                    b[r][c].minasCercanas == (if b[r][c].esMina then 0 else MinasCercanas(b0, n, r, c, 8))
      {
        if !b[i][j].esMina {
          var minasCercanas := ContarMinasCercanas(b, n, i, j);
          MinasCercanasMismas(b0, b, n, i, j, 8);
          b := b[i := b[i][j := b[i][j].(minasCercanas := minasCercanas)]];
        }
      }
    }
    forall i, j | EnRango(n, i, j)
      ensures MinasCercanas(b, n, i, j, 8) == MinasCercanas(b0, n, i, j, 8)
    {
      MinasCercanasMismas(b0, b, n, i, j, 8);
    }
  }

  /** The sample `random.sample(range(tamano * tamano), minas)` can return. */
  predicate MuestraValida(posiciones: set<int>, c: Config)
  {
    |posiciones| == c.minas && forall p :: p in posiciones ==> 0 <= p < c.tamano * c.tamano
  }

  /** The cells holding a mine. */
  ghost function MinasDe(b: Tablero, n: int): set<(int, int)>
    requires Cuadrado(b, n)
  {
    set i, j | 0 <= i < n && 0 <= j < n && b[i][j].esMina :: (i, j)
  }

  /** The cells the drawn positions stand for: row `p / tamano`, column `p % tamano`. */
  ghost function Coordenadas(s: set<int>, n: int): set<(int, int)>
    requires n > 0
  {
    set p | p in s :: (p / n, p % n)
  }

  /** Distinct positions stand for distinct cells. */
  lemma {:induction false} CoordenadasCard(s: set<int>, n: int)
    requires n > 0
    ensures |Coordenadas(s, n)| == |s|
    decreases s
  {
    if s != {} {
      Elemento(s);
      var p :| p in s;
      var t := s - {p};
      CoordenadasCard(t, n);
      assert Coordenadas(s, n) == Coordenadas(t, n) + {(p / n, p % n)};
      forall q | q in t
        ensures (q / n, q % n) != (p / n, p % n)
      {
        Inyectiva(q, p, n);
      }
      assert (p / n, p % n) !in Coordenadas(t, n);
    }
  }

  lemma Inyectiva(p: int, q: int, n: int)
    requires n > 0 && p != q
    ensures (p / n, p % n) != (q / n, q % n)
  {
    assert p == n * (p / n) + p % n;
    assert q == n * (q / n) + q % n;
  }

  lemma DivMod(n: int, i: int, j: int)
    requires n in {5, 6, 7} && EnRango(n, i, j)
    ensures Posicion(n, i, j) / n == i && Posicion(n, i, j) % n == j
  {
  }

  lemma DivModInversa(n: int, p: int)
    requires n in {5, 6, 7} && 0 <= p < n * n
    ensures EnRango(n, p / n, p % n) && Posicion(n, p / n, p % n) == p
  {
  }

  /** The board has a mine on exactly one cell per drawn position, so `minas_totales` mines. */
  lemma MinasExactas(b: Tablero, c: Config, posiciones: set<int>)
    requires c.tamano in {5, 6, 7} && MuestraValida(posiciones, c) && EsTableroDe(b, c.tamano, posiciones)
    ensures |MinasDe(b, c.tamano)| == c.minas
  {
    MinasEnPosiciones(b, c.tamano, posiciones);
    PosicionesEnMinas(b, c, posiciones);
    assert MinasDe(b, c.tamano) == Coordenadas(posiciones, c.tamano);
    CoordenadasCard(posiciones, c.tamano);
  }

  lemma MinasEnPosiciones(b: Tablero, n: int, posiciones: set<int>)
    requires n in {5, 6, 7} && EsTableroDe(b, n, posiciones)
    ensures MinasDe(b, n) <= Coordenadas(posiciones, n)
  {
    forall q | q in MinasDe(b, n)
      ensures q in Coordenadas(posiciones, n)
    {
      DivMod(n, q.0, q.1);
      assert Posicion(n, q.0, q.1) in posiciones;
    }
  }

  lemma PosicionesEnMinas(b: Tablero, c: Config, posiciones: set<int>)
    requires c.tamano in {5, 6, 7} && MuestraValida(posiciones, c) && EsTableroDe(b, c.tamano, posiciones)
    ensures Coordenadas(posiciones, c.tamano) <= MinasDe(b, c.tamano)
  {
    forall p | p in posiciones
      ensures (p / c.tamano, p % c.tamano) in MinasDe(b, c.tamano)
    {
      PosicionEnMinas(b, c.tamano, posiciones, p);
    }
  }

  lemma PosicionEnMinas(b: Tablero, n: int, posiciones: set<int>, p: int)
    requires n in {5, 6, 7} && EsTableroDe(b, n, posiciones) && p in posiciones && 0 <= p < n * n
    ensures (p / n, p % n) in MinasDe(b, n)
  {
    DivModInversa(n, p);
    assert b[p / n][p % n].esMina;
  }

  // ------------------------------------------------------- board invariants

  ghost predicate SinRepetidos(s: seq<(int, int)>)
  {
    forall k, l :: 0 <= k < l < |s| ==> s[k] != s[l]
  }

  /** `casillas_abiertas` lists, once each, exactly the open cells that are not mines. */
  ghost predicate AbiertasExactas(b: Tablero, n: int, ab: seq<(int, int)>)
    requires Cuadrado(b, n)
  {
    && (forall k :: 0 <= k < |ab| ==> EnRango(n, ab[k].0, ab[k].1) && b[ab[k].0][ab[k].1].abierta && !b[ab[k].0][ab[k].1].esMina)
    && (forall i, j {:trigger b[i][j]} :: EnRango(n, i, j) && b[i][j].abierta && !b[i][j].esMina ==> (i, j) in ab)
    && SinRepetidos(ab)
  }

  /** `casillas_marcadas` lists, once each, exactly the flagged cells. */
  ghost predicate MarcadasExactas(b: Tablero, n: int, mc: seq<(int, int)>)
    requires Cuadrado(b, n)
  {
    && (forall k :: 0 <= k < |mc| ==> EnRango(n, mc[k].0, mc[k].1) && b[mc[k].0][mc[k].1].marcada)
    && (forall i, j {:trigger b[i][j]} :: EnRango(n, i, j) && b[i][j].marcada ==> (i, j) in mc)
    && SinRepetidos(mc)
  }

  /** The board, its two lists, and no cell both open and flagged. */
  ghost predicate Consistente(b: Tablero, n: int, ab: seq<(int, int)>, mc: seq<(int, int)>)
  {
    && Cuadrado(b, n)
    && AbiertasExactas(b, n, ab)
    && MarcadasExactas(b, n, mc)
    && (forall i, j {:trigger b[i][j]} :: EnRango(n, i, j) ==> !(b[i][j].abierta && b[i][j].marcada))
  }

  /** The board with cell `(x, y)` open. */
  function Abrir(b: Tablero, x: int, y: int): Tablero
    requires 0 <= x < |b| && 0 <= y < |b[x]|
  {
    b[x := b[x][y := b[x][y].(abierta := true)]]
  }

  /** `b` only differs from `b0` by opening cells that were closed, unflagged and not mines. */
  ghost predicate Avance(b0: Tablero, b: Tablero, n: int)
    requires Cuadrado(b0, n) && Cuadrado(b, n)
  {
    forall i, j {:trigger b[i][j]} :: EnRango(n, i, j) ==>
      b[i][j] == b0[i][j] ||
      (b[i][j] == b0[i][j].(abierta := true) && !b0[i][j].abierta && !b0[i][j].marcada && !b0[i][j].esMina)
  }

  /** Out of the board, open, a mine or flagged: the flood fill has nothing left to do there. */
  predicate Cubierta(b: Tablero, n: int, x: int, y: int)
    requires Cuadrado(b, n)
  {
    EnRango(n, x, y) ==> b[x][y].abierta || b[x][y].esMina || b[x][y].marcada
  }

  ghost predicate VecinosCubiertos(b: Tablero, n: int, x: int, y: int)
    requires Cuadrado(b, n)
  {
    forall d :: 0 <= d < 8 ==> Cubierta(b, n, x + DIRECCIONES[d].0, y + DIRECCIONES[d].1)
  }

  /** Every cell opened since `b0` that has no neighbouring mine has all its neighbours covered. */
  ghost predicate Cerrado(b0: Tablero, b: Tablero, n: int)
    requires Cuadrado(b0, n) && Cuadrado(b, n)
  {
    forall i, j {:trigger VecinosCubiertos(b, n, i, j)} :: EnRango(n, i, j) && b[i][j].abierta && !b0[i][j].abierta && b[i][j].minasCercanas == 0 ==>
      VecinosCubiertos(b, n, i, j)
  }

  /** The closed cells; the flood fill's measure. */
  ghost function CerradasDe(b: Tablero): set<(int, int)>
  {
    set i, j | 0 <= i < |b| && 0 <= j < |b[i]| && !b[i][j].abierta :: (i, j)
  }

  lemma AvanceTransitivo(b0: Tablero, b1: Tablero, b2: Tablero, n: int)
    requires Cuadrado(b0, n) && Cuadrado(b1, n) && Cuadrado(b2, n)
    requires Avance(b0, b1, n) && Avance(b1, b2, n)
    ensures Avance(b0, b2, n)
    ensures CerradasDe(b2) <= CerradasDe(b1)
  {
  }

  lemma CubiertaAvanza(b1: Tablero, b2: Tablero, n: int, x: int, y: int)
    requires Cuadrado(b1, n) && Cuadrado(b2, n) && Avance(b1, b2, n)
    ensures Cubierta(b1, n, x, y) ==> Cubierta(b2, n, x, y)
    ensures VecinosCubiertos(b1, n, x, y) ==> VecinosCubiertos(b2, n, x, y)
  {
    if VecinosCubiertos(b1, n, x, y) {
      forall d | 0 <= d < 8
        ensures Cubierta(b2, n, x + DIRECCIONES[d].0, y + DIRECCIONES[d].1)
      {
        assert Cubierta(b1, n, x + DIRECCIONES[d].0, y + DIRECCIONES[d].1);
      }
    }
  }

  lemma CerradoTransitivo(b0: Tablero, b1: Tablero, b2: Tablero, n: int)
    requires Cuadrado(b0, n) && Cuadrado(b1, n) && Cuadrado(b2, n)
    requires Avance(b0, b1, n) && Avance(b1, b2, n) && Cerrado(b0, b1, n) && Cerrado(b1, b2, n)
    ensures Cerrado(b0, b2, n)
  {
    forall i, j | EnRango(n, i, j) && b2[i][j].abierta && !b0[i][j].abierta && b2[i][j].minasCercanas == 0
      ensures VecinosCubiertos(b2, n, i, j)
    {
      if b1[i][j].abierta {
        CubiertaAvanza(b1, b2, n, i, j);
      }
    }
  }

  /** Opening one closed, unflagged cell that is not a mine and listing it keeps the board consistent. */
  lemma AbrirUna(b: Tablero, n: int, ab: seq<(int, int)>, mc: seq<(int, int)>, x: int, y: int)
    requires Consistente(b, n, ab, mc)
    requires EnRango(n, x, y) && !b[x][y].abierta && !b[x][y].marcada && !b[x][y].esMina
    ensures (x, y) !in ab
    ensures Cuadrado(Abrir(b, x, y), n) && Consistente(Abrir(b, x, y), n, ab + [(x, y)], mc)
    ensures Avance(b, Abrir(b, x, y), n)
    ensures b[x][y].minasCercanas != 0 ==> Cerrado(b, Abrir(b, x, y), n)
    ensures CerradasDe(Abrir(b, x, y)) < CerradasDe(b)
  {
    AbrirUnaConsistente(b, n, ab, mc, x, y);
    AbrirUnaAvanza(b, n, x, y);
  }

  lemma AbrirUnaConsistente(b: Tablero, n: int, ab: seq<(int, int)>, mc: seq<(int, int)>, x: int, y: int)
    requires Consistente(b, n, ab, mc)
    requires EnRango(n, x, y) && !b[x][y].abierta && !b[x][y].marcada && !b[x][y].esMina
    ensures (x, y) !in ab
    ensures Cuadrado(Abrir(b, x, y), n) && Consistente(Abrir(b, x, y), n, ab + [(x, y)], mc)
  {
  }

  lemma AbrirUnaAvanza(b: Tablero, n: int, x: int, y: int)
    requires Cuadrado(b, n)
    requires EnRango(n, x, y) && !b[x][y].abierta && !b[x][y].marcada && !b[x][y].esMina
    ensures Cuadrado(Abrir(b, x, y), n) && Avance(b, Abrir(b, x, y), n)
    ensures b[x][y].minasCercanas != 0 ==> Cerrado(b, Abrir(b, x, y), n)
    ensures CerradasDe(Abrir(b, x, y)) < CerradasDe(b)
  {
    var b1 := Abrir(b, x, y);
    assert (x, y) in CerradasDe(b) && (x, y) !in CerradasDe(b1);
    assert CerradasDe(b1) <= CerradasDe(b);
  }

  /** One more neighbour visited by the flood fill: the loop's facts carry over. */
  lemma PasoVecino(b1: Tablero, antes: Tablero, b: Tablero, n: int, x: int, y: int, d: int)
    requires Cuadrado(b1, n) && Cuadrado(antes, n) && Cuadrado(b, n) && 0 <= d < 8
    requires Avance(b1, antes, n) && Cerrado(b1, antes, n) && Avance(antes, b, n) && Cerrado(antes, b, n)
    requires forall e :: 0 <= e < d ==> Cubierta(antes, n, x + DIRECCIONES[e].0, y + DIRECCIONES[e].1)
    requires Cubierta(b, n, x + DIRECCIONES[d].0, y + DIRECCIONES[d].1)
    requires SoloDesdeVecinos(b1, antes, n, x, y, d) && SoloDesde(antes, b, n, (x + DIRECCIONES[d].0, y + DIRECCIONES[d].1))
    ensures Avance(b1, b, n) && Cerrado(b1, b, n) && CerradasDe(b) <= CerradasDe(antes)
    ensures forall e :: 0 <= e < d + 1 ==> Cubierta(b, n, x + DIRECCIONES[e].0, y + DIRECCIONES[e].1)
    ensures SoloDesdeVecinos(b1, b, n, x, y, d + 1)
  {
    PasoRegion(b1, antes, b, n, x, y, d);
    AvanceTransitivo(b1, antes, b, n);
    CerradoTransitivo(b1, antes, b, n);
    forall e | 0 <= e < d + 1
      ensures Cubierta(b, n, x + DIRECCIONES[e].0, y + DIRECCIONES[e].1)
    {
      if e < d {
        CubiertaAvanza(antes, b, n, x + DIRECCIONES[e].0, y + DIRECCIONES[e].1);
      }
    }
  }

  /** Opening a mine does not touch the lists and keeps the board consistent. */
  lemma AbrirMina(b: Tablero, n: int, ab: seq<(int, int)>, mc: seq<(int, int)>, x: int, y: int)
    requires Consistente(b, n, ab, mc)
    requires EnRango(n, x, y) && !b[x][y].marcada && b[x][y].esMina
    ensures Consistente(Abrir(b, x, y), n, ab, mc)
  {
  }

  /** A zero cell opened, then its neighbours covered: the whole step is closed. */
  lemma CerradoTrasVecinos(b0: Tablero, b: Tablero, n: int, x: int, y: int)
    requires Cuadrado(b0, n) && Cuadrado(b, n) && EnRango(n, x, y)
    requires Avance(Abrir(b0, x, y), b, n) && Cerrado(Abrir(b0, x, y), b, n)
    requires VecinosCubiertos(b, n, x, y)
    ensures Cerrado(b0, b, n)
  {
  }

  // ------------------------------------------------------ the flood's region

  /** A cell the flood fill may open: on the board, closed, unflagged and not a mine. */
  predicate Transitable(b: Tablero, n: int, c: (int, int))
    requires Cuadrado(b, n)
  {
    0 <= c.0 < n && 0 <= c.1 < n && !b[c.0][c.1].abierta && !b[c.0][c.1].marcada && !b[c.0][c.1].esMina
  }

  /** Two different cells touching by a side or a corner. */
  predicate Vecinas(c: (int, int), e: (int, int))
  {
    c != e && -1 <= e.0 - c.0 <= 1 && -1 <= e.1 - c.1 <= 1
  }

  /** The neighbour of `(x, y)` in direction `d`. */
  function Vecino(x: int, y: int, d: int): (int, int)
    requires 0 <= d < 8
  {
    (x + DIRECCIONES[d].0, y + DIRECCIONES[d].1)
  }

  /**
   * A path the flood fill can follow on `b`: cells it may open, each after
   * the first touching the one before, which has no neighbouring mine.
   */
  ghost predicate Camino(b: Tablero, n: int, p: seq<(int, int)>)
    requires Cuadrado(b, n)
  {
    && |p| > 0
    && (forall k :: 0 <= k < |p| ==> Transitable(b, n, p[k]))
    && (forall k :: 0 <= k < |p| - 1 ==>
          Transitable(b, n, p[k]) && b[p[k].0][p[k].1].minasCercanas == 0 && Vecinas(p[k], p[k + 1]))
  }

  /** A flood fill started at `o` on `b` can get to `c`. */
  ghost predicate Alcanzable(b: Tablero, n: int, o: (int, int), c: (int, int))
    requires Cuadrado(b, n)
  {
    exists p {:trigger Camino(b, n, p)} :: Camino(b, n, p) && p[0] == o && p[|p| - 1] == c
  }

  /** The cells a flood fill started at `o` on `b` can get to. */
  ghost function Region(b: Tablero, n: int, o: (int, int)): set<(int, int)>
    requires Cuadrado(b, n)
  {
    set i, j {:trigger Alcanzable(b, n, o, (i, j))} | 0 <= i < n && 0 <= j < n && Alcanzable(b, n, o, (i, j)) :: (i, j)
  }

  /** Every cell opened between `b0` and `b` can be got to from `o` on `b0`. */
  ghost predicate SoloDesde(b0: Tablero, b: Tablero, n: int, o: (int, int))
    requires Cuadrado(b0, n) && Cuadrado(b, n)
  {
    forall i, j {:trigger b[i][j]} :: EnRango(n, i, j) && b[i][j].abierta && !b0[i][j].abierta ==> Alcanzable(b0, n, o, (i, j))
  }

  /** Every cell opened between `b0` and `b` can be got to on `b0` from one of the first `d` neighbours of `(x, y)`. */
  ghost predicate SoloDesdeVecinos(b0: Tablero, b: Tablero, n: int, x: int, y: int, d: int)
    requires Cuadrado(b0, n) && Cuadrado(b, n) && 0 <= d <= 8
  {
    forall i, j {:trigger b[i][j]} :: EnRango(n, i, j) && b[i][j].abierta && !b0[i][j].abierta ==>
      exists e :: 0 <= e < d && Alcanzable(b0, n, Vecino(x, y, e), (i, j))
  }

  /** The cells opened between `b0` and `b` are exactly those a flood fill from `o` on `b0` can get to. */
  ghost predicate AbreExactamente(b0: Tablero, b: Tablero, n: int, o: (int, int))
    requires Cuadrado(b0, n) && Cuadrado(b, n)
  {
    forall i, j {:trigger b[i][j]} :: EnRango(n, i, j) ==> (b[i][j].abierta && !b0[i][j].abierta <==> Alcanzable(b0, n, o, (i, j)))
  }

  /** The eight directions are the eight neighbours. */
  lemma VecinoEsVecina(x: int, y: int, d: int)
    requires 0 <= d < 8
    ensures Vecinas((x, y), Vecino(x, y, d))
  {
  }

  lemma VecinaEsVecino(c: (int, int), e: (int, int)) returns (d: int)
    requires Vecinas(c, e)
    ensures 0 <= d < 8 && e == Vecino(c.0, c.1, d)
  {
    var dx, dy := e.0 - c.0, e.1 - c.1;
    d := if dx == -1 then dy + 1 else if dx == 0 then (if dy == -1 then 3 else 4) else dy + 6;
  }

  /** A path after some flooding was a path before it: its cells were closed then too. */
  lemma CaminoAvanza(b0: Tablero, b: Tablero, n: int, p: seq<(int, int)>)
    requires Cuadrado(b0, n) && Cuadrado(b, n) && Avance(b0, b, n) && Camino(b, n, p)
    ensures Camino(b0, n, p)
  {
    forall k | 0 <= k < |p|
      ensures Transitable(b0, n, p[k]) && b0[p[k].0][p[k].1] == b[p[k].0][p[k].1]
    {
      assert Transitable(b, n, p[k]);
    }
  }

  /** A path from a neighbour of a zero cell the flood may open extends back to that cell. */
  lemma CaminoDesde(b: Tablero, n: int, x: int, y: int, d: int, p: seq<(int, int)>)
    requires Cuadrado(b, n) && 0 <= d < 8
    requires Transitable(b, n, (x, y)) && b[x][y].minasCercanas == 0
    requires Camino(b, n, p) && p[0] == Vecino(x, y, d)
    ensures Camino(b, n, [(x, y)] + p) && ([(x, y)] + p)[|p|] == p[|p| - 1]
  {
    VecinoEsVecina(x, y, d);
    var q := [(x, y)] + p;
    forall k | 0 <= k < |q|
      ensures Transitable(b, n, q[k])
    {
      if k > 0 {
        assert q[k] == p[k - 1];
      }
    }
    forall k | 0 <= k < |q| - 1
      ensures Transitable(b, n, q[k]) && b[q[k].0][q[k].1].minasCercanas == 0 && Vecinas(q[k], q[k + 1])
    {
      if k > 0 {
        assert q[k] == p[k - 1] && q[k + 1] == p[k];
      }
    }
  }

  /** Opening a single cell the flood may open: that cell is its own region. */
  lemma RegionUna(b0: Tablero, n: int, x: int, y: int)
    requires Cuadrado(b0, n) && Transitable(b0, n, (x, y))
    ensures Cuadrado(Abrir(b0, x, y), n) && SoloDesde(b0, Abrir(b0, x, y), n, (x, y))
  {
    assert Camino(b0, n, [(x, y)]);
  }

  /** The flood from one more neighbour only opens cells it can get to. */
  lemma PasoRegion(b1: Tablero, antes: Tablero, b: Tablero, n: int, x: int, y: int, d: int)
    requires Cuadrado(b1, n) && Cuadrado(antes, n) && Cuadrado(b, n) && 0 <= d < 8
    requires Avance(b1, antes, n) && Avance(antes, b, n)
    requires SoloDesdeVecinos(b1, antes, n, x, y, d) && SoloDesde(antes, b, n, (x + DIRECCIONES[d].0, y + DIRECCIONES[d].1))
    ensures SoloDesdeVecinos(b1, b, n, x, y, d + 1)
  {
    assert Vecino(x, y, d) == (x + DIRECCIONES[d].0, y + DIRECCIONES[d].1);
    forall i, j | EnRango(n, i, j) && b[i][j].abierta && !b1[i][j].abierta
      ensures exists e :: 0 <= e < d + 1 && Alcanzable(b1, n, Vecino(x, y, e), (i, j))
    {
      if antes[i][j].abierta {
        var e :| 0 <= e < d && Alcanzable(b1, n, Vecino(x, y, e), (i, j));
      } else {
        var p :| Camino(antes, n, p) && p[0] == Vecino(x, y, d) && p[|p| - 1] == (i, j);
        CaminoAvanza(b1, antes, n, p);
        assert Alcanzable(b1, n, Vecino(x, y, d), (i, j));
      }
    }
  }

  /** A zero cell opened, then the flood from its neighbours: every cell opened can be got to from it. */
  lemma RegionTrasVecinos(b0: Tablero, b: Tablero, n: int, x: int, y: int)
    requires Cuadrado(b0, n) && Cuadrado(b, n)
    requires Transitable(b0, n, (x, y)) && b0[x][y].minasCercanas == 0
    requires Avance(Abrir(b0, x, y), b, n) && SoloDesdeVecinos(Abrir(b0, x, y), b, n, x, y, 8)
    ensures SoloDesde(b0, b, n, (x, y))
  {
    var b1: Tablero := Abrir(b0, x, y);
    AbrirUnaAvanza(b0, n, x, y);
    forall i, j | EnRango(n, i, j) && b[i][j].abierta && !b0[i][j].abierta
      ensures Alcanzable(b0, n, (x, y), (i, j))
    {
      if (i, j) == (x, y) {
        assert Camino(b0, n, [(x, y)]);
      } else {
        assert !b1[i][j].abierta;
        var e :| 0 <= e < 8 && Alcanzable(b1, n, Vecino(x, y, e), (i, j));
        AlcanzableDesdeVecino(b0, n, x, y, e, (i, j));
      }
    }
  }

  /** What the flood from a neighbour of a zero cell gets to once that cell is open, the flood from the cell gets to. */
  lemma AlcanzableDesdeVecino(b0: Tablero, n: int, x: int, y: int, e: int, c: (int, int))
    requires Cuadrado(b0, n) && 0 <= e < 8
    requires Transitable(b0, n, (x, y)) && b0[x][y].minasCercanas == 0
    requires Cuadrado(Abrir(b0, x, y), n) && Avance(b0, Abrir(b0, x, y), n)
    requires Alcanzable(Abrir(b0, x, y), n, Vecino(x, y, e), c)
    ensures Alcanzable(b0, n, (x, y), c)
  {
    var b1: Tablero := Abrir(b0, x, y);
    var p :| Camino(b1, n, p) && p[0] == Vecino(x, y, e) && p[|p| - 1] == c;
    CaminoAvanza(b0, b1, n, p);
    CaminoDesde(b0, n, x, y, e, p);
  }

  /**
   * The converse: once a flood that passed only through zero cells has
   * covered `o`, every cell along a path from `o` is open.
   */
  lemma {:induction false} CaminoAbierto(b0: Tablero, b: Tablero, n: int, o: (int, int), p: seq<(int, int)>)
    requires Cuadrado(b0, n) && Cuadrado(b, n) && Avance(b0, b, n) && Cerrado(b0, b, n)
    requires Cubierta(b, n, o.0, o.1) && Camino(b0, n, p) && p[0] == o
    ensures b[p[|p| - 1].0][p[|p| - 1].1].abierta
    decreases |p|
  {
    var c := p[|p| - 1];
    assert Transitable(b0, n, c);
    if |p| > 1 {
      var q := p[..|p| - 1];
      assert Camino(b0, n, q) by {
        forall k | 0 <= k < |q| - 1
          ensures Transitable(b0, n, q[k]) && b0[q[k].0][q[k].1].minasCercanas == 0 && Vecinas(q[k], q[k + 1])
        {
          assert q[k] == p[k] && q[k + 1] == p[k + 1];
        }
      }
      CaminoAbierto(b0, b, n, o, q);
      var a := p[|p| - 2];
      assert q[|q| - 1] == a;
      assert Transitable(b0, n, a) && b0[a.0][a.1].minasCercanas == 0 && Vecinas(a, c);
      assert VecinosCubiertos(b, n, a.0, a.1);
      var d := VecinaEsVecino(a, c);
      assert Cubierta(b, n, a.0 + DIRECCIONES[d].0, a.1 + DIRECCIONES[d].1);
    }
  }

  /** Every cell a flood fill from `o` can get to is opened by it. */
  lemma RegionAbierta(b0: Tablero, b: Tablero, n: int, o: (int, int))
    requires Cuadrado(b0, n) && Cuadrado(b, n) && Avance(b0, b, n) && Cerrado(b0, b, n) && Cubierta(b, n, o.0, o.1)
    ensures forall i, j :: EnRango(n, i, j) && Alcanzable(b0, n, o, (i, j)) ==> b[i][j].abierta && !b0[i][j].abierta
  {
    forall i, j | EnRango(n, i, j) && Alcanzable(b0, n, o, (i, j))
      ensures b[i][j].abierta && !b0[i][j].abierta
    {
      var p :| Camino(b0, n, p) && p[0] == o && p[|p| - 1] == (i, j);
      CaminoAbierto(b0, b, n, o, p);
      assert Transitable(b0, n, p[|p| - 1]);
    }
  }

  /** Cell `(i, j)` of `b` after a flood from `o`: opened when the flood gets to it, as it was otherwise. */
  ghost function Inundada(b: Tablero, n: int, o: (int, int), i: int, j: int): Casilla
    requires Cuadrado(b, n) && EnRango(n, i, j)
  {
    if Alcanzable(b, n, o, (i, j)) then b[i][j].(abierta := true) else b[i][j]
  }

  /** The board `b` with the region of `o` opened and every other cell as it was. */
  ghost function Inundado(b: Tablero, n: int, o: (int, int)): (r: Tablero)
    requires Cuadrado(b, n)
    ensures Cuadrado(r, n)
  {
    seq(n, i requires 0 <= i < n => seq(n, j requires 0 <= j < n => Inundada(b, n, o, i, j)))
  }

  /** A flood that opened exactly the region of `o` leaves the board `Inundado` describes. */
  lemma InundadoEs(b0: Tablero, b: Tablero, n: int, o: (int, int))
    requires Cuadrado(b0, n) && Cuadrado(b, n) && Avance(b0, b, n) && AbreExactamente(b0, b, n, o)
    ensures b == Inundado(b0, n, o)
  {
    var r := Inundado(b0, n, o);
    forall i | 0 <= i < n
      ensures b[i] == r[i]
    {
      forall j | 0 <= j < n
        ensures b[i][j] == r[i][j]
      {
        assert EnRango(n, i, j);
      }
    }
  }

  /** The cells a list names. */
  ghost function Elementos(s: seq<(int, int)>): set<(int, int)>
  {
    set c | c in s
  }

  /** A list without repeats names as many cells as it is long. */
  lemma {:induction false} ElementosSinRepetidos(s: seq<(int, int)>)
    requires SinRepetidos(s)
    ensures |Elementos(s)| == |s|
  {
    if s != [] {
      var t := s[..|s| - 1];
      assert SinRepetidos(t) by {
        forall k, l | 0 <= k < l < |t|
          ensures t[k] != t[l]
        {
          assert t[k] == s[k] && t[l] == s[l];
        }
      }
      ElementosSinRepetidos(t);
      assert s == t + [s[|s| - 1]];
      assert Elementos(s) == Elementos(t) + {s[|s| - 1]};
      assert s[|s| - 1] !in Elementos(t) by {
        forall k | 0 <= k < |t|
          ensures t[k] != s[|s| - 1]
        {
          assert t[k] == s[k];
        }
      }
    }
  }

  /**
   * A flood that opened exactly the region of `o`: the list of open cells
   * gains exactly that region, so it grows by the region's size.
   */
  lemma AbiertasRegion(b0: Tablero, b: Tablero, n: int, ab0: seq<(int, int)>, ab: seq<(int, int)>, o: (int, int))
    requires Cuadrado(b0, n) && Cuadrado(b, n) && AbiertasExactas(b0, n, ab0) && AbiertasExactas(b, n, ab)
    requires Avance(b0, b, n) && AbreExactamente(b0, b, n, o)
    ensures Elementos(ab) == Elementos(ab0) + Region(b0, n, o)
    ensures |ab| == |ab0| + |Region(b0, n, o)|
  {
    var R := Region(b0, n, o);
    forall c | c in ab
      ensures c in ab0 || c in R
    {
      if !b0[c.0][c.1].abierta {
        assert Alcanzable(b0, n, o, (c.0, c.1));
      }
    }
    forall c | c in R
      ensures c in ab && c !in ab0
    {
      assert EnRango(n, c.0, c.1) && Alcanzable(b0, n, o, c);
      assert b[c.0][c.1].abierta && !b0[c.0][c.1].abierta && !b[c.0][c.1].esMina;
    }
    forall c | c in ab0
      ensures c in ab
    {
      assert b0[c.0][c.1] == b[c.0][c.1];
    }
    assert Elementos(ab) == Elementos(ab0) + R;
    assert Elementos(ab0) * R == {};
    ElementosSinRepetidos(ab0);
    ElementosSinRepetidos(ab);
  }

  /** `1.0 + len(casillas_abiertas) * (multiplicador_base - 1)`. */
  function Multiplicador(base: real, abiertas: int): real
  {
    1.0 + abiertas as real * (base - 1.0)
  }

  /** `int(apuesta * multiplicador)`, truncated; the product is never negative here. */
  function Ganancia(apuesta: int, multiplicador: real): int
  {
    (apuesta as real * multiplicador).Floor
  }

  /** `tamano * tamano - minas_totales`. */
  function Seguras(n: int, minas: int): int
  {
    n * n - minas
  }

  /**
   * Before any cell is open the gain is the stake, and every further safe cell
   * can only raise it.
   */
  lemma GananciaCrece(apuesta: int, base: real, k1: int, k2: int)
    requires apuesta >= 0 && base >= 1.0 && 0 <= k1 <= k2
    ensures Ganancia(apuesta, Multiplicador(base, 0)) == apuesta
    ensures apuesta <= Ganancia(apuesta, Multiplicador(base, k1)) <= Ganancia(apuesta, Multiplicador(base, k2))
  {
    var a := apuesta as real;
    assert a * Multiplicador(base, k1) == a + a * (k1 as real * (base - 1.0));
    assert a * Multiplicador(base, k2) == a + a * (k2 as real * (base - 1.0));
    assert 0.0 <= a * (k1 as real * (base - 1.0)) <= a * (k2 as real * (base - 1.0)) by {
      assert 0.0 <= k1 as real * (base - 1.0) <= k2 as real * (base - 1.0);
    }
  }

  /** `list.remove`: the list without the first occurrence of `p`. */
  function Quitar(s: seq<(int, int)>, p: (int, int)): (r: seq<(int, int)>)
    ensures |r| == if p in s then |s| - 1 else |s|
  {
    if s == [] then []
    else if s[0] == p then s[1..]
    else [s[0]] + Quitar(s[1..], p)
  }

  /** On a list without repetitions, `remove` drops exactly `p` and repeats nothing. */
  lemma {:induction false} QuitarSinRepetidos(s: seq<(int, int)>, p: (int, int))
    requires SinRepetidos(s)
    ensures SinRepetidos(Quitar(s, p))
    ensures forall q :: q in Quitar(s, p) <==> q in s && q != p
  {
    if s != [] {
      assert SinRepetidos(s[1..]) by {
        forall k, l | 0 <= k < l < |s[1..]|
          ensures s[1..][k] != s[1..][l]
        {
          assert s[1..][k] == s[k + 1] && s[1..][l] == s[l + 1];
        }
      }
      assert s[0] !in s[1..] by {
        forall k | 0 <= k < |s[1..]|
          ensures s[1..][k] != s[0]
        {
          assert s[1..][k] == s[k + 1];
        }
      }
      assert s == [s[0]] + s[1..];
      if s[0] != p {
        QuitarSinRepetidos(s[1..], p);
        var t := Quitar(s[1..], p);
        assert Quitar(s, p) == [s[0]] + t;
        forall k, l | 0 <= k < l < |[s[0]] + t|
          ensures ([s[0]] + t)[k] != ([s[0]] + t)[l]
        {
          if k > 0 {
            assert ([s[0]] + t)[k] == t[k - 1];
          }
          assert ([s[0]] + t)[l] == t[l - 1];
        }
      }
    }
  }

  /** The board with the flag of `(x, y)` toggled. */
  function Alternar(b: Tablero, x: int, y: int): Tablero
    requires 0 <= x < |b| && 0 <= y < |b[x]|
  {
    b[x := b[x][y := b[x][y].(marcada := !b[x][y].marcada)]]
  }

  /** Toggling the flag of a closed cell and updating the list as `marcar_casilla` does. */
  lemma MarcarConsistente(b: Tablero, n: int, ab: seq<(int, int)>, mc: seq<(int, int)>, x: int, y: int)
    requires Consistente(b, n, ab, mc) && EnRango(n, x, y) && !b[x][y].abierta
    ensures b[x][y].marcada <==> (x, y) in mc
    ensures Consistente(Alternar(b, x, y), n, ab, if b[x][y].marcada then Quitar(mc, (x, y)) else mc + [(x, y)])
  {
    AlternarAbiertas(b, n, ab, x, y);
    if b[x][y].marcada {
      Desmarcar(b, n, mc, x, y);
    } else {
      Marcar(b, n, mc, x, y);
    }
  }

  lemma AlternarAbiertas(b: Tablero, n: int, ab: seq<(int, int)>, x: int, y: int)
    requires Cuadrado(b, n) && AbiertasExactas(b, n, ab) && EnRango(n, x, y)
    requires forall i, j :: EnRango(n, i, j) ==> !(b[i][j].abierta && b[i][j].marcada)
    requires !b[x][y].abierta
    ensures Cuadrado(Alternar(b, x, y), n) && AbiertasExactas(Alternar(b, x, y), n, ab)
    ensures forall i, j :: EnRango(n, i, j) ==> !(Alternar(b, x, y)[i][j].abierta && Alternar(b, x, y)[i][j].marcada)
  {
  }

  lemma Marcar(b: Tablero, n: int, mc: seq<(int, int)>, x: int, y: int)
    requires Cuadrado(b, n) && MarcadasExactas(b, n, mc) && EnRango(n, x, y) && !b[x][y].marcada
    ensures (x, y) !in mc
    ensures Cuadrado(Alternar(b, x, y), n) && MarcadasExactas(Alternar(b, x, y), n, mc + [(x, y)])
  {
  }

  lemma Desmarcar(b: Tablero, n: int, mc: seq<(int, int)>, x: int, y: int)
    requires Cuadrado(b, n) && MarcadasExactas(b, n, mc) && EnRango(n, x, y) && b[x][y].marcada
    ensures (x, y) in mc
    ensures Cuadrado(Alternar(b, x, y), n) && MarcadasExactas(Alternar(b, x, y), n, Quitar(mc, (x, y)))
  {
    var b1: Tablero, mc1: seq<(int, int)> := Alternar(b, x, y), Quitar(mc, (x, y));
    QuitarSinRepetidos(mc, (x, y));
    forall k | 0 <= k < |mc1|
      ensures EnRango(n, mc1[k].0, mc1[k].1) && b1[mc1[k].0][mc1[k].1].marcada
    {
      assert mc1[k] in mc && mc1[k] != (x, y);
      var l :| 0 <= l < |mc| && mc[l] == mc1[k];
    }
    forall i, j | EnRango(n, i, j) && b1[i][j].marcada
      ensures (i, j) in mc1
    {
      assert (i, j) != (x, y) && b[i][j].marcada;
    }
  }

  /** A freshly generated board with empty lists is consistent. */
  lemma ConsistenteInicial(b: Tablero, n: int, posiciones: set<int>)
    requires EsTableroDe(b, n, posiciones)
    ensures Consistente(b, n, [], [])
  {
  }

  /** The board after the mine handler's loop: every mine opened, nothing else changed. */
  ghost predicate Revelado(b0: Tablero, b: Tablero, n: int)
    requires Cuadrado(b0, n)
  {
    Cuadrado(b, n) &&
    forall i, j :: EnRango(n, i, j) ==> b[i][j] == (if b0[i][j].esMina then b0[i][j].(abierta := true) else b0[i][j])
  }

  method RevelarMinas(b0: Tablero, n: int) returns (b: Tablero)
    requires Cuadrado(b0, n)
    ensures Revelado(b0, b, n)
  {
    b := b0;
    for i := 0 to n
      invariant Cuadrado(b, n)
      invariant forall r, c :: EnRango(n, r, c) ==>
                  b[r][c] == (if r < i && b0[r][c].esMina then b0[r][c].(abierta := true) else b0[r][c])
    {
      for j := 0 to n
        invariant Cuadrado(b, n)
        invariant forall r, c :: EnRango(n, r, c) ==>
                    b[r][c] == (if (r < i || (r == i && c < j)) && b0[r][c].esMina then b0[r][c].(abierta := true) else b0[r][c])
      {
        if b[i][j].esMina {
          b := Abrir(b, i, j);
        }
      }
    }
  }

  // ---------------------------------------------------------------- the game

  /** What `abrir_casilla` returns; the optional fields are the keys only some answers carry. */
  datatype Apertura = Apertura(
    esMina: bool,
    gameOver: bool,
    ganado: bool,
    ganancia: int,
    minasCercanas: Option<int>,
    nuevasAbiertas: Option<int>)

  /** `JuegoMinas`: one game, its board and its running gain. */
  class JuegoMinas {
    const id: string
    const usuarioId: int
    const username: string
    const apuesta: int
    const dificultad: string
    const tamano: int
    const minasTotales: int
    const multiplicadorBase: real
    const fechaInicio: real
    var tablero: Tablero
    var casillasAbiertas: seq<(int, int)>
    var casillasMarcadas: seq<(int, int)>
    var gameOver: bool
    var ganado: bool
    var gananciaActual: int
    var multiplicadorActual: real

    ghost predicate Valid()
      reads this
    {
      && ConfigDe(dificultad) == Some(Config(tamano, minasTotales, multiplicadorBase))
      && Consistente(tablero, tamano, casillasAbiertas, casillasMarcadas)
      && CuentaValida()
    }

    /** A won game has listed every safe cell; while live or won, the gain follows the listed cells. */
    ghost predicate CuentaValida()
      reads this`gameOver, this`ganado, this`casillasAbiertas, this`multiplicadorActual, this`gananciaActual
    {
      && (ganado ==> gameOver && |casillasAbiertas| == Seguras(tamano, minasTotales))
      && ((!gameOver || ganado) ==>
            && multiplicadorActual == Multiplicador(multiplicadorBase, |casillasAbiertas|)
            && gananciaActual == Ganancia(apuesta, multiplicadorActual))
    }

    /** `__init__`: the board of the drawn positions, nothing open, the gain at the stake. */
    constructor (id: string, usuarioId: int, username: string, apuesta: int, dificultad: string,
                 posiciones: set<int>, ahora: real)
      requires ConfigDe(dificultad).Some? && MuestraValida(posiciones, ConfigDe(dificultad).value)
      ensures Valid()
      ensures this.id == id && this.usuarioId == usuarioId && this.username == username
      ensures this.apuesta == apuesta && this.dificultad == dificultad && fechaInicio == ahora
      ensures EsTableroDe(tablero, tamano, posiciones) && |MinasDe(tablero, tamano)| == minasTotales
      ensures casillasAbiertas == [] && casillasMarcadas == [] && !gameOver && !ganado
      ensures gananciaActual == apuesta && multiplicadorActual == 1.0
    {
      var c := ConfigDe(dificultad).value;
      this.id := id;
      this.usuarioId := usuarioId;
      this.username := username;
      this.apuesta := apuesta;
      this.dificultad := dificultad;
      tamano := c.tamano;
      minasTotales := c.minas;
      multiplicadorBase := c.multiplicadorBase;
      fechaInicio := ahora;
      var b := GenerarTablero(c.tamano, posiciones);
      ConsistenteInicial(b, c.tamano, posiciones);
      MinasExactas(b, c, posiciones);
      tablero := b;
      casillasAbiertas := [];
      casillasMarcadas := [];
      gameOver := false;
      ganado := false;
      gananciaActual := apuesta;
      multiplicadorActual := 1.0;
      assert Ganancia(apuesta, Multiplicador(c.multiplicadorBase, 0)) == apuesta;
    }

    /** The guards of `abrir_casilla` all pass. */
    ghost predicate Abrible(x: int, y: int)
      reads this
      requires Cuadrado(tablero, tamano)
    {
      !gameOver && !ganado && EnRango(tamano, x, y) && !tablero[x][y].abierta && !tablero[x][y].marcada
    }

    /**
     * `_abrir_casilla_recursiva`: opens `(x, y)` unless it is off the board,
     * open, flagged or a mine, lists it, and when it has no neighbouring mine
     * carries on with its eight neighbours. The cells it opens are exactly
     * the region of `(x, y)`.
     */
    method AbrirRecursiva(x: int, y: int)
      requires Consistente(tablero, tamano, casillasAbiertas, casillasMarcadas)
      modifies this`tablero, this`casillasAbiertas
      ensures Consistente(tablero, tamano, casillasAbiertas, casillasMarcadas)
      ensures Avance(old(tablero), tablero, tamano) && Cerrado(old(tablero), tablero, tamano)
      ensures Cubierta(tablero, tamano, x, y)
      ensures SoloDesde(old(tablero), tablero, tamano, (x, y))
      ensures AbreExactamente(old(tablero), tablero, tamano, (x, y))
      ensures |old(casillasAbiertas)| <= |casillasAbiertas|
      ensures EnRango(tamano, x, y) && !old(tablero[x][y].abierta || tablero[x][y].marcada || tablero[x][y].esMina) ==>
                |old(casillasAbiertas)| < |casillasAbiertas|
      decreases CerradasDe(tablero), 2
    {
      if 0 <= x < tamano && 0 <= y < tamano {
        var casilla := tablero[x][y];
        if !(casilla.abierta || casilla.marcada || casilla.esMina) {
          AbrirUna(tablero, tamano, casillasAbiertas, casillasMarcadas, x, y);
          RegionUna(tablero, tamano, x, y);
          tablero := Abrir(tablero, x, y);
          if (x, y) !in casillasAbiertas {
            casillasAbiertas := casillasAbiertas + [(x, y)];
          }
          if casilla.minasCercanas == 0 {
            ghost var b1 := tablero;
            AbrirVecinos(x, y, CerradasDe(old(tablero)));
            AvanceTransitivo(old(tablero), b1, tablero, tamano);
            CerradoTrasVecinos(old(tablero), tablero, tamano, x, y);
            RegionTrasVecinos(old(tablero), tablero, tamano, x, y);
          }
        }
      }
      RegionAbierta(old(tablero), tablero, tamano, (x, y));
    }

    /**
     * The loop of `_abrir_casilla_recursiva` over the eight directions, run
     * once `(x, y)` is open; `cota` is the closed cells before it was opened.
     */
    method AbrirVecinos(x: int, y: int, ghost cota: set<(int, int)>)
      requires Consistente(tablero, tamano, casillasAbiertas, casillasMarcadas)
      requires CerradasDe(tablero) < cota
      modifies this`tablero, this`casillasAbiertas
      ensures Consistente(tablero, tamano, casillasAbiertas, casillasMarcadas)
      ensures Avance(old(tablero), tablero, tamano) && Cerrado(old(tablero), tablero, tamano)
      ensures VecinosCubiertos(tablero, tamano, x, y)
      ensures SoloDesdeVecinos(old(tablero), tablero, tamano, x, y, 8)
      ensures |old(casillasAbiertas)| <= |casillasAbiertas|
      decreases cota, 1
    {
      for d := 0 to 8
        invariant Consistente(tablero, tamano, casillasAbiertas, casillasMarcadas)
        invariant Avance(old(tablero), tablero, tamano) && Cerrado(old(tablero), tablero, tamano)
        invariant CerradasDe(tablero) <= CerradasDe(old(tablero))
        invariant forall e :: 0 <= e < d ==> Cubierta(tablero, tamano, x + DIRECCIONES[e].0, y + DIRECCIONES[e].1)
        invariant SoloDesdeVecinos(old(tablero), tablero, tamano, x, y, d)
        invariant |old(casillasAbiertas)| <= |casillasAbiertas|
      {
        AbrirVecino(x, y, d, old(tablero), cota);
      }
    }

    /**
     * One pass of that loop, the flood from the neighbour in direction `d`;
     * `b1` is the board when the loop started.
     */
    method AbrirVecino(x: int, y: int, d: int, ghost b1: Tablero, ghost cota: set<(int, int)>)
      requires 0 <= d < 8 && Consistente(tablero, tamano, casillasAbiertas, casillasMarcadas) && Cuadrado(b1, tamano)
      requires CerradasDe(tablero) < cota
      requires Avance(b1, tablero, tamano) && Cerrado(b1, tablero, tamano)
      requires forall e :: 0 <= e < d ==> Cubierta(tablero, tamano, x + DIRECCIONES[e].0, y + DIRECCIONES[e].1)
      requires SoloDesdeVecinos(b1, tablero, tamano, x, y, d)
      modifies this`tablero, this`casillasAbiertas
      ensures Consistente(tablero, tamano, casillasAbiertas, casillasMarcadas)
      ensures Avance(b1, tablero, tamano) && Cerrado(b1, tablero, tamano) && CerradasDe(tablero) <= CerradasDe(old(tablero))
      ensures forall e :: 0 <= e < d + 1 ==> Cubierta(tablero, tamano, x + DIRECCIONES[e].0, y + DIRECCIONES[e].1)
      ensures SoloDesdeVecinos(b1, tablero, tamano, x, y, d + 1)
      ensures |old(casillasAbiertas)| <= |casillasAbiertas|
      decreases cota, 0
    {
      AbrirRecursiva(x + DIRECCIONES[d].0, y + DIRECCIONES[d].1);
      PasoVecino(b1, old(tablero), tablero, tamano, x, y, d);
    }

    /**
     * `abrir_casilla`. A finished game, a cell off the board, an open or a
     * flagged cell raise `ValueError`, here `Err(400)`, and change nothing. A
     * mine opens that cell only, ends the game and zeroes the gain. A safe
     * cell floods, then the multiplier and gain follow the number of listed
     * cells, and listing every safe cell wins.
     */
    method AbrirCasilla(x: int, y: int) returns (r: Result<Apertura>)
      requires Valid()
      modifies this`tablero, this`casillasAbiertas, this`gameOver, this`ganado, this`gananciaActual, this`multiplicadorActual
      ensures Valid()
      ensures !old(Abrible(x, y)) ==> r == Err(400) && unchanged(this)
      ensures old(Abrible(x, y)) && old(tablero[x][y].esMina) ==>
        && r == Ok(Apertura(true, true, false, 0, None, None))
        && tablero == Abrir(old(tablero), x, y) && casillasAbiertas == old(casillasAbiertas)
        && gameOver && !ganado && gananciaActual == 0 && multiplicadorActual == old(multiplicadorActual)
      ensures old(Abrible(x, y)) && !old(tablero[x][y].esMina) ==>
        && Avance(old(tablero), tablero, tamano) && Cerrado(old(tablero), tablero, tamano) && tablero[x][y].abierta
        && tablero == Inundado(old(tablero), tamano, (x, y))
        && |casillasAbiertas| == |old(casillasAbiertas)| + |Region(old(tablero), tamano, (x, y))|
        && |old(casillasAbiertas)| < |casillasAbiertas|
        && multiplicadorActual == Multiplicador(multiplicadorBase, |casillasAbiertas|)
        && gananciaActual == Ganancia(apuesta, multiplicadorActual)
        && (ganado <==> |casillasAbiertas| == Seguras(tamano, minasTotales)) && gameOver == ganado
        && r == Ok(Apertura(false, ganado, ganado, gananciaActual, Some(old(tablero[x][y].minasCercanas)),
                            if ganado then None else Some(|casillasAbiertas| - |old(casillasAbiertas)|)))
    {
      if gameOver || ganado {
        return Err(400);
      }
      if !(0 <= x < tamano && 0 <= y < tamano) {
        return Err(400);
      }
      var casilla := tablero[x][y];
      if casilla.abierta {
        return Err(400);
      }
      if casilla.marcada {
        return Err(400);
      }
      if casilla.esMina {
        AbrirMina(tablero, tamano, casillasAbiertas, casillasMarcadas, x, y);
        tablero := Abrir(tablero, x, y);
        gameOver := true;
        gananciaActual := 0;
        return Ok(Apertura(true, true, false, 0, None, None));
      }
      r := AbrirSegura(x, y);
    }

    /**
     * The flood from a cell it may open: the board opens exactly the region
     * of `(x, y)` and the list of open cells gains exactly that region.
     */
    method Inundar(x: int, y: int)
      requires Consistente(tablero, tamano, casillasAbiertas, casillasMarcadas) && Transitable(tablero, tamano, (x, y))
      modifies this`tablero, this`casillasAbiertas
      ensures Consistente(tablero, tamano, casillasAbiertas, casillasMarcadas)
      ensures Avance(old(tablero), tablero, tamano) && Cerrado(old(tablero), tablero, tamano) && tablero[x][y].abierta
      ensures tablero == Inundado(old(tablero), tamano, (x, y))
      ensures |casillasAbiertas| == |old(casillasAbiertas)| + |Region(old(tablero), tamano, (x, y))|
      ensures |old(casillasAbiertas)| < |casillasAbiertas|
    {
      AbrirRecursiva(x, y);
      AbiertasRegion(old(tablero), tablero, tamano, old(casillasAbiertas), casillasAbiertas, (x, y));
      InundadoEs(old(tablero), tablero, tamano, (x, y));
    }

    /** The safe branch of `abrir_casilla`: flood, recompute the gain, maybe win. */
    method AbrirSegura(x: int, y: int) returns (r: Result<Apertura>)
      requires Valid() && Abrible(x, y) && !tablero[x][y].esMina
      modifies this`tablero, this`casillasAbiertas, this`gameOver, this`ganado, this`gananciaActual, this`multiplicadorActual
      ensures Valid()
      ensures Avance(old(tablero), tablero, tamano) && Cerrado(old(tablero), tablero, tamano) && tablero[x][y].abierta
      ensures tablero == Inundado(old(tablero), tamano, (x, y))
      ensures |casillasAbiertas| == |old(casillasAbiertas)| + |Region(old(tablero), tamano, (x, y))|
      ensures |old(casillasAbiertas)| < |casillasAbiertas|
      ensures multiplicadorActual == Multiplicador(multiplicadorBase, |casillasAbiertas|)
      ensures gananciaActual == Ganancia(apuesta, multiplicadorActual)
      ensures (ganado <==> |casillasAbiertas| == Seguras(tamano, minasTotales)) && gameOver == ganado
      ensures r == Ok(Apertura(false, ganado, ganado, gananciaActual, Some(old(tablero[x][y].minasCercanas)),
                               if ganado then None else Some(|casillasAbiertas| - |old(casillasAbiertas)|)))
    {
      var casilla := tablero[x][y];
      var antes := |casillasAbiertas|;
      Inundar(x, y);
      assert Some(casilla.minasCercanas) == Some(old(tablero[x][y].minasCercanas)) && antes == |old(casillasAbiertas)|;
      r := Cobrar(casilla.minasCercanas, antes);
    }

    /** After the flood of a live game: the multiplier and gain follow the listed cells, and listing every safe cell wins. */
    method Cobrar(minasCercanas: int, antes: int) returns (r: Result<Apertura>)
      requires ConfigDe(dificultad) == Some(Config(tamano, minasTotales, multiplicadorBase))
      requires Consistente(tablero, tamano, casillasAbiertas, casillasMarcadas)
      requires !gameOver && !ganado
      modifies this`gameOver, this`ganado, this`gananciaActual, this`multiplicadorActual
      ensures Valid()
      ensures multiplicadorActual == Multiplicador(multiplicadorBase, |casillasAbiertas|)
      ensures gananciaActual == Ganancia(apuesta, multiplicadorActual)
      ensures (ganado <==> |casillasAbiertas| == Seguras(tamano, minasTotales)) && gameOver == ganado
      ensures r == Ok(Apertura(false, ganado, ganado, gananciaActual, Some(minasCercanas),
                               if ganado then None else Some(|casillasAbiertas| - antes)))
    {
      var nuevas := |casillasAbiertas| - antes;
      multiplicadorActual := Multiplicador(multiplicadorBase, |casillasAbiertas|);
      gananciaActual := Ganancia(apuesta, multiplicadorActual);
      var seguras := Seguras(tamano, minasTotales);
      if |casillasAbiertas| == seguras {
        ganado := true;
        gameOver := true;
        return Ok(Apertura(false, true, true, gananciaActual, Some(minasCercanas), None));
      }
      return Ok(Apertura(false, false, false, gananciaActual, Some(minasCercanas), Some(nuevas)));
    }

    /**
     * `marcar_casilla`: off the board is `Err(400)`; an open cell answers
     * false and changes nothing; otherwise the flag toggles, the list gains
     * or loses the cell, and the answer is the new flag.
     */
    method MarcarCasilla(x: int, y: int) returns (r: Result<bool>)
      requires Valid()
      modifies this`tablero, this`casillasMarcadas
      ensures Valid()
      ensures !EnRango(tamano, x, y) ==> r == Err(400) && unchanged(this)
      ensures EnRango(tamano, x, y) && old(tablero[x][y].abierta) ==> r == Ok(false) && unchanged(this)
      ensures EnRango(tamano, x, y) && !old(tablero[x][y].abierta) ==>
        && tablero == Alternar(old(tablero), x, y)
        && r == Ok(!old(tablero)[x][y].marcada)
        && casillasMarcadas == (if r.value then old(casillasMarcadas) + [(x, y)] else Quitar(old(casillasMarcadas), (x, y)))
    {
      if !(0 <= x < tamano && 0 <= y < tamano) {
        return Err(400);
      }
      var casilla := tablero[x][y];
      if casilla.abierta {
        return Ok(false);
      }
      var marcada := AlternarMarca(x, y);
      return Ok(marcada);
    }

    /** The flag toggle of `marcar_casilla` on a closed cell. */
    method AlternarMarca(x: int, y: int) returns (marcada: bool)
      requires Valid() && EnRango(tamano, x, y) && !tablero[x][y].abierta
      modifies this`tablero, this`casillasMarcadas
      ensures Valid()
      ensures tablero == Alternar(old(tablero), x, y) && marcada == !old(tablero)[x][y].marcada
      ensures casillasMarcadas == (if marcada then old(casillasMarcadas) + [(x, y)] else Quitar(old(casillasMarcadas), (x, y)))
    {
      MarcarConsistente(tablero, tamano, casillasAbiertas, casillasMarcadas, x, y);
      marcada := !tablero[x][y].marcada;
      var marcadas := casillasMarcadas;
      if marcada {
        if (x, y) !in marcadas {
          marcadas := marcadas + [(x, y)];
        }
      } else {
        if (x, y) in marcadas {
          marcadas := Quitar(marcadas, (x, y));
        }
      }
      tablero := Alternar(tablero, x, y);
      casillasMarcadas := marcadas;
    }

    /** `retirarse`: a finished game is `Err(400)`; otherwise the game ends and the gain is paid out. */
    method Retirarse() returns (r: Result<int>)
      requires Valid()
      modifies this`gameOver
      ensures Valid() && gameOver
      ensures old(gameOver) ==> r == Err(400)
      ensures !old(gameOver) ==> r == Ok(Ganancia(apuesta, Multiplicador(multiplicadorBase, |casillasAbiertas|)))
    {
      if gameOver {
        return Err(400);
      }
      gameOver := true;
      return Ok(gananciaActual);
    }
  }

  // ------------------------------------------------------------- the handlers

  /** `sesiones_activas`: the games in progress, by session id. */
  class Sesiones {
    var tabla: map<string, JuegoMinas>

    constructor ()
      ensures tabla == map[]
    {
      tabla := map[];
    }
  }

  /** The game stored under `sid`, as a frame. */
  function JuegoEn(s: Sesiones, sid: string): set<JuegoMinas>
    reads s
  {
    if sid in s.tabla then {s.tabla[sid]} else {}
  }

  /** The table without the games of user `uid`. */
  function SinJuegosDe(t: map<string, JuegoMinas>, uid: int): (r: map<string, JuegoMinas>)
    ensures forall k :: k in r <==> k in t && t[k].usuarioId != uid
    ensures forall k :: k in r ==> r[k] == t[k]
  {
    map k | k in t && t[k].usuarioId != uid :: t[k]
  }

  /** The loop at the top of `iniciar_minas`: every game of the caller is dropped. */
  method LimpiarJuegosDe(s: Sesiones, uid: int)
    modifies s
    ensures s.tabla == SinJuegosDe(old(s.tabla), uid)
  {
    var juegos := s.tabla;
    var pendientes := juegos.Keys;
    while pendientes != {}
      invariant juegos == old(s.tabla) && pendientes <= juegos.Keys
      invariant forall k :: k in s.tabla <==> k in old(s.tabla) && (k in pendientes || old(s.tabla)[k].usuarioId != uid)
      invariant forall k :: k in s.tabla ==> s.tabla[k] == old(s.tabla)[k]
      decreases pendientes
    {
      var juegoId :| juegoId in pendientes;
      var juego := juegos[juegoId];
      if juego.usuarioId == uid {
        s.tabla := s.tabla - {juegoId};
      }
      pendientes := pendientes - {juegoId};
    }
    assert s.tabla == SinJuegosDe(old(s.tabla), uid);
  }

  datatype InicioMinas = InicioMinas(
    sessionId: string,
    tamano: int,
    minasTotales: int,
    apuesta: int,
    dificultad: string,
    multiplicadorBase: real,
    nuevoSaldo: real)

  /**
   * `iniciar_minas`. The caller's previous games are dropped first, whatever
   * follows. Then: an unknown difficulty is 400, a stake under 100 is 400, a
   * missing user 404, a balance under the stake 400; otherwise the stake is
   * debited and a fresh game over the drawn `posiciones` is stored under `sid`.
   */
  method IniciarMinas(db: Db, s: Sesiones, uid: int, apuesta: int, dificultad: string,
                      posiciones: set<int>, sid: string, ahora: real) returns (r: Result<InicioMinas>)
    requires ConfigDe(dificultad).Some? ==> MuestraValida(posiciones, ConfigDe(dificultad).value)
    modifies db`usuarios, s
    ensures ConfigDe(dificultad).None? ==> r == Err(400)
    ensures ConfigDe(dificultad).Some? && apuesta < APUESTA_MINIMA ==> r == Err(400)
    ensures ConfigDe(dificultad).Some? && apuesta >= APUESTA_MINIMA && uid !in old(db.usuarios) ==> r == Err(404)
    ensures (ConfigDe(dificultad).Some? && apuesta >= APUESTA_MINIMA && uid in old(db.usuarios) &&
             old(db.usuarios[uid].saldo) < apuesta as real) ==> r == Err(400)
    ensures r.Err? ==> db.usuarios == old(db.usuarios) && s.tabla == SinJuegosDe(old(s.tabla), uid)
    ensures r.Ok? ==>
      && ConfigDe(dificultad).Some? && apuesta >= APUESTA_MINIMA
      && uid in old(db.usuarios) && old(db.usuarios[uid].saldo) >= apuesta as real
      && db.usuarios == ConSaldo(old(db.usuarios), uid, -(apuesta as real))
      && sid in s.tabla && s.tabla == SinJuegosDe(old(s.tabla), uid)[sid := s.tabla[sid]]
    ensures r.Ok? ==>
      var c, juego := ConfigDe(dificultad).value, s.tabla[sid];
      && fresh(juego) && juego.Valid()
      && juego.id == sid && juego.usuarioId == uid && juego.apuesta == apuesta && juego.dificultad == dificultad
      && EsTableroDe(juego.tablero, c.tamano, posiciones) && |MinasDe(juego.tablero, c.tamano)| == c.minas
      && juego.casillasAbiertas == [] && juego.casillasMarcadas == [] && !juego.gameOver && !juego.ganado
      && juego.gananciaActual == apuesta
      && r.value == InicioMinas(sid, c.tamano, c.minas, apuesta, dificultad, c.multiplicadorBase, db.usuarios[uid].saldo)
  {
    LimpiarJuegosDe(s, uid);
    var config := ConfigDe(dificultad);
    if config.None? {
      return Err(400);
    }
    if apuesta < 100 {
      return Err(400);
    }
    if uid !in db.usuarios {
      return Err(404);
    }
    var user := db.usuarios[uid];
    if user.saldo < apuesta as real {
      return Err(400);
    }
    var usuarios := ConSaldo(db.usuarios, uid, -(apuesta as real));
    db.usuarios := usuarios;
    var juego := new JuegoMinas(sid, uid, user.username, apuesta, dificultad, posiciones, ahora);
    s.tabla := s.tabla[sid := juego];
    var c := config.value;
    return Ok(InicioMinas(sid, c.tamano, c.minas, apuesta, dificultad, c.multiplicadorBase, usuarios[uid].saldo));
  }

  /** What the `abrir` endpoint answers: the game's own answer and the balance. */
  datatype RespuestaApertura = RespuestaApertura(resultado: Apertura, nuevoSaldo: real)

  /**
   * The `abrir` endpoint. An unknown session is 404, another user's 403, a
   * `ValueError` of the game 400. A win pays the gain and drops the session;
   * a mine reveals every mine and drops the session; otherwise the session
   * stays. On a safe cell the game's board, list, multiplier and gain are
   * those `JuegoMinas.AbrirCasilla` promises, restated here. A missing user
   * row makes the answer (or, on a win, the payment) fail with 500 after the
   * game has already moved; the balance is untouched.
   */
  method AbrirCasillaSesion(db: Db, s: Sesiones, uid: int, sid: string, x: int, y: int)
    returns (r: Result<RespuestaApertura>)
    requires sid in s.tabla ==> s.tabla[sid].Valid()
    modifies db`usuarios, s, JuegoEn(s, sid)
    ensures sid !in old(s.tabla) ==> r == Err(404) && db.usuarios == old(db.usuarios) && s.tabla == old(s.tabla)
    ensures sid in old(s.tabla) && old(s.tabla[sid]).usuarioId != uid ==>
              r == Err(403) && db.usuarios == old(db.usuarios) && s.tabla == old(s.tabla) && unchanged(old(s.tabla[sid]))
    ensures sid in old(s.tabla) && old(s.tabla[sid]).usuarioId == uid && !old(s.tabla[sid].Abrible(x, y)) ==>
              r == Err(400) && db.usuarios == old(db.usuarios) && s.tabla == old(s.tabla) && unchanged(old(s.tabla[sid]))
    ensures sid in old(s.tabla) && old(s.tabla[sid]).usuarioId == uid && old(s.tabla[sid].Abrible(x, y)) ==>
      var juego, presente := old(s.tabla[sid]), uid in old(db.usuarios);
      && (old(juego.tablero[x][y].esMina) <==> juego.gameOver && !juego.ganado)
      && (!old(juego.tablero[x][y].esMina) ==>
            && juego.tablero == Inundado(old(juego.tablero), juego.tamano, (x, y))
            && |juego.casillasAbiertas| == |old(juego.casillasAbiertas)| + |Region(old(juego.tablero), juego.tamano, (x, y))|
            && juego.multiplicadorActual == Multiplicador(juego.multiplicadorBase, |juego.casillasAbiertas|)
            && juego.gananciaActual == Ganancia(juego.apuesta, juego.multiplicadorActual))
      && (juego.ganado && presente ==>
            && db.usuarios == ConSaldo(old(db.usuarios), uid, juego.gananciaActual as real)
            && s.tabla == old(s.tabla) - {sid}
            && r == Ok(RespuestaApertura(Apertura(false, true, true, juego.gananciaActual,
                                                  Some(old(juego.tablero[x][y].minasCercanas)), None),
                                         db.usuarios[uid].saldo)))
      && (juego.ganado && !presente ==>
            r == Err(500) && db.usuarios == old(db.usuarios) && s.tabla == old(s.tabla) && juego.Valid())
      && (juego.gameOver && !juego.ganado ==>
            && db.usuarios == old(db.usuarios) && s.tabla == old(s.tabla) - {sid}
            && Revelado(Abrir(old(juego.tablero), x, y), juego.tablero, juego.tamano)
            && (if presente then r == Ok(RespuestaApertura(Apertura(true, true, false, 0, None, None), db.usuarios[uid].saldo))
                else r == Err(500)))
      && (!juego.gameOver ==>
            && db.usuarios == old(db.usuarios) && s.tabla == old(s.tabla) && juego.Valid()
            && (if presente
                then r == Ok(RespuestaApertura(Apertura(false, false, false, juego.gananciaActual,
                                                        Some(old(juego.tablero[x][y].minasCercanas)),
                                                        Some(|juego.casillasAbiertas| - |old(juego.casillasAbiertas)|)),
                                               db.usuarios[uid].saldo))
                else r == Err(500)))
  {
    if sid !in s.tabla {
      return Err(404);
    }
    var juego := s.tabla[sid];
    if juego.usuarioId != uid {
      return Err(403);
    }
    var resultado := juego.AbrirCasilla(x, y);
    if resultado.Err? {
      return Err(400);
    }
    var apertura := resultado.value;
    if apertura.gameOver {
      if apertura.ganado {
        if uid !in db.usuarios {
          return Err(500);
        }
        var user := db.usuarios[uid];
        user := user.(saldo := user.saldo + apertura.ganancia as real);
        db.usuarios := db.usuarios[uid := user];
        s.tabla := s.tabla - {sid};
        return Ok(RespuestaApertura(apertura, user.saldo));
      } else {
        var revelado := RevelarMinas(juego.tablero, juego.tamano);
        juego.tablero := revelado;
        s.tabla := s.tabla - {sid};
        if uid !in db.usuarios {
          return Err(500);
        }
        return Ok(RespuestaApertura(apertura, db.usuarios[uid].saldo));
      }
    }
    if uid !in db.usuarios {
      return Err(500);
    }
    return Ok(RespuestaApertura(apertura, db.usuarios[uid].saldo));
  }

  /** The `marcar` endpoint: 404, 403, the game's `ValueError` as 400, else the new flag. */
  method MarcarCasillaSesion(s: Sesiones, uid: int, sid: string, x: int, y: int) returns (r: Result<bool>)
    requires sid in s.tabla ==> s.tabla[sid].Valid()
    modifies JuegoEn(s, sid)
    ensures s.tabla == old(s.tabla)
    ensures sid !in old(s.tabla) ==> r == Err(404)
    ensures sid in old(s.tabla) && old(s.tabla[sid].usuarioId) != uid ==> r == Err(403) && unchanged(old(s.tabla[sid]))
    ensures sid in old(s.tabla) && old(s.tabla[sid].usuarioId) == uid ==>
      var juego := old(s.tabla[sid]);
      && juego.Valid()
      && (!EnRango(juego.tamano, x, y) ==> r == Err(400) && unchanged(juego))
      && (EnRango(juego.tamano, x, y) && old(juego.tablero[x][y].abierta) ==> r == Ok(false) && unchanged(juego))
      && (EnRango(juego.tamano, x, y) && !old(juego.tablero[x][y].abierta) ==>
            && juego.tablero == Alternar(old(juego.tablero), x, y) && r == Ok(juego.tablero[x][y].marcada)
            && juego.casillasMarcadas == (if r.value then old(juego.casillasMarcadas) + [(x, y)]
                                          else Quitar(old(juego.casillasMarcadas), (x, y)))
            && juego.casillasAbiertas == old(juego.casillasAbiertas)
            && juego.gameOver == old(juego.gameOver) && juego.ganado == old(juego.ganado)
            && juego.gananciaActual == old(juego.gananciaActual) && juego.multiplicadorActual == old(juego.multiplicadorActual))
  {
    if sid !in s.tabla {
      return Err(404);
    }
    var juego := s.tabla[sid];
    if juego.usuarioId != uid {
      return Err(403);
    }
    r := juego.MarcarCasilla(x, y);
  }

  datatype Cobro = Cobro(ganancia: int, nuevoSaldo: real, casillasAbiertas: int, multiplicadorFinal: real)

  /**
   * The `retirarse` endpoint: 404, 403, 400 for a finished game; then the
   * game ends and its gain is paid and the session dropped. Without a user
   * row the payment fails with 500, leaving the game ended and in the table.
   */
  method RetirarseSesion(db: Db, s: Sesiones, uid: int, sid: string) returns (r: Result<Cobro>)
    requires sid in s.tabla ==> s.tabla[sid].Valid()
    modifies db`usuarios, s, JuegoEn(s, sid)
    ensures sid !in old(s.tabla) ==> r == Err(404) && db.usuarios == old(db.usuarios) && s.tabla == old(s.tabla)
    ensures sid in old(s.tabla) && old(s.tabla[sid]).usuarioId != uid ==>
              r == Err(403) && db.usuarios == old(db.usuarios) && s.tabla == old(s.tabla) && unchanged(old(s.tabla[sid]))
    ensures sid in old(s.tabla) && old(s.tabla[sid]).usuarioId == uid && old(s.tabla[sid].gameOver) ==>
              r == Err(400) && db.usuarios == old(db.usuarios) && s.tabla == old(s.tabla) && unchanged(old(s.tabla[sid]))
    ensures sid in old(s.tabla) && old(s.tabla[sid]).usuarioId == uid && !old(s.tabla[sid].gameOver) ==>
      var juego := old(s.tabla[sid]);
      var ganancia := Ganancia(juego.apuesta, Multiplicador(juego.multiplicadorBase, |juego.casillasAbiertas|));
      && juego.gameOver && juego.Valid()
      && (uid in old(db.usuarios) ==>
            && db.usuarios == ConSaldo(old(db.usuarios), uid, ganancia as real)
            && s.tabla == old(s.tabla) - {sid}
            && r == Ok(Cobro(ganancia, db.usuarios[uid].saldo, |juego.casillasAbiertas|, juego.multiplicadorActual)))
      && (uid !in old(db.usuarios) ==> r == Err(500) && db.usuarios == old(db.usuarios) && s.tabla == old(s.tabla))
  {
    if sid !in s.tabla {
      return Err(404);
    }
    var juego := s.tabla[sid];
    if juego.usuarioId != uid {
      return Err(403);
    }
    if juego.gameOver {
      return Err(400);
    }
    var retiro := juego.Retirarse();
    var ganancia := retiro.value;
    if uid !in db.usuarios {
      return Err(500);
    }
    var user := db.usuarios[uid];
    user := user.(saldo := user.saldo + ganancia as real);
    db.usuarios := db.usuarios[uid := user];
    s.tabla := s.tabla - {sid};
    return Ok(Cobro(ganancia, user.saldo, |juego.casillasAbiertas|, juego.multiplicadorActual));
  }

  /** `cancelar_juego`: 404, 403, else the session is dropped with no refund; the answer is the lost stake. */
  method CancelarJuego(s: Sesiones, uid: int, sid: string) returns (r: Result<int>)
    modifies s
    ensures sid !in old(s.tabla) ==> r == Err(404) && s.tabla == old(s.tabla)
    ensures sid in old(s.tabla) && old(s.tabla[sid]).usuarioId != uid ==> r == Err(403) && s.tabla == old(s.tabla)
    ensures sid in old(s.tabla) && old(s.tabla[sid]).usuarioId == uid ==>
              r == Ok(old(s.tabla[sid]).apuesta) && s.tabla == old(s.tabla) - {sid}
  {
    if sid !in s.tabla {
      return Err(404);
    }
    var juego := s.tabla[sid];
    if juego.usuarioId != uid {
      return Err(403);
    }
    s.tabla := s.tabla - {sid};
    return Ok(juego.apuesta);
  }
}
