/**
 * The match-3 "cascadas" game of app/services/juegos/cascadastestris.py.
 * A grid of symbols is scanned for runs of at least three equal symbols
 * (horizontal, vertical and both diagonals); the cells of every run are
 * cleared, the remaining symbols fall to the bottom of their column, new
 * symbols fill the top, and the scan repeats on the new grid.
 *
 * The grid is a two-dimensional array updated in place, as the Python list
 * of lists is. The random symbols (the first grid and every refill) are
 * parameters; the float multipliers are reals.
 */
module Cascadas {
  import opened Wrappers
  import opened Modelos

  // ------------------------------------------------------------- the table

  /** The nine symbols of `SIMBOLOS`, in the order of their `grupo`. */
  datatype Simbolo = Rojo | Azul | Verde | Amarillo | Morado | Naranja | Diamante | Estrella | Corona

  /** A cell of the grid: the empty string or a symbol. */
  datatype Celda = Vacia | Ficha(simbolo: Simbolo)

  /** A grid as a value: a list of rows. */
  type Matriz = seq<seq<Celda>>

  /** `SIMBOLOS[s]["grupo"]`. */
  function Grupo(s: Simbolo): (g: int)
    ensures 1 <= g <= 9
  {
    match s
    case Rojo => 1
    case Azul => 2
    case Verde => 3
    case Amarillo => 4
    case Morado => 5
    case Naranja => 6
    case Diamante => 7
    case Estrella => 8
    case Corona => 9
  }

  /** `MULTIPLICADORES_COMBO.get(longitud, 1)`. */
  function MultiplicadorCombo(longitud: int): (k: int)
    ensures 1 <= k <= 200
    ensures 3 <= longitud <= 10 ==> k >= 1 && (longitud >= 4 ==> k >= 2)
  {
    if longitud == 3 then 1
    else if longitud == 4 then 2
    else if longitud == 5 then 5
    else if longitud == 6 then 10
    else if longitud == 7 then 25
    else if longitud == 8 then 50
    else if longitud == 9 then 100
    else if longitud == 10 then 200
    else 1
  }

  /** `BONUS_CASCADA.get(min(nivel, 6), 1.0)`. */
  function BonusCascada(nivel: int): (b: real)
    ensures 1.0 <= b <= 5.0
  {
    var n := if nivel < 6 then nivel else 6;
    if n == 1 then 1.0
    else if n == 2 then 1.2
    else if n == 3 then 1.5
    else if n == 4 then 2.0
    else if n == 5 then 3.0
    else if n == 6 then 5.0
    else 1.0
  }

  /** From the first cascade on, a deeper level never has a smaller bonus. */
  lemma BonusCrece(n: int, k: int)
    requires 1 <= n <= k
    ensures BonusCascada(n) <= BonusCascada(k)
    ensures n >= 6 ==> BonusCascada(n) == 5.0
  {
  }

  datatype Config = Config(filas: int, columnas: int, multiplicadorBase: real, apuestaMinima: int, apuestaMaxima: int)

  /** `CONFIGURACIONES`. */
  function ConfigDe(nombre: string): (c: Option<Config>)
    ensures c.Some? ==> c.value.filas == c.value.columnas && c.value.filas in {5, 10}
    ensures c.Some? ==> c.value.multiplicadorBase >= 1.0 && 0 < c.value.apuestaMinima <= c.value.apuestaMaxima
  {
    if nombre == "5x5" then Some(Config(5, 5, 1.0, 100, 5000))
    else if nombre == "10x10" then Some(Config(10, 10, 2.0, 500, 20000))
    else None
  }

  // -------------------------------------------------------------- the grid

  /** A non-empty grid whose rows all have the length of the first. */
  predicate Rectangular(m: Matriz)
  {
    |m| > 0 && forall i :: 0 <= i < |m| ==> |m[i]| == |m[0]|
  }

  predicate EnRango(m: Matriz, p: (int, int))
  {
    |m| > 0 && 0 <= p.0 < |m| && 0 <= p.1 < |m[0]|
  }

  /** The cell at `p` of a rectangular grid. */
  function En(m: Matriz, p: (int, int)): Celda
    requires Rectangular(m) && EnRango(m, p)
  {
    m[p.0][p.1]
  }

  /** The contents of the array, row by row. */
  function Valor(a: array2<Celda>): (m: Matriz)
    reads a
    ensures |m| == a.Length0 && forall i :: 0 <= i < |m| ==> |m[i]| == a.Length1
    ensures forall i, j :: 0 <= i < a.Length0 && 0 <= j < a.Length1 ==> m[i][j] == a[i, j]
  {
    seq(a.Length0, i requires 0 <= i < a.Length0 reads a =>
      seq(a.Length1, j requires 0 <= j < a.Length1 reads a => a[i, j]))
  }

  /** Two grids of the same shape that agree on every cell are equal. */
  lemma {:induction false} IgualesPorCeldas(x: Matriz, y: Matriz)
    requires |x| == |y| && forall i :: 0 <= i < |x| ==> |x[i]| == |y[i]|
    requires forall i, j :: 0 <= i < |x| && 0 <= j < |x[i]| ==> x[i][j] == y[i][j]
    ensures x == y
  {
    forall i | 0 <= i < |x|
      ensures x[i] == y[i]
    {
      assert forall j :: 0 <= j < |x[i]| ==> x[i][j] == y[i][j];
    }
  }

  // ---------------------------------------------------------------- combos

  /** The four kinds of combination: `tipo`. */
  datatype Tipo = Horizontal | Vertical | DiagonalDesc | DiagonalAsc

  /** The `i`-th cell of a line of kind `t` that starts at `(f, c)`. */
  function Desplazar(t: Tipo, f: int, c: int, i: int): (int, int)
  {
    match t
    case Horizontal => (f, c + i)
    case Vertical => (f + i, c)
    case DiagonalDesc => (f + i, c + i)
    case DiagonalAsc => (f - i, c + i)
  }

  /** `posiciones`: the first `l` cells of that line. */
  function Posiciones(t: Tipo, f: int, c: int, l: nat): (ps: seq<(int, int)>)
    ensures |ps| == l && forall i :: 0 <= i < l ==> ps[i] == Desplazar(t, f, c, i)
  {
    seq(l, i => Desplazar(t, f, c, i))
  }

  datatype Combo = Combo(tipo: Tipo, simbolo: Simbolo, posiciones: seq<(int, int)>, longitud: int)

  /**
   * The run-length loop of `encontrar_combinaciones`: starting at length
   * `l`, the run grows while the next cell of the line is on the grid and
   * holds the first cell's symbol.
   */
  function Largo(m: Matriz, t: Tipo, f: int, c: int, l: nat): (r: nat)
    requires Rectangular(m) && EnRango(m, (f, c)) && l >= 1
    ensures r >= l
    ensures forall i :: l <= i < r ==> EnRango(m, Desplazar(t, f, c, i)) && En(m, Desplazar(t, f, c, i)) == m[f][c]
    ensures !EnRango(m, Desplazar(t, f, c, r)) || En(m, Desplazar(t, f, c, r)) != m[f][c]
    decreases |m| + |m[0]| - l
  {
    var p := Desplazar(t, f, c, l);
    if EnRango(m, p) && En(m, p) == m[f][c] then Largo(m, t, f, c, l + 1) else l
  }

  /** The combination of kind `t` and length `l` whose first cell is `(f, c)`. */
  function ComboEn(m: Matriz, t: Tipo, f: int, c: int, l: nat): Combo
    requires Rectangular(m) && EnRango(m, (f, c)) && m[f][c] != Vacia
  {
    Combo(t, m[f][c].simbolo, Posiciones(t, f, c, l), l)
  }

  /** A reported combination: `longitud` cells of its line, at least `minCombo`, all holding its symbol. */
  predicate ComboValido(m: Matriz, k: Combo, minCombo: int)
    requires Rectangular(m)
  {
    && k.longitud == |k.posiciones| >= minCombo
    && |k.posiciones| > 0
    && (forall i :: 0 <= i < |k.posiciones| ==>
          k.posiciones[i] == Desplazar(k.tipo, k.posiciones[0].0, k.posiciones[0].1, i))
    && (forall i :: 0 <= i < |k.posiciones| ==>
          EnRango(m, k.posiciones[i]) && En(m, k.posiciones[i]) == Ficha(k.simbolo))
  }

  /** The run cannot be extended at either end: the cell before and the cell after are off the grid or differ. */
  predicate Maximal(m: Matriz, k: Combo)
    requires Rectangular(m) && |k.posiciones| > 0
  {
    var f, c := k.posiciones[0].0, k.posiciones[0].1;
    && (!EnRango(m, Desplazar(k.tipo, f, c, -1)) || En(m, Desplazar(k.tipo, f, c, -1)) != Ficha(k.simbolo))
    && (!EnRango(m, Desplazar(k.tipo, f, c, k.longitud)) || En(m, Desplazar(k.tipo, f, c, k.longitud)) != Ficha(k.simbolo))
  }

  /** No run of the cell's symbol reaches `(f, c)` from the cell before it. */
  predicate InicioDeTramo(m: Matriz, t: Tipo, f: int, c: int)
    requires Rectangular(m) && EnRango(m, (f, c))
  {
    !EnRango(m, Desplazar(t, f, c, -1)) || En(m, Desplazar(t, f, c, -1)) != m[f][c]
  }

  // ------------------------------------------- the scans, as specifications

  /**
   * The body the four scans share at the start `(f, c)`: an empty cell adds
   * nothing; otherwise the run is measured and appended to `hechos` when it
   * is at least `minCombo` long.
   */
  function Anotar(m: Matriz, t: Tipo, f: int, c: int, minCombo: int, hechos: seq<Combo>): seq<Combo>
    requires Rectangular(m) && EnRango(m, (f, c))
  {
    if m[f][c] == Vacia then hechos
    else
      var l := Largo(m, t, f, c, 1);
      if l >= minCombo then hechos + [ComboEn(m, t, f, c, l)] else hechos
  }

  predicate Recta(t: Tipo)
  {
    t == Horizontal || t == Vertical
  }

  /** How many lines of kind `t` the grid has: rows for horizontal, columns for vertical. */
  function Lineas(m: Matriz, t: Tipo): int
    requires Rectangular(m) && Recta(t)
  {
    if t == Horizontal then |m| else |m[0]|
  }

  /** How many cells a line of kind `t` has. */
  function Longitud(m: Matriz, t: Tipo): int
    requires Rectangular(m) && Recta(t)
  {
    if t == Horizontal then |m[0]| else |m|
  }

  /** The `p`-th cell of line `a`: `(a, p)` of a row, `(p, a)` of a column. */
  function Inicio(t: Tipo, a: int, p: int): (int, int)
  {
    if t == Vertical then (p, a) else (a, p)
  }

  /** Where the scan of line `a` may stand: at the end, on an empty cell or at the start of a run. */
  predicate Arranque(m: Matriz, t: Tipo, a: int, p: int)
    requires Rectangular(m) && Recta(t) && 0 <= a < Lineas(m, t) && 0 <= p <= Longitud(m, t)
  {
    p == Longitud(m, t) || En(m, Inicio(t, a, p)) == Vacia || InicioDeTramo(m, t, Inicio(t, a, p).0, Inicio(t, a, p).1)
  }

  /**
   * The `while col < columnas` scan of one row (or the `while fila < filas`
   * scan of one column) from position `p`, appending to `hechos`: an empty
   * cell is skipped, a run is reported when it is long enough, and the scan
   * resumes after the run.
   */
  function Linea(m: Matriz, t: Tipo, a: int, p: int, minCombo: int, hechos: seq<Combo>): seq<Combo>
    requires Rectangular(m) && Recta(t) && 0 <= a < Lineas(m, t) && 0 <= p <= Longitud(m, t)
    decreases Longitud(m, t) - p
  {
    if p == Longitud(m, t) then hechos
    else
      var ij := Inicio(t, a, p);
      if m[ij.0][ij.1] == Vacia then Linea(m, t, a, p + 1, minCombo, hechos)
      else
        var l := Largo(m, t, ij.0, ij.1, 1);
        assert l == 1 || EnRango(m, Desplazar(t, ij.0, ij.1, l - 1));
        Linea(m, t, a, p + l, minCombo, Anotar(m, t, ij.0, ij.1, minCombo, hechos))
  }

  /** The scans of the lines `0 .. n - 1` of kind `t`, in order, after `hechos`. */
  function Rectas(m: Matriz, t: Tipo, minCombo: int, n: int, hechos: seq<Combo>): seq<Combo>
    requires Rectangular(m) && Recta(t) && 0 <= n <= Lineas(m, t)
  {
    if n == 0 then hechos else Linea(m, t, n - 1, 0, minCombo, Rectas(m, t, minCombo, n - 1, hechos))
  }

  /** `max(n, 0)`: the length of `range(n)`. */
  function NoNegativo(n: int): nat
  {
    if n < 0 then 0 else n
  }

  /** The inner diagonal loop: starts `(f, 0) .. (f, n - 1)`, after `hechos`. */
  function DiagonalesFila(m: Matriz, t: Tipo, f: int, n: int, minCombo: int, hechos: seq<Combo>): seq<Combo>
    requires Rectangular(m) && 0 <= f < |m| && 0 <= n <= |m[0]|
  {
    if n == 0 then hechos else Anotar(m, t, f, n - 1, minCombo, DiagonalesFila(m, t, f, n - 1, minCombo, hechos))
  }

  /** The outer diagonal loop over the rows `desde .. hasta - 1`, each with `range(columnas - minCombo + 1)`. */
  function Diagonales(m: Matriz, t: Tipo, minCombo: int, desde: int, hasta: int, hechos: seq<Combo>): seq<Combo>
    requires Rectangular(m) && minCombo >= 1 && 0 <= desde && (hasta > desde ==> hasta <= |m|)
    decreases hasta - desde
  {
    if hasta <= desde then hechos
    else
      DiagonalesFila(m, t, hasta - 1, NoNegativo(|m[0]| - minCombo + 1), minCombo,
                     Diagonales(m, t, minCombo, desde, hasta - 1, hechos))
  }

  /** The four scans of `encontrar_combinaciones`, in order, into one list. */
  function Combinaciones(m: Matriz, minCombo: int): seq<Combo>
    requires Rectangular(m) && minCombo >= 1
  {
    var horizontales := Rectas(m, Horizontal, minCombo, |m|, []);
    var verticales := Rectas(m, Vertical, minCombo, |m[0]|, horizontales);
    var descendentes := Diagonales(m, DiagonalDesc, minCombo, 0, NoNegativo(|m| - minCombo + 1), verticales);
    Diagonales(m, DiagonalAsc, minCombo, minCombo - 1, |m|, descendentes)
  }

  // ------------------------------------------------------ what a scan reports

  /** A reported run: its cells hold its symbol, are consecutive, and the run cannot grow forward. */
  lemma ComboEnValido(m: Matriz, t: Tipo, f: int, c: int, minCombo: int)
    requires Rectangular(m) && EnRango(m, (f, c)) && m[f][c] != Vacia
    requires Largo(m, t, f, c, 1) >= minCombo
    ensures ComboValido(m, ComboEn(m, t, f, c, Largo(m, t, f, c, 1)), minCombo)
    ensures InicioDeTramo(m, t, f, c) ==> Maximal(m, ComboEn(m, t, f, c, Largo(m, t, f, c, 1)))
  {
    var l := Largo(m, t, f, c, 1);
    var k := ComboEn(m, t, f, c, l);
    assert Desplazar(t, f, c, 0) == (f, c);
    assert k.posiciones[0] == (f, c);
  }

  /** A combination a scan of kind `t` may report: a maximal run for rows and columns. */
  predicate Bueno(m: Matriz, t: Tipo, minCombo: int, k: Combo)
    requires Rectangular(m)
  {
    ComboValido(m, k, minCombo) && k.tipo == t && (Recta(t) ==> Maximal(m, k))
  }

  /** `r` keeps every combination of `hechos` and adds only ones a scan of kind `t` may report. */
  predicate Extiende(m: Matriz, t: Tipo, minCombo: int, hechos: seq<Combo>, r: seq<Combo>)
    requires Rectangular(m)
  {
    && (forall k :: k in hechos ==> k in r)
    && (forall k :: k in r ==> k in hechos || Bueno(m, t, minCombo, k))
  }

  lemma ExtiendeTransitivo(m: Matriz, t: Tipo, minCombo: int, x: seq<Combo>, y: seq<Combo>, z: seq<Combo>)
    requires Rectangular(m) && Extiende(m, t, minCombo, x, y) && Extiende(m, t, minCombo, y, z)
    ensures Extiende(m, t, minCombo, x, z)
  {
  }

  /** One start of a scan reports at most its own run, and a maximal one where nothing precedes it. */
  lemma AnotarExtiende(m: Matriz, t: Tipo, f: int, c: int, minCombo: int, hechos: seq<Combo>)
    requires Rectangular(m) && EnRango(m, (f, c))
    requires Recta(t) ==> InicioDeTramo(m, t, f, c)
    ensures Extiende(m, t, minCombo, hechos, Anotar(m, t, f, c, minCombo, hechos))
  {
    if m[f][c] != Vacia && Largo(m, t, f, c, 1) >= minCombo {
      ComboEnValido(m, t, f, c, minCombo);
    }
  }

  /** The cell `i` steps along line `a` from position `p` is position `p + i`. */
  lemma InicioDesplazar(t: Tipo, a: int, p: int, i: int)
    requires Recta(t)
    ensures Desplazar(t, Inicio(t, a, p).0, Inicio(t, a, p).1, i) == Inicio(t, a, p + i)
  {
  }

  /** After a run of length `l` from position `p`, the scan stands where it may. */
  lemma ArranqueTrasTramo(m: Matriz, t: Tipo, a: int, p: int)
    requires Rectangular(m) && Recta(t) && 0 <= a < Lineas(m, t) && 0 <= p < Longitud(m, t)
    requires En(m, Inicio(t, a, p)) != Vacia
    ensures var l := Largo(m, t, Inicio(t, a, p).0, Inicio(t, a, p).1, 1);
            p + l <= Longitud(m, t) && Arranque(m, t, a, p + l)
  {
    var ij := Inicio(t, a, p);
    var l := Largo(m, t, ij.0, ij.1, 1);
    InicioDesplazar(t, a, p, l - 1);
    InicioDesplazar(t, a, p, l);
    if l > 1 {
      assert EnRango(m, Desplazar(t, ij.0, ij.1, l - 1));
    }
    if p + l < Longitud(m, t) {
      var q := Inicio(t, a, p + l);
      InicioDesplazar(t, a, p + l, -1);
      assert En(m, Desplazar(t, q.0, q.1, -1)) == m[ij.0][ij.1];
    }
  }

  /** After an empty cell the scan stands where it may. */
  lemma ArranqueTrasVacia(m: Matriz, t: Tipo, a: int, p: int)
    requires Rectangular(m) && Recta(t) && 0 <= a < Lineas(m, t) && 0 <= p < Longitud(m, t)
    requires En(m, Inicio(t, a, p)) == Vacia
    ensures Arranque(m, t, a, p + 1)
  {
    if p + 1 < Longitud(m, t) {
      var q := Inicio(t, a, p + 1);
      InicioDesplazar(t, a, p + 1, -1);
    }
  }

  /** A line's scan starts where it may: nothing precedes its first cell. */
  lemma ArranqueInicial(m: Matriz, t: Tipo, a: int)
    requires Rectangular(m) && Recta(t) && 0 <= a < Lineas(m, t)
    ensures Arranque(m, t, a, 0)
  {
    if 0 < Longitud(m, t) {
      InicioDesplazar(t, a, 0, -1);
    }
  }

  /** One step of a line scan at an empty cell. */
  lemma LineaVacia(m: Matriz, t: Tipo, a: int, p: int, minCombo: int, hechos: seq<Combo>)
    requires Rectangular(m) && Recta(t) && 0 <= a < Lineas(m, t) && 0 <= p < Longitud(m, t)
    requires En(m, Inicio(t, a, p)) == Vacia
    ensures Linea(m, t, a, p, minCombo, hechos) == Linea(m, t, a, p + 1, minCombo, hechos)
  {
  }

  /** One step of a line scan at the start of a run: the run is noted and the scan goes on after it. */
  lemma LineaTramo(m: Matriz, t: Tipo, a: int, p: int, minCombo: int, hechos: seq<Combo>)
    requires Rectangular(m) && Recta(t) && 0 <= a < Lineas(m, t) && 0 <= p < Longitud(m, t)
    requires En(m, Inicio(t, a, p)) != Vacia
    ensures var ij := Inicio(t, a, p);
            var l := Largo(m, t, ij.0, ij.1, 1);
            && p + l <= Longitud(m, t)
            && Linea(m, t, a, p, minCombo, hechos) == Linea(m, t, a, p + l, minCombo, Anotar(m, t, ij.0, ij.1, minCombo, hechos))
  {
    ArranqueTrasTramo(m, t, a, p);
  }

  /** `LineaTramo` for a run whose length `l` is already known. */
  lemma LineaTramoDe(m: Matriz, t: Tipo, a: int, p: int, l: int, minCombo: int, hechos: seq<Combo>)
    requires Rectangular(m) && Recta(t) && 0 <= a < Lineas(m, t) && 0 <= p < Longitud(m, t)
    requires En(m, Inicio(t, a, p)) != Vacia && l == Largo(m, t, Inicio(t, a, p).0, Inicio(t, a, p).1, 1)
    ensures p < p + l <= Longitud(m, t)
    ensures Linea(m, t, a, p, minCombo, hechos)
         == Linea(m, t, a, p + l, minCombo, Anotar(m, t, Inicio(t, a, p).0, Inicio(t, a, p).1, minCombo, hechos))
  {
    LineaTramo(m, t, a, p, minCombo, hechos);
  }

  /** A line scan reports only maximal runs of its line, at least `minCombo` long. */
  lemma {:induction false} LineaExtiende(m: Matriz, t: Tipo, a: int, p: int, minCombo: int, hechos: seq<Combo>)
    requires Rectangular(m) && Recta(t) && 0 <= a < Lineas(m, t) && 0 <= p <= Longitud(m, t)
    requires Arranque(m, t, a, p)
    ensures Extiende(m, t, minCombo, hechos, Linea(m, t, a, p, minCombo, hechos))
    decreases Longitud(m, t) - p
  {
    if p < Longitud(m, t) {
      var ij := Inicio(t, a, p);
      if m[ij.0][ij.1] == Vacia {
        ArranqueTrasVacia(m, t, a, p);
        LineaVacia(m, t, a, p, minCombo, hechos);
        LineaExtiende(m, t, a, p + 1, minCombo, hechos);
      } else {
        var l := Largo(m, t, ij.0, ij.1, 1);
        ArranqueTrasTramo(m, t, a, p);
        LineaTramo(m, t, a, p, minCombo, hechos);
        var h := Anotar(m, t, ij.0, ij.1, minCombo, hechos);
        AnotarExtiende(m, t, ij.0, ij.1, minCombo, hechos);
        LineaExtiende(m, t, a, p + l, minCombo, h);
        ExtiendeTransitivo(m, t, minCombo, hechos, h, Linea(m, t, a, p + l, minCombo, h));
      }
    }
  }

  lemma {:induction false} RectasExtiende(m: Matriz, t: Tipo, minCombo: int, n: int, hechos: seq<Combo>)
    requires Rectangular(m) && Recta(t) && 0 <= n <= Lineas(m, t)
    ensures Extiende(m, t, minCombo, hechos, Rectas(m, t, minCombo, n, hechos))
  {
    if n > 0 {
      var r := Rectas(m, t, minCombo, n - 1, hechos);
      RectasExtiende(m, t, minCombo, n - 1, hechos);
      ArranqueInicial(m, t, n - 1);
      LineaExtiende(m, t, n - 1, 0, minCombo, r);
      ExtiendeTransitivo(m, t, minCombo, hechos, r, Linea(m, t, n - 1, 0, minCombo, r));
    }
  }

  lemma {:induction false} DiagonalesFilaExtiende(m: Matriz, t: Tipo, f: int, n: int, minCombo: int, hechos: seq<Combo>)
    requires Rectangular(m) && !Recta(t) && 0 <= f < |m| && 0 <= n <= |m[0]|
    ensures Extiende(m, t, minCombo, hechos, DiagonalesFila(m, t, f, n, minCombo, hechos))
  {
    if n > 0 {
      var r := DiagonalesFila(m, t, f, n - 1, minCombo, hechos);
      DiagonalesFilaExtiende(m, t, f, n - 1, minCombo, hechos);
      AnotarExtiende(m, t, f, n - 1, minCombo, r);
      ExtiendeTransitivo(m, t, minCombo, hechos, r, Anotar(m, t, f, n - 1, minCombo, r));
    }
  }

  lemma {:induction false} DiagonalesExtiende(m: Matriz, t: Tipo, minCombo: int, desde: int, hasta: int, hechos: seq<Combo>)
    requires Rectangular(m) && !Recta(t) && minCombo >= 1 && 0 <= desde && (hasta > desde ==> hasta <= |m|)
    ensures Extiende(m, t, minCombo, hechos, Diagonales(m, t, minCombo, desde, hasta, hechos))
    decreases hasta - desde
  {
    if hasta > desde {
      var r := Diagonales(m, t, minCombo, desde, hasta - 1, hechos);
      var n := NoNegativo(|m[0]| - minCombo + 1);
      DiagonalesExtiende(m, t, minCombo, desde, hasta - 1, hechos);
      DiagonalesFilaExtiende(m, t, hasta - 1, n, minCombo, r);
      ExtiendeTransitivo(m, t, minCombo, hechos, r, DiagonalesFila(m, t, hasta - 1, n, minCombo, r));
    }
  }

  /**
   * Every combination found has `longitud == len(posiciones) >= minCombo`,
   * consecutive cells of its line, all holding its symbol; a horizontal or
   * vertical one is a maximal run.
   */
  lemma CombinacionesValidas(m: Matriz, minCombo: int)
    requires Rectangular(m) && minCombo >= 1
    ensures forall k :: k in Combinaciones(m, minCombo) ==>
              ComboValido(m, k, minCombo) && (Recta(k.tipo) ==> Maximal(m, k))
  {
    var h := Rectas(m, Horizontal, minCombo, |m|, []);
    var v := Rectas(m, Vertical, minCombo, |m[0]|, h);
    var d := Diagonales(m, DiagonalDesc, minCombo, 0, NoNegativo(|m| - minCombo + 1), v);
    RectasExtiende(m, Horizontal, minCombo, |m|, []);
    RectasExtiende(m, Vertical, minCombo, |m[0]|, h);
    DiagonalesExtiende(m, DiagonalDesc, minCombo, 0, NoNegativo(|m| - minCombo + 1), v);
    DiagonalesExtiende(m, DiagonalAsc, minCombo, minCombo - 1, |m|, d);
  }

  // ------------------------------------------------------- what a scan misses

  /** A run from `p` ends at or before a later start of a run `q`. */
  lemma TramoAntesDe(m: Matriz, t: Tipo, a: int, p: int, q: int)
    requires Rectangular(m) && Recta(t) && 0 <= a < Lineas(m, t) && 0 <= p < q < Longitud(m, t)
    requires En(m, Inicio(t, a, p)) != Vacia
    requires InicioDeTramo(m, t, Inicio(t, a, q).0, Inicio(t, a, q).1)
    ensures p + Largo(m, t, Inicio(t, a, p).0, Inicio(t, a, p).1, 1) <= q
  {
    // Otherwise q - 1 and q would both lie inside the run from p.
    InicioDesplazar(t, a, p, q - p);
    InicioDesplazar(t, a, p, q - p - 1);
    InicioDesplazar(t, a, q, -1);
  }

  /** The run from position `q` of line `a` starts a run and is at least `minCombo` long. */
  predicate Reportable(m: Matriz, t: Tipo, a: int, q: int, minCombo: int)
    requires Rectangular(m) && Recta(t) && 0 <= a < Lineas(m, t) && 0 <= q < Longitud(m, t)
  {
    var iq := Inicio(t, a, q);
    En(m, iq) != Vacia && InicioDeTramo(m, t, iq.0, iq.1) && Largo(m, t, iq.0, iq.1, 1) >= minCombo
  }

  /** The combination for the run from position `q` of line `a`. */
  function TramoEn(m: Matriz, t: Tipo, a: int, q: int): Combo
    requires Rectangular(m) && Recta(t) && 0 <= a < Lineas(m, t) && 0 <= q < Longitud(m, t)
    requires En(m, Inicio(t, a, q)) != Vacia
  {
    var iq := Inicio(t, a, q);
    ComboEn(m, t, iq.0, iq.1, Largo(m, t, iq.0, iq.1, 1))
  }

  /** The scan of a line from `p` reaches every run that starts at or after `p`. */
  lemma {:induction false} LineaCompleta(m: Matriz, t: Tipo, a: int, p: int, minCombo: int, hechos: seq<Combo>, q: int)
    requires Rectangular(m) && Recta(t) && 0 <= a < Lineas(m, t) && 0 <= p <= q < Longitud(m, t)
    requires Arranque(m, t, a, p) && Reportable(m, t, a, q, minCombo)
    ensures TramoEn(m, t, a, q) in Linea(m, t, a, p, minCombo, hechos)
    decreases q - p, 1
  {
    var ij := Inicio(t, a, p);
    if m[ij.0][ij.1] == Vacia {
      LineaCompletaVacia(m, t, a, p, minCombo, hechos, q);
    } else if p < q {
      LineaCompletaSalto(m, t, a, p, minCombo, hechos, q);
    } else {
      LineaCompletaAqui(m, t, a, p, minCombo, hechos);
    }
  }

  /** `LineaCompleta` when the scan stands on an empty cell: it steps over it. */
  lemma {:induction false} LineaCompletaVacia(m: Matriz, t: Tipo, a: int, p: int, minCombo: int, hechos: seq<Combo>, q: int)
    requires Rectangular(m) && Recta(t) && 0 <= a < Lineas(m, t) && 0 <= p <= q < Longitud(m, t)
    requires Reportable(m, t, a, q, minCombo) && En(m, Inicio(t, a, p)) == Vacia
    ensures TramoEn(m, t, a, q) in Linea(m, t, a, p, minCombo, hechos)
    decreases q - p, 0
  {
    ArranqueTrasVacia(m, t, a, p);
    LineaVacia(m, t, a, p, minCombo, hechos);
    LineaCompleta(m, t, a, p + 1, minCombo, hechos, q);
  }

  /** `LineaCompleta` when the scan stands on a run before `q`: the run ends before `q`. */
  lemma {:induction false} LineaCompletaSalto(m: Matriz, t: Tipo, a: int, p: int, minCombo: int, hechos: seq<Combo>, q: int)
    requires Rectangular(m) && Recta(t) && 0 <= a < Lineas(m, t) && 0 <= p < q < Longitud(m, t)
    requires Reportable(m, t, a, q, minCombo) && En(m, Inicio(t, a, p)) != Vacia
    ensures TramoEn(m, t, a, q) in Linea(m, t, a, p, minCombo, hechos)
    decreases q - p, 0
  {
    var ij := Inicio(t, a, p);
    var l := Largo(m, t, ij.0, ij.1, 1);
    ArranqueTrasTramo(m, t, a, p);
    LineaTramo(m, t, a, p, minCombo, hechos);
    TramoAntesDe(m, t, a, p, q);
    LineaCompleta(m, t, a, p + l, minCombo, Anotar(m, t, ij.0, ij.1, minCombo, hechos), q);
  }

  /** `LineaCompleta` when the scan stands on the run itself: it notes it and keeps it. */
  lemma LineaCompletaAqui(m: Matriz, t: Tipo, a: int, p: int, minCombo: int, hechos: seq<Combo>)
    requires Rectangular(m) && Recta(t) && 0 <= a < Lineas(m, t) && 0 <= p < Longitud(m, t)
    requires Reportable(m, t, a, p, minCombo)
    ensures TramoEn(m, t, a, p) in Linea(m, t, a, p, minCombo, hechos)
  {
    var ij := Inicio(t, a, p);
    var l := Largo(m, t, ij.0, ij.1, 1);
    var h := Anotar(m, t, ij.0, ij.1, minCombo, hechos);
    ArranqueTrasTramo(m, t, a, p);
    LineaTramo(m, t, a, p, minCombo, hechos);
    AnotarIncluye(m, t, ij.0, ij.1, minCombo, hechos);
    LineaExtiende(m, t, a, p + l, minCombo, h);
    assert TramoEn(m, t, a, p) in h;
  }

  /** The start of a run long enough notes that run. */
  lemma AnotarIncluye(m: Matriz, t: Tipo, f: int, c: int, minCombo: int, hechos: seq<Combo>)
    requires Rectangular(m) && EnRango(m, (f, c)) && m[f][c] != Vacia && Largo(m, t, f, c, 1) >= minCombo
    ensures ComboEn(m, t, f, c, Largo(m, t, f, c, 1)) in Anotar(m, t, f, c, minCombo, hechos)
  {
  }

  lemma {:induction false} RectasCompletas(m: Matriz, t: Tipo, minCombo: int, n: int, hechos: seq<Combo>, a: int, q: int)
    requires Rectangular(m) && Recta(t) && 0 <= a < n <= Lineas(m, t) && 0 <= q < Longitud(m, t)
    requires Reportable(m, t, a, q, minCombo)
    ensures TramoEn(m, t, a, q) in Rectas(m, t, minCombo, n, hechos)
  {
    var r := Rectas(m, t, minCombo, n - 1, hechos);
    ArranqueInicial(m, t, n - 1);
    if a < n - 1 {
      RectasCompletas(m, t, minCombo, n - 1, hechos, a, q);
      LineaExtiende(m, t, n - 1, 0, minCombo, r);
    } else {
      LineaCompleta(m, t, a, 0, minCombo, r, q);
    }
  }

  /** What the row and column scans report survives the diagonal scans. */
  lemma TrasRectas(m: Matriz, minCombo: int, k: Combo)
    requires Rectangular(m) && minCombo >= 1
    requires k in Rectas(m, Vertical, minCombo, |m[0]|, Rectas(m, Horizontal, minCombo, |m|, []))
    ensures k in Combinaciones(m, minCombo)
  {
    var v := Rectas(m, Vertical, minCombo, |m[0]|, Rectas(m, Horizontal, minCombo, |m|, []));
    var d := Diagonales(m, DiagonalDesc, minCombo, 0, NoNegativo(|m| - minCombo + 1), v);
    DiagonalesExtiende(m, DiagonalDesc, minCombo, 0, NoNegativo(|m| - minCombo + 1), v);
    DiagonalesExtiende(m, DiagonalAsc, minCombo, minCombo - 1, |m|, d);
  }

  /**
   * Every maximal horizontal run of at least `minCombo` equal symbols is
   * reported: with `CombinacionesValidas`, the horizontal combinations are
   * exactly those runs.
   */
  lemma HorizontalesCompletas(m: Matriz, minCombo: int, f: int, c: int)
    requires Rectangular(m) && minCombo >= 1 && EnRango(m, (f, c)) && m[f][c] != Vacia
    requires InicioDeTramo(m, Horizontal, f, c) && Largo(m, Horizontal, f, c, 1) >= minCombo
    ensures ComboEn(m, Horizontal, f, c, Largo(m, Horizontal, f, c, 1)) in Combinaciones(m, minCombo)
  {
    var h := Rectas(m, Horizontal, minCombo, |m|, []);
    assert Inicio(Horizontal, f, c) == (f, c);
    RectasCompletas(m, Horizontal, minCombo, |m|, [], f, c);
    RectasExtiende(m, Vertical, minCombo, |m[0]|, h);
    TrasRectas(m, minCombo, ComboEn(m, Horizontal, f, c, Largo(m, Horizontal, f, c, 1)));
  }

  /** Likewise every maximal vertical run of at least `minCombo` equal symbols. */
  lemma VerticalesCompletas(m: Matriz, minCombo: int, f: int, c: int)
    requires Rectangular(m) && minCombo >= 1 && EnRango(m, (f, c)) && m[f][c] != Vacia
    requires InicioDeTramo(m, Vertical, f, c) && Largo(m, Vertical, f, c, 1) >= minCombo
    ensures ComboEn(m, Vertical, f, c, Largo(m, Vertical, f, c, 1)) in Combinaciones(m, minCombo)
  {
    var h := Rectas(m, Horizontal, minCombo, |m|, []);
    assert Inicio(Vertical, c, f) == (f, c);
    RectasCompletas(m, Vertical, minCombo, |m[0]|, h, c, f);
    TrasRectas(m, minCombo, ComboEn(m, Vertical, f, c, Largo(m, Vertical, f, c, 1)));
  }

  lemma {:induction false} DiagonalesFilaCompletas(m: Matriz, t: Tipo, f: int, n: int, minCombo: int, hechos: seq<Combo>, c: int)
    requires Rectangular(m) && !Recta(t) && 0 <= f < |m| && 0 <= c < n <= |m[0]|
    requires m[f][c] != Vacia && Largo(m, t, f, c, 1) >= minCombo
    ensures ComboEn(m, t, f, c, Largo(m, t, f, c, 1)) in DiagonalesFila(m, t, f, n, minCombo, hechos)
  {
    var r := DiagonalesFila(m, t, f, n - 1, minCombo, hechos);
    if c < n - 1 {
      DiagonalesFilaCompletas(m, t, f, n - 1, minCombo, hechos, c);
      AnotarExtiende(m, t, f, n - 1, minCombo, r);
    }
  }

  lemma {:induction false} DiagonalesCompletas(m: Matriz, t: Tipo, minCombo: int, desde: int, hasta: int, hechos: seq<Combo>, f: int, c: int)
    requires Rectangular(m) && !Recta(t) && minCombo >= 1 && 0 <= desde <= f < hasta <= |m|
    requires 0 <= c < NoNegativo(|m[0]| - minCombo + 1)
    requires m[f][c] != Vacia && Largo(m, t, f, c, 1) >= minCombo
    ensures ComboEn(m, t, f, c, Largo(m, t, f, c, 1)) in Diagonales(m, t, minCombo, desde, hasta, hechos)
    decreases hasta - desde
  {
    var r := Diagonales(m, t, minCombo, desde, hasta - 1, hechos);
    var n := NoNegativo(|m[0]| - minCombo + 1);
    if f < hasta - 1 {
      DiagonalesCompletas(m, t, minCombo, desde, hasta - 1, hechos, f, c);
      DiagonalesFilaExtiende(m, t, hasta - 1, n, minCombo, r);
    } else {
      DiagonalesFilaCompletas(m, t, hasta - 1, n, minCombo, r, c);
    }
  }

  /**
   * The diagonal scans start at every cell of their ranges, not only where a
   * run begins: a descending run from `(f, c)` with `f <= filas - minCombo`
   * and `c <= columnas - minCombo` is reported, even inside a longer one.
   */
  lemma DescendentesCompletas(m: Matriz, minCombo: int, f: int, c: int)
    requires Rectangular(m) && minCombo >= 1
    requires 0 <= f < NoNegativo(|m| - minCombo + 1) && 0 <= c < NoNegativo(|m[0]| - minCombo + 1)
    requires m[f][c] != Vacia && Largo(m, DiagonalDesc, f, c, 1) >= minCombo
    ensures ComboEn(m, DiagonalDesc, f, c, Largo(m, DiagonalDesc, f, c, 1)) in Combinaciones(m, minCombo)
  {
    var h := Rectas(m, Horizontal, minCombo, |m|, []);
    var v := Rectas(m, Vertical, minCombo, |m[0]|, h);
    var d := Diagonales(m, DiagonalDesc, minCombo, 0, NoNegativo(|m| - minCombo + 1), v);
    DiagonalesCompletas(m, DiagonalDesc, minCombo, 0, NoNegativo(|m| - minCombo + 1), v, f, c);
    DiagonalesExtiende(m, DiagonalAsc, minCombo, minCombo - 1, |m|, d);
  }

  /** Likewise an ascending run from `(f, c)` with `f >= minCombo - 1` and `c <= columnas - minCombo`. */
  lemma AscendentesCompletas(m: Matriz, minCombo: int, f: int, c: int)
    requires Rectangular(m) && minCombo >= 1
    requires minCombo - 1 <= f < |m| && 0 <= c < NoNegativo(|m[0]| - minCombo + 1)
    requires m[f][c] != Vacia && Largo(m, DiagonalAsc, f, c, 1) >= minCombo
    ensures ComboEn(m, DiagonalAsc, f, c, Largo(m, DiagonalAsc, f, c, 1)) in Combinaciones(m, minCombo)
  {
    var h := Rectas(m, Horizontal, minCombo, |m|, []);
    var v := Rectas(m, Vertical, minCombo, |m[0]|, h);
    var d := Diagonales(m, DiagonalDesc, minCombo, 0, NoNegativo(|m| - minCombo + 1), v);
    DiagonalesCompletas(m, DiagonalAsc, minCombo, minCombo - 1, |m|, d, f, c);
  }

  // --------------------------------------------- encontrar_combinaciones

  /** The `while ... == simbolo: longitud += 1` loop, for any of the four kinds. */
  method MedirTramo(a: array2<Celda>, ghost m: Matriz, t: Tipo, f: int, c: int) returns (l: int)
    requires a.Length0 > 0 && m == Valor(a) && EnRango(m, (f, c))
    ensures l == Largo(m, t, f, c, 1)
  {
    l := 1;
    while true
      invariant l >= 1 && Largo(m, t, f, c, l) == Largo(m, t, f, c, 1)
      decreases |m| + |m[0]| - l
    {
      var p := Desplazar(t, f, c, l);
      if !(0 <= p.0 < a.Length0 && 0 <= p.1 < a.Length1 && a[p.0, p.1] == a[f, c]) {
        break;
      }
      l := l + 1;
    }
  }

  /**
   * The body shared by the four scans at a non-empty start `(f, c)`: the run
   * is measured and appended to `hechos` when it is at least `minCombo` long.
   */
  method AnotarEn(a: array2<Celda>, ghost m: Matriz, t: Tipo, f: int, c: int, minCombo: int, hechos: seq<Combo>)
    returns (combos: seq<Combo>, longitud: int)
    requires a.Length0 > 0 && m == Valor(a) && EnRango(m, (f, c)) && m[f][c] != Vacia
    ensures longitud == Largo(m, t, f, c, 1)
    ensures combos == Anotar(m, t, f, c, minCombo, hechos)
  {
    var simbolo := a[f, c];
    longitud := MedirTramo(a, m, t, f, c);
    combos := hechos;
    if longitud >= minCombo {
      combos := combos + [Combo(t, simbolo.simbolo, Posiciones(t, f, c, longitud), longitud)];
    }
  }

  /** One row (or column) of the horizontal (or vertical) scan, appending to `hechos`. */
  method RecorrerLinea(a: array2<Celda>, ghost m: Matriz, t: Tipo, linea: int, minCombo: int, hechos: seq<Combo>)
    returns (combos: seq<Combo>)
    requires a.Length0 > 0 && m == Valor(a) && Recta(t) && 0 <= linea < Lineas(m, t)
    ensures combos == Linea(m, t, linea, 0, minCombo, hechos)
  {
    var n := if t == Horizontal then a.Length1 else a.Length0;
    combos := hechos;
    var p := 0;
    while p < n
      invariant 0 <= p <= n == Longitud(m, t)
      invariant Linea(m, t, linea, p, minCombo, combos) == Linea(m, t, linea, 0, minCombo, hechos)
      decreases n - p
    {
      combos, p := PasoLinea(a, m, t, linea, p, minCombo, combos);
    }
  }

  /** The body of the line scan at position `p`: skip an empty cell, or note its run and move past it. */
  method PasoLinea(a: array2<Celda>, ghost m: Matriz, t: Tipo, linea: int, p: int, minCombo: int, hechos: seq<Combo>)
    returns (combos: seq<Combo>, siguiente: int)
    requires a.Length0 > 0 && m == Valor(a) && Recta(t) && 0 <= linea < Lineas(m, t) && 0 <= p < Longitud(m, t)
    ensures p < siguiente <= Longitud(m, t)
    ensures Linea(m, t, linea, siguiente, minCombo, combos) == Linea(m, t, linea, p, minCombo, hechos)
  {
    var ij := Inicio(t, linea, p);
    var simbolo := a[ij.0, ij.1];
    if simbolo == Vacia {
      LineaVacia(m, t, linea, p, minCombo, hechos);
      combos, siguiente := hechos, p + 1;
    } else {
      var longitud;
      combos, longitud := AnotarEn(a, m, t, ij.0, ij.1, minCombo, hechos);
      LineaTramoDe(m, t, linea, p, longitud, minCombo, hechos);
      siguiente := p + longitud;
    }
  }

  /** The inner diagonal loop for one row, appending to `hechos`. */
  method RecorrerFila(a: array2<Celda>, ghost m: Matriz, t: Tipo, fila: int, n: int, minCombo: int, hechos: seq<Combo>)
    returns (combos: seq<Combo>)
    requires a.Length0 > 0 && m == Valor(a) && 0 <= fila < |m| && 0 <= n <= |m[0]|
    ensures combos == DiagonalesFila(m, t, fila, n, minCombo, hechos)
  {
    combos := hechos;
    for col := 0 to n
      invariant combos == DiagonalesFila(m, t, fila, col, minCombo, hechos)
    {
      if a[fila, col] != Vacia {
        var longitud;
        combos, longitud := AnotarEn(a, m, t, fila, col, minCombo, combos);
      }
    }
  }

  /** The diagonal loops: starts `(desde .. hasta - 1) x (0 .. columnas - minCombo)`, appending to `hechos`. */
  method RecorrerDiagonales(a: array2<Celda>, ghost m: Matriz, t: Tipo, minCombo: int, desde: int, hasta: int, hechos: seq<Combo>)
    returns (combos: seq<Combo>)
    requires a.Length0 > 0 && m == Valor(a) && minCombo >= 1 && 0 <= desde && hasta <= a.Length0
    ensures combos == Diagonales(m, t, minCombo, desde, hasta, hechos)
  {
    var n := NoNegativo(a.Length1 - minCombo + 1);
    combos := hechos;
    var fila := desde;
    while fila < hasta
      invariant desde <= fila && (fila <= hasta || fila == desde)
      invariant combos == Diagonales(m, t, minCombo, desde, fila, hechos)
      decreases hasta - fila
    {
      combos := RecorrerFila(a, m, t, fila, n, minCombo, combos);
      fila := fila + 1;
    }
  }

  /**
   * `encontrar_combinaciones`: the scans, in the source's order, into one
   * list. The grid must have a first row (`len(matriz[0])`) and `minCombo`
   * must be at least 1, otherwise the diagonal ranges index outside the grid.
   */
  method EncontrarCombinaciones(a: array2<Celda>, minCombo: int) returns (combos: seq<Combo>)
    requires a.Length0 > 0 && minCombo >= 1
    ensures combos == Combinaciones(Valor(a), minCombo)
  {
    ghost var m := Valor(a);
    var filas, columnas := a.Length0, a.Length1;
    combos := [];
    for fila := 0 to filas
      invariant combos == Rectas(m, Horizontal, minCombo, fila, [])
    {
      combos := RecorrerLinea(a, m, Horizontal, fila, minCombo, combos);
    }
    ghost var horizontales := combos;
    for col := 0 to columnas
      invariant combos == Rectas(m, Vertical, minCombo, col, horizontales)
    {
      combos := RecorrerLinea(a, m, Vertical, col, minCombo, combos);
    }
    combos := RecorrerDiagonales(a, m, DiagonalDesc, minCombo, 0, NoNegativo(filas - minCombo + 1), combos);
    combos := RecorrerDiagonales(a, m, DiagonalAsc, minCombo, minCombo - 1, filas, combos);
  }

  // ------------------------------------------------- eliminar_combinaciones

  /** The cells a list of positions names. */
  function Celdas(ps: seq<(int, int)>): (s: set<(int, int)>)
    ensures forall i :: 0 <= i < |ps| ==> ps[i] in s
    ensures forall p :: p in s ==> p in ps
  {
    set p | p in ps
  }

  /** The cells of the combinations `cs`, a cell in several of them counted once. */
  function Elegidas(cs: seq<Combo>): set<(int, int)>
  {
    if cs == [] then {} else Elegidas(cs[..|cs| - 1]) + Celdas(cs[|cs| - 1].posiciones)
  }

  /** Every cell named by some combination of `cs` is among `Elegidas(cs)`, and only those. */
  lemma {:induction false} ElegidasSon(cs: seq<Combo>, p: (int, int))
    ensures p in Elegidas(cs) <==> exists k :: k in cs && p in k.posiciones
  {
    if cs != [] {
      var iniciales := cs[..|cs| - 1];
      ElegidasSon(iniciales, p);
      assert cs == iniciales + [cs[|cs| - 1]];
      if p in Elegidas(cs) && p !in Elegidas(iniciales) {
        assert cs[|cs| - 1] in cs && p in cs[|cs| - 1].posiciones;
      }
      if exists k :: k in cs && p in k.posiciones {
        var k :| k in cs && p in k.posiciones;
        if k != cs[|cs| - 1] {
          assert k in iniciales;
        }
      }
    }
  }

  /** The grid with the cells of `s` emptied. */
  function Vaciar(m: Matriz, s: set<(int, int)>): (r: Matriz)
    ensures |r| == |m| && forall i :: 0 <= i < |m| ==> |r[i]| == |m[i]|
  {
    seq(|m|, i requires 0 <= i < |m| => seq(|m[i]|, j requires 0 <= j < |m[i]| => if (i, j) in s then Vacia else m[i][j]))
  }

  /** The cells of `s` on the grid that held a symbol: `posiciones_eliminadas`. */
  function Eliminadas(m: Matriz, s: set<(int, int)>): (e: set<(int, int)>)
    ensures e <= s
  {
    set p | p in s && 0 <= p.0 < |m| && 0 <= p.1 < |m[p.0]| && m[p.0][p.1] != Vacia
  }

  /**
   * The reported positions are exactly the cells the removal changed; every
   * other cell keeps its contents, and every cell of `s` ends empty.
   */
  lemma EliminadasCambian(m: Matriz, s: set<(int, int)>, i: int, j: int)
    requires 0 <= i < |m| && 0 <= j < |m[i]|
    ensures (i, j) in Eliminadas(m, s) <==> Vaciar(m, s)[i][j] != m[i][j]
    ensures (i, j) in s ==> Vaciar(m, s)[i][j] == Vacia
    ensures (i, j) !in s ==> Vaciar(m, s)[i][j] == m[i][j]
  {
  }

  /** Removing the same cells twice removes nothing more. */
  lemma VaciarIdempotente(m: Matriz, s: set<(int, int)>)
    ensures Vaciar(Vaciar(m, s), s) == Vaciar(m, s)
    ensures Eliminadas(Vaciar(m, s), s) == {}
  {
    var v := Vaciar(m, s);
    IgualesPorCeldas(Vaciar(v, s), v);
  }

  /**
   * `eliminar_combinaciones`: empties the cells of every combination, in
   * place, and returns the cells that held a symbol. The positions must lie
   * on the grid, as those of `EncontrarCombinaciones` do.
   */
  method EliminarCombinaciones(a: array2<Celda>, cs: seq<Combo>) returns (eliminadas: set<(int, int)>)
    requires forall k, i :: k in cs && 0 <= i < |k.posiciones| ==>
               0 <= k.posiciones[i].0 < a.Length0 && 0 <= k.posiciones[i].1 < a.Length1
    modifies a
    ensures Valor(a) == Vaciar(old(Valor(a)), Elegidas(cs))
    ensures eliminadas == Eliminadas(old(Valor(a)), Elegidas(cs))
  {
    ghost var m0 := Valor(a);
    eliminadas := {};
    for n := 0 to |cs|
      invariant forall x, y :: 0 <= x < a.Length0 && 0 <= y < a.Length1 ==>
                  a[x, y] == if (x, y) in Elegidas(cs[..n]) then Vacia else m0[x][y]
      invariant eliminadas == Eliminadas(m0, Elegidas(cs[..n]))
    {
      assert cs[n] in cs;
      eliminadas := VaciarPosiciones(a, m0, Elegidas(cs[..n]), cs[n].posiciones, eliminadas);
      assert cs[..n + 1][..n] == cs[..n];
    }
    assert cs[..|cs|] == cs;
    IgualesPorCeldas(Valor(a), Vaciar(m0, Elegidas(cs)));
  }

  /** The inner loop of `eliminar_combinaciones`: the cells of one combination, after the cells `hechas`. */
  method VaciarPosiciones(a: array2<Celda>, ghost m0: Matriz, ghost hechas: set<(int, int)>,
                          posiciones: seq<(int, int)>, previas: set<(int, int)>)
    returns (eliminadas: set<(int, int)>)
    requires |m0| == a.Length0 && forall x :: 0 <= x < |m0| ==> |m0[x]| == a.Length1
    requires forall i :: 0 <= i < |posiciones| ==> 0 <= posiciones[i].0 < a.Length0 && 0 <= posiciones[i].1 < a.Length1
    requires forall x, y :: 0 <= x < a.Length0 && 0 <= y < a.Length1 ==>
               a[x, y] == if (x, y) in hechas then Vacia else m0[x][y]
    requires previas == Eliminadas(m0, hechas)
    modifies a
    ensures forall x, y :: 0 <= x < a.Length0 && 0 <= y < a.Length1 ==>
              a[x, y] == if (x, y) in hechas + Celdas(posiciones) then Vacia else m0[x][y]
    ensures eliminadas == Eliminadas(m0, hechas + Celdas(posiciones))
  {
    eliminadas := previas;
    for i := 0 to |posiciones|
      invariant forall x, y :: 0 <= x < a.Length0 && 0 <= y < a.Length1 ==>
                  a[x, y] == if (x, y) in hechas + Celdas(posiciones[..i]) then Vacia else m0[x][y]
      invariant eliminadas == Eliminadas(m0, hechas + Celdas(posiciones[..i]))
    {
      var fila, col := posiciones[i].0, posiciones[i].1;
      assert Celdas(posiciones[..i + 1]) == Celdas(posiciones[..i]) + {(fila, col)} by {
        assert posiciones[..i + 1] == posiciones[..i] + [posiciones[i]];
      }
      if a[fila, col] != Vacia {
        a[fila, col] := Vacia;
        eliminadas := eliminadas + {(fila, col)};
      }
    }
    assert posiciones[..|posiciones|] == posiciones;
  }

  // ------------------------------------------------------- aplicar_gravedad

  /** The draws that refill a column, in the order `random.choices` makes them. */
  type Relleno = seq<Simbolo>

  /** The non-empty cells of a column, top to bottom. */
  function NoVacias(col: seq<Celda>): (r: seq<Celda>)
    ensures |r| <= |col| && forall i :: 0 <= i < |r| ==> r[i] != Vacia
  {
    if col == [] then [] else (if col[0] == Vacia then [] else [col[0]]) + NoVacias(col[1..])
  }

  /** The `k` new cells on top of a column: the first draw lands lowest, at row `k - 1`. */
  function Nuevas(r: Relleno, k: nat): (n: seq<Celda>)
    requires k <= |r|
    ensures |n| == k && forall i :: 0 <= i < k ==> n[i] == Ficha(r[k - 1 - i])
  {
    seq(k, i requires 0 <= i < k => Ficha(r[k - 1 - i]))
  }

  /** A column after `aplicar_gravedad`: the new symbols on top of the old ones, which keep their order. */
  function Caida(col: seq<Celda>, r: Relleno): (c: seq<Celda>)
    requires |r| >= |col|
  {
    Nuevas(r, |col| - |NoVacias(col)|) + NoVacias(col)
  }

  /** A column keeps its height, and no cell of it is left empty. */
  lemma CaidaLlena(col: seq<Celda>, r: Relleno)
    requires |r| >= |col|
    ensures |Caida(col, r)| == |col|
    ensures forall i :: 0 <= i < |col| ==> Caida(col, r)[i] != Vacia
  {
  }

  /** Each symbol that stays is counted as often before as after: only empty cells leave `NoVacias`. */
  lemma {:induction false} NoVaciasCuenta(col: seq<Celda>, x: Celda)
    requires x != Vacia
    ensures multiset(NoVacias(col))[x] == multiset(col)[x]
  {
    if col != [] {
      NoVaciasCuenta(col[1..], x);
      assert col == [col[0]] + col[1..];
    }
  }

  /** A column without gaps has no empty cell left to fill. */
  lemma {:induction false} NoVaciasLlena(col: seq<Celda>)
    requires forall i :: 0 <= i < |col| ==> col[i] != Vacia
    ensures NoVacias(col) == col
  {
    if col != [] {
      NoVaciasLlena(col[1..]);
      assert col == [col[0]] + col[1..];
    }
  }

  /** The symbols of a column survive the fall: each is there as often as before, plus the new ones. */
  lemma CaidaCuenta(col: seq<Celda>, r: Relleno, x: Celda)
    requires |r| >= |col| && x != Vacia
    ensures multiset(Caida(col, r))[x] == multiset(col)[x] + multiset(Nuevas(r, |col| - |NoVacias(col)|))[x]
  {
    NoVaciasCuenta(col, x);
  }

  /** A column with no gap does not change. */
  lemma CaidaSinHuecos(col: seq<Celda>, r: Relleno)
    requires |r| >= |col| && forall i :: 0 <= i < |col| ==> col[i] != Vacia
    ensures Caida(col, r) == col
  {
    NoVaciasLlena(col);
    assert Nuevas(r, 0) == [];
  }

  /** The first step of `NoVacias` taken from row `f`. */
  lemma NoVaciasDesde(col: seq<Celda>, f: int)
    requires 0 <= f < |col|
    ensures NoVacias(col[f..]) == (if col[f] == Vacia then [] else [col[f]]) + NoVacias(col[f + 1..])
  {
    assert col[f..][1..] == col[f + 1..];
  }

  /** Column `j` of a rectangular grid. */
  function Columna(m: Matriz, j: int): (col: seq<Celda>)
    requires Rectangular(m) && 0 <= j < |m[0]|
    ensures |col| == |m| && forall i :: 0 <= i < |m| ==> col[i] == m[i][j]
  {
    seq(|m|, i requires 0 <= i < |m| => m[i][j])
  }

  /** A refill for every column of an `n`-row grid with `columnas` columns, with enough draws for each. */
  predicate Rellena(n: int, columnas: int, rs: seq<Relleno>)
  {
    |rs| == columnas && forall j :: 0 <= j < |rs| ==> |rs[j]| >= n
  }

  /** `aplicar_gravedad` on a grid value: every column falls and is refilled from its own draws. */
  function Gravedad(m: Matriz, rs: seq<Relleno>): (g: Matriz)
    requires Rectangular(m) && Rellena(|m|, |m[0]|, rs)
    ensures |g| == |m| && forall i :: 0 <= i < |g| ==> |g[i]| == |m[0]|
  {
    seq(|m|, i requires 0 <= i < |m| => seq(|m[0]|, j requires 0 <= j < |m[0]| => Caida(Columna(m, j), rs[j])[i]))
  }

  /** Each column of the new grid is the fall of the old one, and the grid is left without gaps. */
  lemma GravedadColumnas(m: Matriz, rs: seq<Relleno>, j: int)
    requires Rectangular(m) && Rellena(|m|, |m[0]|, rs) && 0 <= j < |m[0]|
    ensures Rectangular(Gravedad(m, rs)) && Columna(Gravedad(m, rs), j) == Caida(Columna(m, j), rs[j])
    ensures forall i :: 0 <= i < |m| ==> Gravedad(m, rs)[i][j] != Vacia
  {
    CaidaLlena(Columna(m, j), rs[j]);
  }

  /** A grid without gaps does not move. */
  lemma GravedadSinHuecos(m: Matriz, rs: seq<Relleno>)
    requires Rectangular(m) && Rellena(|m|, |m[0]|, rs)
    requires forall i, j :: 0 <= i < |m| && 0 <= j < |m[i]| ==> m[i][j] != Vacia
    ensures Gravedad(m, rs) == m
  {
    forall j | 0 <= j < |m[0]|
      ensures Caida(Columna(m, j), rs[j]) == Columna(m, j)
    {
      CaidaSinHuecos(Columna(m, j), rs[j]);
    }
    IgualesPorCeldas(Gravedad(m, rs), m);
  }

  /** Column `c` of the array. */
  function ColumnaDe(a: array2<Celda>, c: int): (col: seq<Celda>)
    requires 0 <= c < a.Length1
    reads a
    ensures |col| == a.Length0 && forall i :: 0 <= i < a.Length0 ==> col[i] == a[i, c]
  {
    seq(a.Length0, i requires 0 <= i < a.Length0 reads a => a[i, c])
  }

  /** The loop of `aplicar_gravedad` for column `c`: the symbols move down, then the top is refilled. */
  method CaerColumna(a: array2<Celda>, c: int, r: Relleno)
    requires 0 <= c < a.Length1 && |r| >= a.Length0
    modifies a
    ensures ColumnaDe(a, c) == Caida(old(ColumnaDe(a, c)), r)
    ensures forall i, j :: 0 <= i < a.Length0 && 0 <= j < a.Length1 && j != c ==> a[i, j] == old(a[i, j])
  {
    ghost var col := ColumnaDe(a, c);
    var posVacia := Compactar(a, c, col);
    Rellenar(a, c, col, posVacia, r);
  }

  /**
   * The first loop of `aplicar_gravedad` for column `c`: from the bottom up,
   * each symbol moves to the lowest free row. Returns the last row left
   * empty, `pos_vacia`.
   */
  method Compactar(a: array2<Celda>, c: int, ghost col: seq<Celda>) returns (posVacia: int)
    requires 0 <= c < a.Length1 && col == ColumnaDe(a, c)
    modifies a
    ensures posVacia == a.Length0 - 1 - |NoVacias(col)|
    ensures forall i :: posVacia < i < a.Length0 ==> a[i, c] == NoVacias(col)[i - posVacia - 1]
    ensures forall i, j :: 0 <= i < a.Length0 && 0 <= j < a.Length1 && j != c ==> a[i, j] == old(a[i, j])
  {
    var filas := a.Length0;
    posVacia := filas - 1;
    var fila := filas - 1;
    while fila >= 0
      invariant -1 <= fila <= posVacia <= filas - 1
      invariant |NoVacias(col[fila + 1..])| == filas - 1 - posVacia
      invariant forall i :: 0 <= i < filas ==> a[i, c] == Esperada(col, fila, posVacia, i)
      invariant forall i, j :: 0 <= i < a.Length0 && 0 <= j < a.Length1 && j != c ==> a[i, j] == old(a[i, j])
      decreases fila
    {
      posVacia := Bajar(a, c, col, fila, posVacia);
      fila := fila - 1;
    }
    assert col[0..] == col;
  }

  /** The body of the first loop at row `fila`: a symbol moves down to `posVacia`, which moves up. */
  method Bajar(a: array2<Celda>, c: int, ghost col: seq<Celda>, fila: int, posVacia: int) returns (siguiente: int)
    requires 0 <= c < a.Length1 && |col| == a.Length0
    requires 0 <= fila <= posVacia < a.Length0 && |NoVacias(col[fila + 1..])| == a.Length0 - 1 - posVacia
    requires forall i :: 0 <= i < a.Length0 ==> a[i, c] == Esperada(col, fila, posVacia, i)
    modifies a
    ensures fila - 1 <= siguiente <= posVacia && |NoVacias(col[fila..])| == a.Length0 - 1 - siguiente
    ensures forall i :: 0 <= i < a.Length0 ==> a[i, c] == Esperada(col, fila - 1, siguiente, i)
    ensures forall i, j :: 0 <= i < a.Length0 && 0 <= j < a.Length1 && j != c ==> a[i, j] == old(a[i, j])
  {
    siguiente := posVacia;
    if a[fila, c] != Vacia {
      if posVacia != fila {
        EsperadaBaja(col, fila, posVacia);
        a[posVacia, c] := a[fila, c];
        a[fila, c] := Vacia;
      } else {
        EsperadaQueda(col, fila);
      }
      siguiente := posVacia - 1;
    } else {
      EsperadaVacia(col, fila, posVacia);
    }
  }

  /**
   * Column `c` while `Compactar` stands at row `fila` with the lowest free
   * row `posVacia`: untouched above `fila`, empty down to `posVacia`, and
   * the symbols already seen below.
   */
  function Esperada(col: seq<Celda>, fila: int, posVacia: int, i: int): Celda
    requires -1 <= fila <= posVacia < |col| && |NoVacias(col[fila + 1..])| == |col| - 1 - posVacia
    requires 0 <= i < |col|
  {
    if i <= fila then col[i] else if i <= posVacia then Vacia else NoVacias(col[fila + 1..])[i - posVacia - 1]
  }

  /** An empty cell at `fila` is passed over: the column already looks as it should one row up. */
  lemma EsperadaVacia(col: seq<Celda>, fila: int, posVacia: int)
    requires 0 <= fila <= posVacia < |col| && |NoVacias(col[fila + 1..])| == |col| - 1 - posVacia
    requires col[fila] == Vacia
    ensures |NoVacias(col[fila..])| == |col| - 1 - posVacia
    ensures forall i :: 0 <= i < |col| ==> Esperada(col, fila - 1, posVacia, i) == Esperada(col, fila, posVacia, i)
  {
    NoVaciasDesde(col, fila);
  }

  /** A symbol already on the lowest free row stays where it is. */
  lemma EsperadaQueda(col: seq<Celda>, fila: int)
    requires 0 <= fila < |col| && |NoVacias(col[fila + 1..])| == |col| - 1 - fila
    requires col[fila] != Vacia
    ensures |NoVacias(col[fila..])| == |col| - fila
    ensures forall i :: 0 <= i < |col| ==> Esperada(col, fila - 1, fila - 1, i) == Esperada(col, fila, fila, i)
  {
    NoVaciasDesde(col, fila);
  }

  /** A symbol above the lowest free row moves down to it and leaves its own row empty. */
  lemma EsperadaBaja(col: seq<Celda>, fila: int, posVacia: int)
    requires 0 <= fila < posVacia < |col| && |NoVacias(col[fila + 1..])| == |col| - 1 - posVacia
    requires col[fila] != Vacia
    ensures |NoVacias(col[fila..])| == |col| - posVacia
    ensures forall i :: 0 <= i < |col| ==>
              Esperada(col, fila - 1, posVacia - 1, i)
                == if i == posVacia then col[fila] else if i == fila then Vacia else Esperada(col, fila, posVacia, i)
  {
    NoVaciasDesde(col, fila);
    var antes, ahora := NoVacias(col[fila + 1..]), NoVacias(col[fila..]);
    assert ahora == [col[fila]] + antes;
    forall i | 0 <= i < |col|
      ensures Esperada(col, fila - 1, posVacia - 1, i)
                == if i == posVacia then col[fila] else if i == fila then Vacia else Esperada(col, fila, posVacia, i)
    {
      if i >= posVacia {
        assert Esperada(col, fila - 1, posVacia - 1, i) == ahora[i - posVacia];
      }
    }
  }

  /** The second loop: rows `posVacia` up to 0 receive the draws, the first draw lowest. */
  method Rellenar(a: array2<Celda>, c: int, ghost col: seq<Celda>, posVacia: int, r: Relleno)
    requires 0 <= c < a.Length1 && |col| == a.Length0 && |r| >= a.Length0
    requires posVacia == a.Length0 - 1 - |NoVacias(col)|
    requires forall i :: posVacia < i < a.Length0 ==> a[i, c] == NoVacias(col)[i - posVacia - 1]
    modifies a
    ensures ColumnaDe(a, c) == Caida(col, r)
    ensures forall i, j :: 0 <= i < a.Length0 && 0 <= j < a.Length1 && j != c ==> a[i, j] == old(a[i, j])
  {
    var fila := posVacia;
    while fila >= 0
      invariant -1 <= fila <= posVacia
      invariant forall i :: fila < i <= posVacia ==> a[i, c] == Ficha(r[posVacia - i])
      invariant forall i :: posVacia < i < a.Length0 ==> a[i, c] == NoVacias(col)[i - posVacia - 1]
      invariant forall i, j :: 0 <= i < a.Length0 && 0 <= j < a.Length1 && j != c ==> a[i, j] == old(a[i, j])
      decreases fila
    {
      a[fila, c] := Ficha(r[posVacia - fila]);
      fila := fila - 1;
    }
  }

  /** `aplicar_gravedad`: every column in turn, each refilled from its own draws. */
  method AplicarGravedad(a: array2<Celda>, rs: seq<Relleno>)
    requires a.Length0 > 0 && Rellena(a.Length0, a.Length1, rs)
    modifies a
    ensures Valor(a) == Gravedad(old(Valor(a)), rs)
  {
    ghost var m0 := Valor(a);
    for c := 0 to a.Length1
      invariant forall i, j :: 0 <= i < a.Length0 && 0 <= j < a.Length1 ==>
                  a[i, j] == if j < c then Caida(Columna(m0, j), rs[j])[i] else m0[i][j]
    {
      assert ColumnaDe(a, c) == Columna(m0, c);
      CaerColumna(a, c, rs[c]);
    }
    IgualesPorCeldas(Valor(a), Gravedad(m0, rs));
  }

  // ------------------------------------------------------- calcular_puntaje

  // Scores are floats in the source and reals here. A product of two
  // variables is written as repeated addition (`Veces`) or, for the bonus,
  // by cases on its constant values, so that every proof stays linear;
  // `VecesProducto` and `ConBonusProducto` show that these are the products.

  /** `n * x` for an integer `n`: `n` copies of `x` added up. */
  function Veces(n: int, x: real): real
    decreases if n < 0 then 1 - n else n
  {
    if n == 0 then 0.0 else if n < 0 then -Veces(-n, x) else Veces(n - 1, x) + x
  }

  lemma {:induction false} VecesProducto(n: int, x: real)
    ensures Veces(n, x) == n as real * x
    decreases if n < 0 then 1 - n else n
  {
    if n < 0 {
      VecesProducto(-n, x);
    } else if n > 0 {
      VecesProducto(n - 1, x);
    }
  }

  lemma {:induction false} VecesSuma(a: nat, b: nat, x: real)
    ensures Veces(a + b, x) == Veces(a, x) + Veces(b, x)
  {
    if b > 0 {
      VecesSuma(a, b - 1, x);
    }
  }

  /** With a positive factor, `n` copies are positive exactly when `n` is; with a non-negative one, never negative. */
  lemma {:induction false} VecesSigno(n: nat, x: real)
    requires x >= 0.0
    ensures Veces(n, x) >= 0.0
    ensures x > 0.0 ==> (Veces(n, x) > 0.0 <==> n > 0)
  {
    if n > 0 {
      VecesSigno(n - 1, x);
    }
  }

  lemma {:induction false} VecesMonotono(n: nat, x: real, y: real)
    requires x >= y
    ensures Veces(n, x) >= Veces(n, y)
  {
    if n > 0 {
      VecesMonotono(n - 1, x, y);
    }
  }

  /** More copies of a non-negative amount are never less. */
  lemma VecesCrece(a: nat, b: nat, x: real)
    requires a <= b && x >= 0.0
    ensures Veces(a, x) <= Veces(b, x)
  {
    VecesSuma(a, b - a, x);
    VecesSigno(b - a, x);
  }

  /** `x * BONUS_CASCADA.get(min(nivel, 6), 1.0)`, one case per level. */
  function ConBonus(x: real, nivel: int): real
  {
    var n := if nivel < 6 then nivel else 6;
    if n == 2 then x * 1.2
    else if n == 3 then x * 1.5
    else if n == 4 then x * 2.0
    else if n == 5 then x * 3.0
    else if n == 6 then x * 5.0
    else x
  }

  lemma ConBonusProducto(x: real, nivel: int)
    ensures ConBonus(x, nivel) == x * BonusCascada(nivel)
  {
  }

  /** The bonus never lowers a non-negative score and at most multiplies it by five. */
  lemma ConBonusCota(x: real, nivel: int)
    requires x >= 0.0
    ensures x <= ConBonus(x, nivel) <= 5.0 * x
    ensures x > 0.0 ==> ConBonus(x, nivel) > 0.0
  {
  }

  /** One entry of `detalles`. */
  datatype Detalle = Detalle(simbolo: Simbolo, tipo: Tipo, longitud: int, cantidad: int, grupo: int,
                             multiplicador: int, puntaje: real, posiciones: seq<(int, int)>)

  /** `base_puntaje * multiplicador_combo`: ten points per group level times the length bonus, one case per length. */
  function Puntos(k: Combo): (n: int)
    ensures 10 <= n <= 18000
  {
    var b := Grupo(k.simbolo) * 10;
    if k.longitud == 4 then 2 * b
    else if k.longitud == 5 then 5 * b
    else if k.longitud == 6 then 10 * b
    else if k.longitud == 7 then 25 * b
    else if k.longitud == 8 then 50 * b
    else if k.longitud == 9 then 100 * b
    else if k.longitud == 10 then 200 * b
    else b
  }

  lemma PuntosProducto(k: Combo)
    ensures Puntos(k) == Grupo(k.simbolo) * 10 * MultiplicadorCombo(k.longitud)
  {
  }

  /** `puntaje_combo`: the points of one combination times `multiplicador_base`. */
  function PuntajeCombo(k: Combo, base: real): real
  {
    Veces(Puntos(k), base)
  }

  function DetalleDe(k: Combo, base: real): Detalle
  {
    Detalle(k.simbolo, k.tipo, k.longitud, |k.posiciones|, Grupo(k.simbolo), MultiplicadorCombo(k.longitud),
            PuntajeCombo(k, base), k.posiciones)
  }

  /** `detalles`: one entry per combination, in order. */
  function Detalles(cs: seq<Combo>, base: real): (d: seq<Detalle>)
    ensures |d| == |cs| && forall i :: 0 <= i < |cs| ==> d[i] == DetalleDe(cs[i], base)
  {
    seq(|cs|, i requires 0 <= i < |cs| => DetalleDe(cs[i], base))
  }

  /** The score of the combinations before the cascade bonus. */
  function SumaPuntajes(cs: seq<Combo>, base: real): real
  {
    if cs == [] then 0.0 else SumaPuntajes(cs[..|cs| - 1], base) + PuntajeCombo(cs[|cs| - 1], base)
  }

  /** `puntaje_total`: the score times the bonus of the level. */
  function PuntajeTotal(cs: seq<Combo>, base: real, nivel: int): real
  {
    ConBonus(SumaPuntajes(cs, base), nivel)
  }

  /** `ganancia`: `puntaje_total * apuesta / 100`. */
  function GananciaDe(cs: seq<Combo>, apuesta: int, base: real, nivel: int): real
  {
    Veces(apuesta, PuntajeTotal(cs, base, nivel)) / 100.0
  }

  datatype Puntuacion = Puntuacion(puntajeTotal: real, ganancia: real, bonusCascada: real, nivelCascada: int,
                                   detalles: seq<Detalle>, multiplicadorTotal: real)

  /**
   * What `calcular_puntaje` returns. `multiplicador_total` is
   * `puntaje_total / 100 * bonus`: the bonus is applied a second time.
   */
  function PuntuacionDe(cs: seq<Combo>, apuesta: int, base: real, nivel: int): Puntuacion
  {
    var total := PuntajeTotal(cs, base, nivel);
    Puntuacion(total, GananciaDe(cs, apuesta, base, nivel), BonusCascada(nivel), nivel, Detalles(cs, base),
               ConBonus(total / 100.0, nivel))
  }

  /** `calcular_puntaje`. */
  method CalcularPuntaje(cs: seq<Combo>, apuesta: int, base: real, nivel: int) returns (p: Puntuacion)
    ensures p == PuntuacionDe(cs, apuesta, base, nivel)
  {
    var puntajeTotal := 0.0;
    var detalles := [];
    for n := 0 to |cs|
      invariant puntajeTotal == SumaPuntajes(cs[..n], base)
      invariant |detalles| == n && forall i :: 0 <= i < n ==> detalles[i] == DetalleDe(cs[i], base)
    {
      var combo := cs[n];
      var multiplicadorCombo := MultiplicadorCombo(combo.longitud);
      var grupo := Grupo(combo.simbolo);
      var basePuntaje := grupo * 10;
      PuntosProducto(combo);
      var puntajeCombo := Veces(basePuntaje * multiplicadorCombo, base);
      puntajeTotal := puntajeTotal + puntajeCombo;
      detalles := detalles + [Detalle(combo.simbolo, combo.tipo, combo.longitud, |combo.posiciones|, grupo,
                                      multiplicadorCombo, puntajeCombo, combo.posiciones)];
      assert cs[..n + 1][..n] == cs[..n];
    }
    assert cs[..|cs|] == cs;
    assert detalles == Detalles(cs, base);
    var bonus := BonusCascada(nivel);
    puntajeTotal := ConBonus(puntajeTotal, nivel);
    var ganancia := Veces(apuesta, puntajeTotal) / 100.0;
    p := Puntuacion(puntajeTotal, ganancia, bonus, nivel, detalles, ConBonus(puntajeTotal / 100.0, nivel));
  }

  /** `n` combinations score between 10 and 18000 times the base each. */
  lemma {:induction false} SumaPuntajesCota(cs: seq<Combo>, base: real)
    requires base >= 0.0
    ensures Veces(10 * |cs|, base) <= SumaPuntajes(cs, base) <= Veces(18000 * |cs|, base)
  {
    if cs != [] {
      var n, k := |cs| - 1, cs[|cs| - 1];
      SumaPuntajesCota(cs[..n], base);
      VecesSuma(10 * n, 10, base);
      VecesSuma(18000 * n, 18000, base);
      VecesCrece(10, Puntos(k), base);
      VecesCrece(Puntos(k), 18000, base);
    }
  }

  /** The score of two lists together is the sum of their scores: the order of the scan does not matter. */
  lemma {:induction false} SumaPuntajesConcat(x: seq<Combo>, y: seq<Combo>, base: real)
    ensures SumaPuntajes(x + y, base) == SumaPuntajes(x, base) + SumaPuntajes(y, base)
    decreases |y|
  {
    if y == [] {
      assert x + y == x;
    } else {
      var y0 := y[..|y| - 1];
      assert (x + y)[..|x + y| - 1] == x + y0;
      assert (x + y)[|x + y| - 1] == y[|y| - 1];
      SumaPuntajesConcat(x, y0, base);
    }
  }

  /**
   * The prize of a cascade: with a positive stake and base it is positive
   * exactly when some combination was found, never below the prize without
   * the bonus, and at most five times it.
   */
  lemma GananciaCascada(cs: seq<Combo>, apuesta: int, base: real, nivel: int)
    requires apuesta > 0 && base > 0.0
    ensures GananciaDe(cs, apuesta, base, nivel) > 0.0 <==> cs != []
    ensures Veces(apuesta, SumaPuntajes(cs, base)) / 100.0 <= GananciaDe(cs, apuesta, base, nivel)
    ensures GananciaDe(cs, apuesta, base, nivel) <= Veces(apuesta, 5.0 * SumaPuntajes(cs, base)) / 100.0
  {
    var s := SumaPuntajes(cs, base);
    SumaPuntajesCota(cs, base);
    VecesSigno(10 * |cs|, base);
    ConBonusCota(s, nivel);
    VecesSigno(apuesta, ConBonus(s, nivel));
    VecesMonotono(apuesta, ConBonus(s, nivel), s);
    VecesMonotono(apuesta, 5.0 * s, ConBonus(s, nivel));
  }

  // ------------------------------------------------------- the cascade run

  /** `encontrar_combinaciones` is always called with its default minimum run of three. */
  const MIN_COMBO: int := 3

  /** One entry of `cascadas`. */
  datatype Cascada = Cascada(nivel: int, combinacionesEncontradas: int, simbolosEliminados: int, puntaje: real,
                             ganancia: real, bonus: real, detalles: seq<Detalle>, matrizDespues: Matriz)

  /** `sum(len(c["posiciones"]) for c in combinaciones)`: a cell is counted once per combination naming it. */
  function SimbolosEliminados(cs: seq<Combo>): int
  {
    if cs == [] then 0 else SimbolosEliminados(cs[..|cs| - 1]) + |cs[|cs| - 1].posiciones|
  }

  lemma {:induction false} CeldasCuenta(ps: seq<(int, int)>)
    ensures |Celdas(ps)| <= |ps|
  {
    if ps != [] {
      var q := ps[..|ps| - 1];
      CeldasCuenta(q);
      assert Celdas(ps) == Celdas(q) + {ps[|ps| - 1]};
    }
  }

  /**
   * The reported count is at least the number of distinct cells emptied,
   * and at least three per combination when every combination is a run of
   * three or more: shared cells are counted twice.
   */
  lemma {:induction false} SimbolosEliminadosCota(cs: seq<Combo>)
    ensures |Elegidas(cs)| <= SimbolosEliminados(cs)
    ensures (forall k :: k in cs ==> |k.posiciones| >= MIN_COMBO) ==> SimbolosEliminados(cs) >= MIN_COMBO * |cs|
  {
    if cs != [] {
      var q := cs[..|cs| - 1];
      SimbolosEliminadosCota(q);
      CeldasCuenta(cs[|cs| - 1].posiciones);
      assert forall k :: k in q ==> k in cs;
    }
  }

  /** One set of draws per cascade, each covering every column of a `filas` by `columnas` grid. */
  predicate Rellenos(filas: int, columnas: int, R: seq<seq<Relleno>>)
  {
    forall i :: 0 <= i < |R| ==> Rellena(filas, columnas, R[i])
  }

  /** The grid after one cascade: the cells of the combinations emptied, then gravity with the draws `rs`. */
  function Siguiente(m: Matriz, cs: seq<Combo>, rs: seq<Relleno>): (g: Matriz)
    requires Rectangular(m) && Rellena(|m|, |m[0]|, rs)
    ensures Rectangular(g) && |g| == |m| && |g[0]| == |m[0]|
  {
    Gravedad(Vaciar(m, Elegidas(cs)), rs)
  }

  /** `g` is a `filas` by `columnas` grid without an empty cell. */
  predicate Llena(g: Matriz, filas: int, columnas: int)
  {
    && |g| == filas && (forall i :: 0 <= i < filas ==> |g[i]| == columnas)
    && forall i, j :: 0 <= i < filas && 0 <= j < columnas ==> g[i][j] != Vacia
  }

  /** After a cascade the grid is full again and keeps its shape. */
  lemma SiguienteLlena(m: Matriz, cs: seq<Combo>, rs: seq<Relleno>)
    requires Rectangular(m) && Rellena(|m|, |m[0]|, rs)
    ensures Llena(Siguiente(m, cs, rs), |m|, |m[0]|)
  {
    var v := Vaciar(m, Elegidas(cs));
    forall i, j | 0 <= i < |m| && 0 <= j < |m[0]|
      ensures Siguiente(m, cs, rs)[i][j] != Vacia
    {
      GravedadColumnas(v, rs, j);
      assert Siguiente(m, cs, rs)[i][j] == Gravedad(v, rs)[i][j];
    }
  }

  /**
   * The run from `m` ends within the draws `R`: the source loops until a
   * grid has no combination, and each cascade takes the next set of draws.
   */
  predicate Termina(m: Matriz, R: seq<seq<Relleno>>)
    requires Rectangular(m) && Rellenos(|m|, |m[0]|, R)
    decreases |R|
  {
    Combinaciones(m, MIN_COMBO) == []
    || (|R| > 0 && Termina(Siguiente(m, Combinaciones(m, MIN_COMBO), R[0]), R[1..]))
  }

  /** The record of one cascade at level `nivel`, as `jugar_cascadas` builds it. */
  function CascadaDe(m: Matriz, cs: seq<Combo>, rs: seq<Relleno>, apuesta: int, base: real, nivel: int): Cascada
    requires Rectangular(m) && Rellena(|m|, |m[0]|, rs)
  {
    var p := PuntuacionDe(cs, apuesta, base, nivel);
    Cascada(nivel, |cs|, SimbolosEliminados(cs), p.puntajeTotal, p.ganancia, p.bonusCascada, p.detalles,
            Siguiente(m, cs, rs))
  }

  /** What the loop of `jugar_cascadas` leaves: the cascades, every combination found, the last grid. */
  datatype Corrida = Corrida(cascadas: seq<Cascada>, todas: seq<Combo>, final: Matriz)

  /** `ganancia_total`: the prizes of the cascades added up. */
  function GananciaTotal(cs: seq<Cascada>): real
  {
    if cs == [] then 0.0 else GananciaTotal(cs[..|cs| - 1]) + cs[|cs| - 1].ganancia
  }

  /** The loop of `jugar_cascadas` from grid `m` and level `nivel`, with what it has gathered so far. */
  function Correr(m: Matriz, R: seq<seq<Relleno>>, apuesta: int, base: real, nivel: int,
                  hechas: seq<Cascada>, todas: seq<Combo>): Corrida
    requires Rectangular(m) && Rellenos(|m|, |m[0]|, R) && Termina(m, R)
    decreases |R|
  {
    var cs := Combinaciones(m, MIN_COMBO);
    if cs == [] then Corrida(hechas, todas, m)
    else
      var c := CascadaDe(m, cs, R[0], apuesta, base, nivel + 1);
      Correr(c.matrizDespues, R[1..], apuesta, base, nivel + 1, hechas + [c], todas + cs)
  }

  /** One step of the run: with combinations on the grid, the run goes on from the grid after the cascade. */
  lemma CorrerPaso(m: Matriz, R: seq<seq<Relleno>>, apuesta: int, base: real, nivel: int,
                   hechas: seq<Cascada>, todas: seq<Combo>)
    requires Rectangular(m) && Rellenos(|m|, |m[0]|, R) && Termina(m, R)
    requires Combinaciones(m, MIN_COMBO) != []
    ensures |R| > 0
    ensures var cs := Combinaciones(m, MIN_COMBO);
            var c := CascadaDe(m, cs, R[0], apuesta, base, nivel + 1);
            && Rellenos(|c.matrizDespues|, |c.matrizDespues[0]|, R[1..]) && Termina(c.matrizDespues, R[1..])
            && Correr(m, R, apuesta, base, nivel, hechas, todas)
               == Correr(c.matrizDespues, R[1..], apuesta, base, nivel + 1, hechas + [c], todas + cs)
  {
  }

  /** The run stops on a grid of the same shape without any combination. */
  lemma {:induction false} CorrerFinal(m: Matriz, R: seq<seq<Relleno>>, apuesta: int, base: real, nivel: int,
                                       hechas: seq<Cascada>, todas: seq<Combo>)
    requires Rectangular(m) && Rellenos(|m|, |m[0]|, R) && Termina(m, R)
    ensures var f := Correr(m, R, apuesta, base, nivel, hechas, todas).final;
            Rectangular(f) && |f| == |m| && |f[0]| == |m[0]| && Combinaciones(f, MIN_COMBO) == []
    decreases |R|
  {
    var cs := Combinaciones(m, MIN_COMBO);
    if cs == [] {
      assert Correr(m, R, apuesta, base, nivel, hechas, todas).final == m;
    } else {
      CorrerPaso(m, R, apuesta, base, nivel, hechas, todas);
      var c := CascadaDe(m, cs, R[0], apuesta, base, nivel + 1);
      CorrerFinal(c.matrizDespues, R[1..], apuesta, base, nivel + 1, hechas + [c], todas + cs);
      var f := Correr(c.matrizDespues, R[1..], apuesta, base, nivel + 1, hechas + [c], todas + cs).final;
      assert Correr(m, R, apuesta, base, nivel, hechas, todas).final == f;
      assert |c.matrizDespues| == |m| && |c.matrizDespues[0]| == |m[0]|;
    }
  }

  /** The run keeps what it was given and adds one cascade per set of draws at most, none exactly when the grid is quiet. */
  lemma {:induction false} CorrerPrefijo(m: Matriz, R: seq<seq<Relleno>>, apuesta: int, base: real, nivel: int,
                                         hechas: seq<Cascada>, todas: seq<Combo>)
    requires Rectangular(m) && Rellenos(|m|, |m[0]|, R) && Termina(m, R)
    ensures var r := Correr(m, R, apuesta, base, nivel, hechas, todas);
            && |hechas| <= |r.cascadas| <= |hechas| + |R|
            && r.cascadas[..|hechas|] == hechas
            && (r.cascadas == hechas <==> Combinaciones(m, MIN_COMBO) == [])
    decreases |R|
  {
    var cs := Combinaciones(m, MIN_COMBO);
    if cs != [] {
      CorrerPaso(m, R, apuesta, base, nivel, hechas, todas);
      var c := CascadaDe(m, cs, R[0], apuesta, base, nivel + 1);
      var h := hechas + [c];
      CorrerPrefijo(c.matrizDespues, R[1..], apuesta, base, nivel + 1, h, todas + cs);
      var cas := Correr(c.matrizDespues, R[1..], apuesta, base, nivel + 1, h, todas + cs).cascadas;
      PrefijoDePrefijo(cas, h, hechas);
    }
  }

  /** A prefix of a prefix is a prefix. */
  lemma PrefijoDePrefijo(cas: seq<Cascada>, h: seq<Cascada>, hechas: seq<Cascada>)
    requires |h| <= |cas| && cas[..|h|] == h && |hechas| <= |h| && h[..|hechas|] == hechas
    ensures cas[..|hechas|] == hechas
  {
    assert cas[..|hechas|] == cas[..|h|][..|hechas|];
  }

  /** Every combination found on the way is kept, after those it was given. */
  lemma {:induction false} CorrerTodas(m: Matriz, R: seq<seq<Relleno>>, apuesta: int, base: real, nivel: int,
                                       hechas: seq<Cascada>, todas: seq<Combo>)
    requires Rectangular(m) && Rellenos(|m|, |m[0]|, R) && Termina(m, R)
    ensures var t := Correr(m, R, apuesta, base, nivel, hechas, todas).todas;
            |todas| <= |t| && t[..|todas|] == todas
    decreases |R|
  {
    var cs := Combinaciones(m, MIN_COMBO);
    if cs != [] {
      CorrerPaso(m, R, apuesta, base, nivel, hechas, todas);
      var c := CascadaDe(m, cs, R[0], apuesta, base, nivel + 1);
      CorrerTodas(c.matrizDespues, R[1..], apuesta, base, nivel + 1, hechas + [c], todas + cs);
      var t := Correr(c.matrizDespues, R[1..], apuesta, base, nivel + 1, hechas + [c], todas + cs).todas;
      assert t[..|todas|] == t[..|todas + cs|][..|todas|];
    }
  }

  /**
   * Every cascade of the run: its level counts up from `nivel + 1`, it
   * carries the bonus of that level, and it found at least one combination.
   */
  lemma {:induction false} CorrerNiveles(m: Matriz, R: seq<seq<Relleno>>, apuesta: int, base: real, nivel: int,
                                         hechas: seq<Cascada>, todas: seq<Combo>)
    requires Rectangular(m) && Rellenos(|m|, |m[0]|, R) && Termina(m, R)
    ensures var r := Correr(m, R, apuesta, base, nivel, hechas, todas);
            forall j :: |hechas| <= j < |r.cascadas| ==>
              && r.cascadas[j].nivel == nivel + 1 + (j - |hechas|)
              && r.cascadas[j].bonus == BonusCascada(r.cascadas[j].nivel)
              && r.cascadas[j].combinacionesEncontradas > 0
    decreases |R|
  {
    var cs := Combinaciones(m, MIN_COMBO);
    if cs != [] {
      CorrerPaso(m, R, apuesta, base, nivel, hechas, todas);
      var c := CascadaDe(m, cs, R[0], apuesta, base, nivel + 1);
      var h := hechas + [c];
      CorrerNiveles(c.matrizDespues, R[1..], apuesta, base, nivel + 1, h, todas + cs);
      CorrerPrefijo(c.matrizDespues, R[1..], apuesta, base, nivel + 1, h, todas + cs);
      var cas := Correr(c.matrizDespues, R[1..], apuesta, base, nivel + 1, h, todas + cs).cascadas;
      assert cas[|hechas|] == cas[..|h|][|hechas|] == c;
      forall j | |hechas| <= j < |cas|
        ensures cas[j].nivel == nivel + 1 + (j - |hechas|) && cas[j].bonus == BonusCascada(cas[j].nivel)
                && cas[j].combinacionesEncontradas > 0
      {
        if j == |hechas| {
          assert cas[j] == c;
        } else {
          assert |h| <= j;
        }
      }
    }
  }

  /** Every cascade of the run leaves a full grid of the shape of the first. */
  lemma {:induction false} CorrerLlenas(m: Matriz, R: seq<seq<Relleno>>, apuesta: int, base: real, nivel: int,
                                        hechas: seq<Cascada>, todas: seq<Combo>)
    requires Rectangular(m) && Rellenos(|m|, |m[0]|, R) && Termina(m, R)
    ensures var r := Correr(m, R, apuesta, base, nivel, hechas, todas);
            forall j :: |hechas| <= j < |r.cascadas| ==> Llena(r.cascadas[j].matrizDespues, |m|, |m[0]|)
    decreases |R|
  {
    var cs := Combinaciones(m, MIN_COMBO);
    if cs != [] {
      CorrerPaso(m, R, apuesta, base, nivel, hechas, todas);
      var c := CascadaDe(m, cs, R[0], apuesta, base, nivel + 1);
      SiguienteLlena(m, cs, R[0]);
      var h := hechas + [c];
      CorrerLlenas(c.matrizDespues, R[1..], apuesta, base, nivel + 1, h, todas + cs);
      CorrerPrefijo(c.matrizDespues, R[1..], apuesta, base, nivel + 1, h, todas + cs);
      var cas := Correr(c.matrizDespues, R[1..], apuesta, base, nivel + 1, h, todas + cs).cascadas;
      assert cas[|hechas|] == cas[..|h|][|hechas|] == c;
      forall j | |hechas| <= j < |cas|
        ensures Llena(cas[j].matrizDespues, |m|, |m[0]|)
      {
        if j == |hechas| {
          assert cas[j] == c;
        } else {
          assert |h| <= j;
        }
      }
    }
  }

  /** A cascade that found something pays something, with a positive stake and base. */
  lemma CascadaPaga(m: Matriz, cs: seq<Combo>, rs: seq<Relleno>, apuesta: int, base: real, nivel: int)
    requires Rectangular(m) && Rellena(|m|, |m[0]|, rs)
    requires cs != [] && apuesta > 0 && base > 0.0
    ensures CascadaDe(m, cs, rs, apuesta, base, nivel).ganancia > 0.0
  {
    GananciaCascada(cs, apuesta, base, nivel);
  }

  /** With a positive stake and base, every cascade of the run pays something. */
  lemma {:induction false} CorrerPaga(m: Matriz, R: seq<seq<Relleno>>, apuesta: int, base: real, nivel: int,
                                      hechas: seq<Cascada>, todas: seq<Combo>)
    requires Rectangular(m) && Rellenos(|m|, |m[0]|, R) && Termina(m, R)
    requires apuesta > 0 && base > 0.0
    ensures var r := Correr(m, R, apuesta, base, nivel, hechas, todas);
            forall j :: |hechas| <= j < |r.cascadas| ==> r.cascadas[j].ganancia > 0.0
    decreases |R|
  {
    var cs := Combinaciones(m, MIN_COMBO);
    if cs != [] {
      CorrerPaso(m, R, apuesta, base, nivel, hechas, todas);
      var c := CascadaDe(m, cs, R[0], apuesta, base, nivel + 1);
      CascadaPaga(m, cs, R[0], apuesta, base, nivel + 1);
      var h := hechas + [c];
      CorrerPaga(c.matrizDespues, R[1..], apuesta, base, nivel + 1, h, todas + cs);
      CorrerPrefijo(c.matrizDespues, R[1..], apuesta, base, nivel + 1, h, todas + cs);
      var cas := Correr(c.matrizDespues, R[1..], apuesta, base, nivel + 1, h, todas + cs).cascadas;
      assert cas[|hechas|] == cas[..|h|][|hechas|] == c;
      forall j | |hechas| <= j < |cas|
        ensures cas[j].ganancia > 0.0
      {
        if j == |hechas| {
          assert cas[j] == c;
        } else {
          assert |h| <= j;
        }
      }
    }
  }

  lemma GananciaTotalMas(cs: seq<Cascada>, c: Cascada, g: real)
    requires g == GananciaTotal(cs)
    ensures g + c.ganancia == GananciaTotal(cs + [c])
  {
    assert (cs + [c])[..|cs|] == cs;
  }

  /** Prizes that are all positive add up to a positive total exactly when there is at least one. */
  lemma {:induction false} GananciaTotalPositiva(cs: seq<Cascada>)
    requires forall j :: 0 <= j < |cs| ==> cs[j].ganancia > 0.0
    ensures GananciaTotal(cs) >= 0.0
    ensures GananciaTotal(cs) > 0.0 <==> cs != []
  {
    if cs != [] {
      GananciaTotalPositiva(cs[..|cs| - 1]);
    }
  }

  /**
   * With a positive stake and base, what `jugar_cascadas` credits is
   * positive exactly when the first grid had a combination.
   */
  lemma GananciaDeLaCorrida(m: Matriz, R: seq<seq<Relleno>>, apuesta: int, base: real)
    requires Rectangular(m) && Rellenos(|m|, |m[0]|, R) && Termina(m, R)
    requires apuesta > 0 && base > 0.0
    ensures var r := Correr(m, R, apuesta, base, 0, [], []);
            && GananciaTotal(r.cascadas) >= 0.0
            && (GananciaTotal(r.cascadas) > 0.0 <==> Combinaciones(m, MIN_COMBO) != [])
  {
    CorrerPaga(m, R, apuesta, base, 0, [], []);
    CorrerPrefijo(m, R, apuesta, base, 0, [], []);
    GananciaTotalPositiva(Correr(m, R, apuesta, base, 0, [], []).cascadas);
  }

  /**
   * One pass of the loop of `jugar_cascadas` once combinations were found:
   * score them, empty their cells, let the grid fall and record the cascade.
   */
  method ProcesarCascada(a: array2<Celda>, rs: seq<Relleno>, apuesta: int, base: real, nivel: int,
                         combinaciones: seq<Combo>) returns (info: Cascada)
    requires a.Length0 > 0 && Rellena(a.Length0, a.Length1, rs)
    requires combinaciones == Combinaciones(Valor(a), MIN_COMBO)
    modifies a
    ensures info == CascadaDe(old(Valor(a)), combinaciones, rs, apuesta, base, nivel)
    ensures Valor(a) == info.matrizDespues
  {
    ghost var m := Valor(a);
    var resultado := CalcularPuntaje(combinaciones, apuesta, base, nivel);
    CombinacionesValidas(m, MIN_COMBO);
    var eliminadas := EliminarCombinaciones(a, combinaciones);
    AplicarGravedad(a, rs);
    info := Cascada(nivel, |combinaciones|, SimbolosEliminados(combinaciones), resultado.puntajeTotal,
                    resultado.ganancia, resultado.bonusCascada, resultado.detalles, Valor(a));
  }

  /** `ganancia_total += resultado_cascada["ganancia"]`. */
  method Acumular(cascadas: seq<Cascada>, gananciaTotal: real, info: Cascada) returns (g: real)
    requires gananciaTotal == GananciaTotal(cascadas)
    ensures g == GananciaTotal(cascadas + [info])
  {
    GananciaTotalMas(cascadas, info, gananciaTotal);
    g := gananciaTotal + info.ganancia;
  }

  /**
   * The loop of `jugar_cascadas` on the grid `a`: `R` holds the draws of
   * each cascade's refill, in order.
   */
  method Cascadear(a: array2<Celda>, R: seq<seq<Relleno>>, apuesta: int, base: real)
    returns (cascadas: seq<Cascada>, gananciaTotal: real, todas: seq<Combo>)
    requires a.Length0 > 0 && Rellenos(a.Length0, a.Length1, R) && Termina(Valor(a), R)
    modifies a
    ensures Corrida(cascadas, todas, Valor(a)) == Correr(old(Valor(a)), R, apuesta, base, 0, [], [])
    ensures gananciaTotal == GananciaTotal(cascadas)
  {
    ghost var m0 := Valor(a);
    ghost var m := m0;
    cascadas, gananciaTotal, todas := [], 0.0, [];
    var nivel := 0;
    while true
      invariant m == Valor(a) && Rectangular(m) && |m| == a.Length0 && |m[0]| == a.Length1
      invariant 0 <= nivel <= |R|
      invariant Rellenos(|m|, |m[0]|, R[nivel..]) && Termina(m, R[nivel..])
      invariant Correr(m, R[nivel..], apuesta, base, nivel, cascadas, todas) == Correr(m0, R, apuesta, base, 0, [], [])
      invariant gananciaTotal == GananciaTotal(cascadas)
      decreases |R| - nivel
    {
      var combinaciones := EncontrarCombinaciones(a, MIN_COMBO);
      if combinaciones == [] {
        break;
      }
      CorrerPaso(m, R[nivel..], apuesta, base, nivel, cascadas, todas);
      nivel := nivel + 1;
      var info := ProcesarCascada(a, R[nivel - 1], apuesta, base, nivel, combinaciones);
      gananciaTotal := Acumular(cascadas, gananciaTotal, info);
      todas := todas + combinaciones;
      cascadas := cascadas + [info];
      m := info.matrizDespues;
      assert R[nivel - 1..][1..] == R[nivel..];
    }
  }

  // ------------------------------------------------------------- the endpoint

  /** `generar_matriz` with its draws: row `i` is `sorteo[i]`, `columnas` symbols long. */
  predicate Sorteo(filas: int, columnas: int, sorteo: seq<seq<Simbolo>>)
  {
    filas > 0 && columnas > 0 && |sorteo| == filas && forall i :: 0 <= i < filas ==> |sorteo[i]| == columnas
  }

  /** The grid of the draws `sorteo`. */
  function MatrizDe(sorteo: seq<seq<Simbolo>>): (m: Matriz)
    requires |sorteo| > 0 && Sorteo(|sorteo|, |sorteo[0]|, sorteo)
    ensures Rectangular(m) && Llena(m, |sorteo|, |sorteo[0]|)
    ensures forall i, j :: 0 <= i < |m| && 0 <= j < |m[0]| ==> m[i][j] == Ficha(sorteo[i][j])
  {
    seq(|sorteo|, i requires 0 <= i < |sorteo| => seq(|sorteo[0]|, j requires 0 <= j < |sorteo[0]| => Ficha(sorteo[i][j])))
  }

  /** `generar_matriz(filas, columnas)`, the grid built as a fresh array. */
  method GenerarMatriz(filas: int, columnas: int, sorteo: seq<seq<Simbolo>>) returns (a: array2<Celda>)
    requires Sorteo(filas, columnas, sorteo)
    ensures fresh(a) && Valor(a) == MatrizDe(sorteo)
  {
    a := new Celda[filas, columnas]((i, j) requires 0 <= i < filas && 0 <= j < columnas => Ficha(sorteo[i][j]));
    assert Valor(a) == MatrizDe(sorteo) by {
      var m, n := Valor(a), MatrizDe(sorteo);
      assert |m| == |n|;
      forall i | 0 <= i < |m|
        ensures m[i] == n[i]
      {
        assert |m[i]| == |n[i]|;
        forall j | 0 <= j < |m[i]|
          ensures m[i][j] == n[i][j]
        {
        }
      }
    }
  }

  /** The draws of a game of configuration `cfg`: a full first grid of its size and one refill per cascade. */
  predicate Sorteos(cfg: Config, sorteo: seq<seq<Simbolo>>, R: seq<seq<Relleno>>)
  {
    && Sorteo(cfg.filas, cfg.columnas, sorteo)
    && Rellenos(cfg.filas, cfg.columnas, R)
    && Termina(MatrizDe(sorteo), R)
  }

  /**
   * The board part of `jugar_cascadas` (lines 313-361): the first grid, then
   * cascades until the grid is quiet.
   */
  method Partida(cfg: Config, apuesta: int, sorteo: seq<seq<Simbolo>>, R: seq<seq<Relleno>>)
    returns (corrida: Corrida, gananciaTotal: real)
    requires Sorteos(cfg, sorteo, R)
    ensures corrida == Correr(MatrizDe(sorteo), R, apuesta, cfg.multiplicadorBase, 0, [], [])
    ensures gananciaTotal == GananciaTotal(corrida.cascadas)
  {
    var a := GenerarMatriz(cfg.filas, cfg.columnas, sorteo);
    var cascadas, todas;
    cascadas, gananciaTotal, todas := Cascadear(a, R, apuesta, cfg.multiplicadorBase);
    corrida := Corrida(cascadas, todas, Valor(a));
  }

  /** The three messages of the response. */
  datatype Mensaje = CascadaDeNiveles(niveles: int) | Combinacion | SinCombinaciones

  function MensajeDe(gananciaTotal: real, niveles: int): Mensaje
  {
    if gananciaTotal > 0.0 then (if niveles > 1 then CascadaDeNiveles(niveles) else Combinacion)
    else SinCombinaciones
  }

  /** `((ganancia - apuesta) / apuesta * 100) if apuesta > 0 else 0`. */
  function Roi(ganancia: real, apuesta: int): (roi: real)
    ensures apuesta > 0 ==> (roi >= 0.0 <==> ganancia >= apuesta as real)
    ensures apuesta > 0 && ganancia == 0.0 ==> roi == -100.0
    ensures apuesta <= 0 ==> roi == 0.0
  {
    if apuesta > 0 then
      Cociente(ganancia - apuesta as real, apuesta as real);
      (ganancia - apuesta as real) / apuesta as real * 100.0
    else 0.0
  }

  lemma Cociente(x: real, a: real)
    requires a > 0.0
    ensures x / a >= 0.0 <==> x >= 0.0
    ensures x == -a ==> x / a == -1.0
  {
    assert x == (x / a) * a;
  }

  datatype Resumen = Resumen(gananciaBruta: real, gananciaNeta: real, roi: real)

  /** The response of `jugar_cascadas`. */
  datatype Jugada = Jugada(
    matrizInicial: Matriz,
    cascadas: seq<Cascada>,
    gananciaTotal: real,
    nuevoSaldo: real,
    mensaje: Mensaje,
    apuesta: int,
    configuracion: string,
    nivelesCascada: int,
    totalCombinaciones: int,
    multiplicadorBase: real,
    resumen: Resumen)

  /**
   * The response for a run `c`: `matriz_inicial` is the grid after the first
   * cascade when there was one (the code reads `cascadas[0]["matriz_despues"]`),
   * the final grid otherwise.
   */
  function JugadaDe(configuracion: string, cfg: Config, apuesta: int, c: Corrida, nuevoSaldo: real): Jugada
  {
    var g := GananciaTotal(c.cascadas);
    Jugada(if c.cascadas == [] then c.final else c.cascadas[0].matrizDespues,
           c.cascadas, g, nuevoSaldo, MensajeDe(g, |c.cascadas|), apuesta, configuracion,
           |c.cascadas|, |c.todas|, cfg.multiplicadorBase, Resumen(g, g - apuesta as real, Roi(g, apuesta)))
  }

  /**
   * The message of a run: the "no combination" one exactly when no cascade
   * happened, the one naming the levels exactly when there were several.
   */
  lemma MensajeDeLaCorrida(m: Matriz, R: seq<seq<Relleno>>, apuesta: int, base: real)
    requires Rectangular(m) && Rellenos(|m|, |m[0]|, R) && Termina(m, R)
    requires apuesta > 0 && base > 0.0
    ensures var c := Correr(m, R, apuesta, base, 0, [], []);
            var msj := MensajeDe(GananciaTotal(c.cascadas), |c.cascadas|);
            && (msj == SinCombinaciones <==> c.cascadas == [])
            && (msj == CascadaDeNiveles(|c.cascadas|) <==> |c.cascadas| > 1)
  {
    GananciaDeLaCorrida(m, R, apuesta, base);
    CorrerPrefijo(m, R, apuesta, base, 0, [], []);
  }

  /** What a game moves the balance by: the total won less the stake. */
  function Neto(gananciaTotal: real, apuesta: int): real
  {
    gananciaTotal - apuesta as real
  }

  /** Lines 310 and 364 with the credit made: the stake out, the total won in. */
  method Acreditar(db: Db, uid: int, apuesta: int, gananciaTotal: real)
    requires uid in db.usuarios
    modifies db`usuarios
    ensures db.usuarios == ConSaldo(old(db.usuarios), uid, Neto(gananciaTotal, apuesta))
  {
    var usuario := db.usuarios[uid];
    var saldo := usuario.saldo - apuesta as real;
    saldo := saldo + gananciaTotal;
    db.usuarios := db.usuarios[uid := usuario.(saldo := saldo)];
  }

  /**
   * `jugar_cascadas` with the winnings credited: the stake is debited, the
   * run is played and its total is added to the balance, in one commit.
   * `sorteo` and `R` are the random draws of the first grid and of the refills.
   */
  method JugarCascadas(db: Db, uid: int, configuracion: string, apuesta: int,
                       sorteo: seq<seq<Simbolo>>, R: seq<seq<Relleno>>)
    returns (r: Result<Jugada>)
    requires ConfigDe(configuracion).Some? ==> Sorteos(ConfigDe(configuracion).value, sorteo, R)
    modifies db`usuarios
    ensures ConfigDe(configuracion).None? ==> r == Err(400)
    ensures ConfigDe(configuracion).Some?
            && !(ConfigDe(configuracion).value.apuestaMinima <= apuesta <= ConfigDe(configuracion).value.apuestaMaxima)
            ==> r == Err(400)
    ensures ConfigDe(configuracion).Some?
            && ConfigDe(configuracion).value.apuestaMinima <= apuesta <= ConfigDe(configuracion).value.apuestaMaxima
            && uid !in old(db.usuarios)
            ==> r == Err(404)
    ensures ConfigDe(configuracion).Some?
            && ConfigDe(configuracion).value.apuestaMinima <= apuesta <= ConfigDe(configuracion).value.apuestaMaxima
            && uid in old(db.usuarios) && old(db.usuarios[uid].saldo) < apuesta as real
            ==> r == Err(400)
    ensures r.Ok? <==> && ConfigDe(configuracion).Some?
                       && ConfigDe(configuracion).value.apuestaMinima <= apuesta <= ConfigDe(configuracion).value.apuestaMaxima
                       && uid in old(db.usuarios) && old(db.usuarios[uid].saldo) >= apuesta as real
    ensures r.Err? ==> db.usuarios == old(db.usuarios)
    ensures r.Ok? ==>
      var cfg := ConfigDe(configuracion).value;
      var c := Correr(MatrizDe(sorteo), R, apuesta, cfg.multiplicadorBase, 0, [], []);
      && db.usuarios == ConSaldo(old(db.usuarios), uid, Neto(GananciaTotal(c.cascadas), apuesta))
      && r.value == JugadaDe(configuracion, cfg, apuesta, c, db.usuarios[uid].saldo)
  {
    if ConfigDe(configuracion).None? {
      return Err(400);
    }
    var cfg := ConfigDe(configuracion).value;
    if apuesta < cfg.apuestaMinima || apuesta > cfg.apuestaMaxima {
      return Err(400);
    }
    if uid !in db.usuarios {
      return Err(404);
    }
    var usuario := db.usuarios[uid];
    if usuario.saldo < apuesta as real {
      return Err(400);
    }
    var corrida, gananciaTotal := Partida(cfg, apuesta, sorteo, R);
    Acreditar(db, uid, apuesta, gananciaTotal);
    r := Ok(JugadaDe(configuracion, cfg, apuesta, corrida, db.usuarios[uid].saldo));
  }

  /**
   * `jugar_cascadas` as written: `ganancia_total` starts as the integer 0
   * and becomes a float with the first cascade, and adding a float to the
   * Decimal balance raises TypeError. So a game with at least one cascade
   * ends in a 500 before the commit and the stake stays where it was; a
   * quiet game commits the debit alone.
   */
  method JugarCascadasTalCual(db: Db, uid: int, configuracion: string, apuesta: int,
                              sorteo: seq<seq<Simbolo>>, R: seq<seq<Relleno>>)
    returns (r: Result<Jugada>)
    requires ConfigDe(configuracion).Some? ==> Sorteos(ConfigDe(configuracion).value, sorteo, R)
    modifies db`usuarios
    ensures ConfigDe(configuracion).None? ==> r == Err(400)
    ensures ConfigDe(configuracion).Some?
            && !(ConfigDe(configuracion).value.apuestaMinima <= apuesta <= ConfigDe(configuracion).value.apuestaMaxima)
            ==> r == Err(400)
    ensures ConfigDe(configuracion).Some?
            && ConfigDe(configuracion).value.apuestaMinima <= apuesta <= ConfigDe(configuracion).value.apuestaMaxima
            && uid !in old(db.usuarios)
            ==> r == Err(404)
    ensures ConfigDe(configuracion).Some?
            && ConfigDe(configuracion).value.apuestaMinima <= apuesta <= ConfigDe(configuracion).value.apuestaMaxima
            && uid in old(db.usuarios) && old(db.usuarios[uid].saldo) < apuesta as real
            ==> r == Err(400)
    ensures r.Ok? <==> && ConfigDe(configuracion).Some?
                       && ConfigDe(configuracion).value.apuestaMinima <= apuesta <= ConfigDe(configuracion).value.apuestaMaxima
                       && uid in old(db.usuarios) && old(db.usuarios[uid].saldo) >= apuesta as real
                       && Combinaciones(MatrizDe(sorteo), MIN_COMBO) == []
    ensures ConfigDe(configuracion).Some?
            && ConfigDe(configuracion).value.apuestaMinima <= apuesta <= ConfigDe(configuracion).value.apuestaMaxima
            && uid in old(db.usuarios) && old(db.usuarios[uid].saldo) >= apuesta as real
            && Combinaciones(MatrizDe(sorteo), MIN_COMBO) != []
            ==> r == Err(500)
    ensures r.Err? ==> db.usuarios == old(db.usuarios)
    ensures r.Ok? ==>
      var cfg := ConfigDe(configuracion).value;
      var c := Correr(MatrizDe(sorteo), R, apuesta, cfg.multiplicadorBase, 0, [], []);
      && c.cascadas == [] && GananciaTotal(c.cascadas) == 0.0
      && db.usuarios == ConSaldo(old(db.usuarios), uid, -(apuesta as real))
      && r.value == JugadaDe(configuracion, cfg, apuesta, c, db.usuarios[uid].saldo)
  {
    if ConfigDe(configuracion).None? {
      return Err(400);
    }
    var cfg := ConfigDe(configuracion).value;
    if apuesta < cfg.apuestaMinima || apuesta > cfg.apuestaMaxima {
      return Err(400);
    }
    if uid !in db.usuarios {
      return Err(404);
    }
    var usuario := db.usuarios[uid];
    if usuario.saldo < apuesta as real {
      return Err(400);
    }
    var corrida, gananciaTotal := Partida(cfg, apuesta, sorteo, R);
    CorrerPrefijo(MatrizDe(sorteo), R, apuesta, cfg.multiplicadorBase, 0, [], []);
    if corrida.cascadas != [] {
      // Decimal += float
      return Err(500);
    }
    db.usuarios := ConSaldo(db.usuarios, uid, -(apuesta as real));
    r := Ok(JugadaDe(configuracion, cfg, apuesta, corrida, db.usuarios[uid].saldo));
  }

  // ----------------------------------------------------------- the simulation

  /** `min(pasos, 5)`: the simulation shows five steps at most. */
  const MAX_PASOS: int := 5

  function Limite(pasos: int): (n: nat)
    ensures n <= MAX_PASOS && (0 <= pasos <= MAX_PASOS ==> n == pasos) && (pasos < 0 ==> n == 0)
  {
    NoNegativo(if pasos < MAX_PASOS then pasos else MAX_PASOS)
  }

  /** The first `n` elements of `s`, or all of them when there are fewer (`s[:n]`). */
  function Primeros<T>(s: seq<T>, n: nat): (r: seq<T>)
    ensures |r| == if |s| < n then |s| else n
    ensures r == s[..|r|]
  {
    if |s| <= n then s else s[..n]
  }

  /** A combination as a step of the simulation shows it: its first five positions only. */
  datatype DetalleSimulado = DetalleSimulado(simbolo: Simbolo, tipo: Tipo, longitud: int, posiciones: seq<(int, int)>)

  datatype PasoSimulado = PasoSimulado(
    paso: int, combinaciones: int, simbolosEliminados: int, detalles: seq<DetalleSimulado>, matrizDespues: Matriz)

  datatype Simulacion = Simulacion(matrizInicial: Matriz, pasos: seq<PasoSimulado>)

  function DetalleSimuladoDe(k: Combo): DetalleSimulado
  {
    DetalleSimulado(k.simbolo, k.tipo, k.longitud, Primeros(k.posiciones, 5))
  }

  /** The details of a step: the first three combinations, each cut to five positions. */
  function DetallesSimulados(cs: seq<Combo>): (ds: seq<DetalleSimulado>)
    ensures |ds| == |Primeros(cs, 3)| <= 3
    ensures forall i :: 0 <= i < |ds| ==> ds[i] == DetalleSimuladoDe(cs[i]) && |ds[i].posiciones| <= 5
  {
    var ps := Primeros(cs, 3);
    seq(|ps|, i requires 0 <= i < |ps| => DetalleSimuladoDe(ps[i]))
  }

  /** The inner loop of `simular_cascada` (lines 426-432). */
  method Detallar(cs: seq<Combo>) returns (ds: seq<DetalleSimulado>)
    ensures ds == DetallesSimulados(cs)
  {
    var primeros := Primeros(cs, 3);
    ds := [];
    for i := 0 to |primeros|
      invariant |ds| == i && forall k :: 0 <= k < i ==> ds[k] == DetalleSimuladoDe(cs[k])
    {
      var combo := primeros[i];
      ds := ds + [DetalleSimulado(combo.simbolo, combo.tipo, combo.longitud, Primeros(combo.posiciones, 5))];
    }
  }

  /** The record of step number `paso` on grid `m`. */
  function PasoDe(m: Matriz, cs: seq<Combo>, rs: seq<Relleno>, paso: int): PasoSimulado
    requires Rectangular(m) && Rellena(|m|, |m[0]|, rs)
  {
    PasoSimulado(paso, |cs|, SimbolosEliminados(cs), DetallesSimulados(cs), Siguiente(m, cs, rs))
  }

  /**
   * The steps of the simulation from grid `m`, after the steps `hechos`,
   * with one set of draws in `R` for each step still allowed.
   */
  function Pasos(m: Matriz, R: seq<seq<Relleno>>, hechos: seq<PasoSimulado>): seq<PasoSimulado>
    requires Rectangular(m) && Rellenos(|m|, |m[0]|, R)
    decreases |R|
  {
    var cs := Combinaciones(m, MIN_COMBO);
    if |R| == 0 || cs == [] then hechos
    else Pasos(Siguiente(m, cs, R[0]), R[1..], hechos + [PasoDe(m, cs, R[0], |hechos| + 1)])
  }

  /** Unfolding the steps once: a step from a grid with combinations, then the steps from the next grid. */
  lemma PasosPaso(m: Matriz, R: seq<seq<Relleno>>, hechos: seq<PasoSimulado>)
    requires Rectangular(m) && Rellenos(|m|, |m[0]|, R)
    requires |R| > 0 && Combinaciones(m, MIN_COMBO) != []
    ensures var cs := Combinaciones(m, MIN_COMBO);
            var g := Siguiente(m, cs, R[0]);
            var p := PasoDe(m, cs, R[0], |hechos| + 1);
            && Rellenos(|g|, |g[0]|, R[1..])
            && p.paso == |hechos| + 1 && p.combinaciones > 0 && |p.detalles| <= 3
            && Pasos(m, R, hechos) == Pasos(g, R[1..], hechos + [p])
  {
  }

  /** Steps numbered from one on, each with at least one and at most three combinations shown. */
  predicate Numerados(ps: seq<PasoSimulado>)
  {
    forall k :: 0 <= k < |ps| ==> ps[k].paso == k + 1 && ps[k].combinaciones > 0 && |ps[k].detalles| <= 3
  }

  lemma NumeradosMas(ps: seq<PasoSimulado>, p: PasoSimulado)
    requires Numerados(ps) && p.paso == |ps| + 1 && p.combinaciones > 0 && |p.detalles| <= 3
    ensures Numerados(ps + [p])
  {
    var qs := ps + [p];
    forall k | 0 <= k < |qs|
      ensures qs[k].paso == k + 1 && qs[k].combinaciones > 0 && |qs[k].detalles| <= 3
    {
      if k < |ps| {
        assert qs[k] == ps[k];
      }
    }
  }

  /**
   * The simulation keeps the steps it was given and adds at most one per
   * set of draws, none exactly when no draw is left or the grid is quiet.
   */
  lemma {:induction false} PasosPrefijo(m: Matriz, R: seq<seq<Relleno>>, hechos: seq<PasoSimulado>)
    requires Rectangular(m) && Rellenos(|m|, |m[0]|, R)
    ensures var ps := Pasos(m, R, hechos);
            && |hechos| <= |ps| <= |hechos| + |R|
            && ps[..|hechos|] == hechos
            && (ps == hechos <==> |R| == 0 || Combinaciones(m, MIN_COMBO) == [])
    decreases |R|
  {
    var cs := Combinaciones(m, MIN_COMBO);
    if |R| > 0 && cs != [] {
      var g := Siguiente(m, cs, R[0]);
      var p := PasoDe(m, cs, R[0], |hechos| + 1);
      PasosPaso(m, R, hechos);
      PasosPrefijo(g, R[1..], hechos + [p]);
      var ps := Pasos(g, R[1..], hechos + [p]);
      assert ps[..|hechos|] == ps[..|hechos| + 1][..|hechos|];
    }
  }

  /** The steps stay numbered from one on, each with a combination removed and at most three shown. */
  lemma {:induction false} PasosNumerados(m: Matriz, R: seq<seq<Relleno>>, hechos: seq<PasoSimulado>)
    requires Rectangular(m) && Rellenos(|m|, |m[0]|, R) && Numerados(hechos)
    ensures Numerados(Pasos(m, R, hechos))
    decreases |R|
  {
    var cs := Combinaciones(m, MIN_COMBO);
    if |R| > 0 && cs != [] {
      var g := Siguiente(m, cs, R[0]);
      var p := PasoDe(m, cs, R[0], |hechos| + 1);
      PasosPaso(m, R, hechos);
      NumeradosMas(hechos, p);
      PasosNumerados(g, R[1..], hechos + [p]);
    }
  }

  /** A step of the simulation shows what the cascade of a game showed. */
  predicate Coincide(p: PasoSimulado, c: Cascada)
  {
    && p.combinaciones == c.combinacionesEncontradas
    && p.simbolosEliminados == c.simbolosEliminados
    && p.matrizDespues == c.matrizDespues
  }

  /** A step of the simulation and a cascade of the game from the same grid, combinations and draws agree. */
  lemma PasoCoincide(m: Matriz, cs: seq<Combo>, rs: seq<Relleno>, paso: int, apuesta: int, base: real, nivel: int)
    requires Rectangular(m) && Rellena(|m|, |m[0]|, rs)
    ensures var c := CascadaDe(m, cs, rs, apuesta, base, nivel);
            c.matrizDespues == Siguiente(m, cs, rs) && Coincide(PasoDe(m, cs, rs, paso), c)
  {
  }

  /** Dropping the first draw of a prefix of `R` leaves a prefix of the rest of `R`. */
  lemma PrefijoResto(Q: seq<seq<Relleno>>, R: seq<seq<Relleno>>)
    requires 0 < |Q| <= |R| && Q == R[..|Q|]
    ensures Q[0] == R[0] && |Q[1..]| <= |R[1..]| && Q[1..] == R[1..][..|Q[1..]|]
  {
    assert Q[0] == R[..|Q|][0];
  }

  /** One step of the simulation and one cascade of the game together, from the same grid and draws. */
  lemma JuntosPaso(m: Matriz, Q: seq<seq<Relleno>>, hechos: seq<PasoSimulado>,
                   R: seq<seq<Relleno>>, apuesta: int, base: real, nivel: int,
                   hc: seq<Cascada>, todas: seq<Combo>)
    requires Rectangular(m) && Rellenos(|m|, |m[0]|, R) && Termina(m, R)
    requires |Q| <= |R| && Q == R[..|Q|] && |hechos| == |hc|
    requires |Q| > 0 && Combinaciones(m, MIN_COMBO) != []
    ensures Rellenos(|m|, |m[0]|, Q)
    ensures var cs := Combinaciones(m, MIN_COMBO);
            var g := Siguiente(m, cs, R[0]);
            var p := PasoDe(m, cs, R[0], |hechos| + 1);
            var c := CascadaDe(m, cs, R[0], apuesta, base, nivel + 1);
            && Rectangular(g) && Rellenos(|g|, |g[0]|, R[1..]) && Termina(g, R[1..])
            && |Q[1..]| <= |R[1..]| && Q[1..] == R[1..][..|Q[1..]|] && |hechos + [p]| == |hc + [c]|
            && c.matrizDespues == g && Coincide(p, c)
            && Pasos(m, Q, hechos) == Pasos(g, Q[1..], hechos + [p])
            && Correr(m, R, apuesta, base, nivel, hc, todas)
               == Correr(g, R[1..], apuesta, base, nivel + 1, hc + [c], todas + cs)
  {
    PrefijoResto(Q, R);
    PasosPaso(m, Q, hechos);
    CorrerPaso(m, R, apuesta, base, nivel, hc, todas);
    PasoCoincide(m, Combinaciones(m, MIN_COMBO), R[0], |hechos| + 1, apuesta, base, nivel + 1);
  }

  /**
   * With the same grid and the first draws `Q` of `R`, the simulation has
   * as many steps as the game has cascades, unless the draws for the
   * simulation run out first.
   */
  lemma {:induction false} PasosCuantos(m: Matriz, Q: seq<seq<Relleno>>, hechos: seq<PasoSimulado>,
                                        R: seq<seq<Relleno>>, apuesta: int, base: real, nivel: int,
                                        hc: seq<Cascada>, todas: seq<Combo>)
    requires Rectangular(m) && Rellenos(|m|, |m[0]|, R) && Termina(m, R)
    requires |Q| <= |R| && Q == R[..|Q|] && |hechos| == |hc|
    ensures Rellenos(|m|, |m[0]|, Q)
    ensures var ps := Pasos(m, Q, hechos);
            var cas := Correr(m, R, apuesta, base, nivel, hc, todas).cascadas;
            |ps| <= |cas| && (|ps| < |cas| ==> |ps| == |hechos| + |Q|)
    decreases |R|
  {
    var cs := Combinaciones(m, MIN_COMBO);
    CorrerPrefijo(m, R, apuesta, base, nivel, hc, todas);
    PasosPrefijo(m, Q, hechos);
    if |Q| > 0 && cs != [] {
      JuntosPaso(m, Q, hechos, R, apuesta, base, nivel, hc, todas);
      var g := Siguiente(m, cs, R[0]);
      PasosCuantos(g, Q[1..], hechos + [PasoDe(m, cs, R[0], |hechos| + 1)], R[1..], apuesta, base, nivel + 1,
                   hc + [CascadaDe(m, cs, R[0], apuesta, base, nivel + 1)], todas + cs);
    }
  }

  lemma CoincidenDesde(ps: seq<PasoSimulado>, cas: seq<Cascada>, hechos: seq<PasoSimulado>, p: PasoSimulado,
                       hc: seq<Cascada>, c: Cascada)
    requires |hechos| == |hc| && |hechos| < |ps| <= |cas|
    requires ps[..|hechos| + 1] == hechos + [p] && cas[..|hc| + 1] == hc + [c] && Coincide(p, c)
    requires forall k :: |hechos| + 1 <= k < |ps| ==> Coincide(ps[k], cas[k])
    ensures forall k :: |hechos| <= k < |ps| ==> Coincide(ps[k], cas[k])
  {
    assert ps[|hechos|] == ps[..|hechos| + 1][|hechos|] == p;
    assert cas[|hc|] == cas[..|hc| + 1][|hc|] == c;
  }

  /**
   * With the same grid and the first draws `Q` of `R`, each step of the
   * simulation shows what the cascade of the game at the same place showed.
   */
  lemma {:induction false} PasosComoCorrida(m: Matriz, Q: seq<seq<Relleno>>, hechos: seq<PasoSimulado>,
                                            R: seq<seq<Relleno>>, apuesta: int, base: real, nivel: int,
                                            hc: seq<Cascada>, todas: seq<Combo>)
    requires Rectangular(m) && Rellenos(|m|, |m[0]|, R) && Termina(m, R)
    requires |Q| <= |R| && Q == R[..|Q|] && |hechos| == |hc|
    ensures Rellenos(|m|, |m[0]|, Q)
    ensures var ps := Pasos(m, Q, hechos);
            var cas := Correr(m, R, apuesta, base, nivel, hc, todas).cascadas;
            |ps| <= |cas| && forall k :: |hechos| <= k < |ps| ==> Coincide(ps[k], cas[k])
    decreases |R|
  {
    var cs := Combinaciones(m, MIN_COMBO);
    PasosCuantos(m, Q, hechos, R, apuesta, base, nivel, hc, todas);
    if |Q| > 0 && cs != [] {
      JuntosPaso(m, Q, hechos, R, apuesta, base, nivel, hc, todas);
      var g := Siguiente(m, cs, R[0]);
      var p := PasoDe(m, cs, R[0], |hechos| + 1);
      var c := CascadaDe(m, cs, R[0], apuesta, base, nivel + 1);
      PasosComoCorrida(g, Q[1..], hechos + [p], R[1..], apuesta, base, nivel + 1, hc + [c], todas + cs);
      PasosPrefijo(g, Q[1..], hechos + [p]);
      CorrerPrefijo(g, R[1..], apuesta, base, nivel + 1, hc + [c], todas + cs);
      CoincidenDesde(Pasos(g, Q[1..], hechos + [p]),
                     Correr(g, R[1..], apuesta, base, nivel + 1, hc + [c], todas + cs).cascadas, hechos, p, hc, c);
    } else {
      PasosPrefijo(m, Q, hechos);
    }
  }

  /**
   * The simulation of a grid shows the first cascades a game on the same
   * grid and draws goes through: `min(pasos, 5)` of them, or all when the
   * game has fewer.
   */
  lemma SimularComoJugar(m: Matriz, R: seq<seq<Relleno>>, pasos: int, apuesta: int, base: real)
    requires Rectangular(m) && Rellenos(|m|, |m[0]|, R) && Termina(m, R) && |R| >= Limite(pasos)
    ensures Rellenos(|m|, |m[0]|, R[..Limite(pasos)])
    ensures var ps := Pasos(m, R[..Limite(pasos)], []);
            var cas := Correr(m, R, apuesta, base, 0, [], []).cascadas;
            && |ps| == (if |cas| < Limite(pasos) then |cas| else Limite(pasos))
            && forall k :: 0 <= k < |ps| ==> Coincide(ps[k], cas[k])
  {
    var Q := R[..Limite(pasos)];
    PasosCuantos(m, Q, [], R, apuesta, base, 0, [], []);
    PasosComoCorrida(m, Q, [], R, apuesta, base, 0, [], []);
    PasosPrefijo(m, Q, []);
  }

  /** One pass of the loop of `simular_cascada` once combinations were found (lines 419-441). */
  method ProcesarPaso(a: array2<Celda>, rs: seq<Relleno>, paso: int, combinaciones: seq<Combo>)
    returns (info: PasoSimulado)
    requires a.Length0 > 0 && Rellena(a.Length0, a.Length1, rs)
    requires combinaciones == Combinaciones(Valor(a), MIN_COMBO)
    modifies a
    ensures info == PasoDe(old(Valor(a)), combinaciones, rs, paso)
    ensures Valor(a) == info.matrizDespues
  {
    ghost var m := Valor(a);
    var detalles := Detallar(combinaciones);
    CombinacionesValidas(m, MIN_COMBO);
    var eliminadas := EliminarCombinaciones(a, combinaciones);
    AplicarGravedad(a, rs);
    info := PasoSimulado(paso, |combinaciones|, SimbolosEliminados(combinaciones), detalles, Valor(a));
  }

  /**
   * `simular_cascada`. `sorteo` and `R` are the random draws of the first
   * grid and of the refills of each step. An unknown configuration is a 400;
   * otherwise the response holds the first grid and the steps.
   */
  method SimularCascada(configuracion: string, pasos: int, sorteo: seq<seq<Simbolo>>, R: seq<seq<Relleno>>)
    returns (r: Result<Simulacion>)
    requires ConfigDe(configuracion).Some? ==>
               && Sorteo(ConfigDe(configuracion).value.filas, ConfigDe(configuracion).value.columnas, sorteo)
               && Rellenos(ConfigDe(configuracion).value.filas, ConfigDe(configuracion).value.columnas, R)
               && |R| >= Limite(pasos)
    ensures r.Err? <==> ConfigDe(configuracion).None?
    ensures r.Err? ==> r.code == 400
    ensures r.Ok? ==> r.value == Simulacion(MatrizDe(sorteo), Pasos(MatrizDe(sorteo), R[..Limite(pasos)], []))
  {
    if ConfigDe(configuracion).None? {
      return Err(400);
    }
    var cfg := ConfigDe(configuracion).value;
    var a := GenerarMatriz(cfg.filas, cfg.columnas, sorteo);
    var inicial := Valor(a);
    var limite := Limite(pasos);
    ghost var Q := R[..limite];
    ghost var m := inicial;
    var lista: seq<PasoSimulado> := [];
    for paso := 0 to limite
      invariant m == Valor(a) && Rectangular(m) && |m| == a.Length0 && |m[0]| == a.Length1
      invariant |lista| == paso && Rellenos(|m|, |m[0]|, Q[paso..])
      invariant Pasos(m, Q[paso..], lista) == Pasos(inicial, Q, [])
    {
      var combinaciones := EncontrarCombinaciones(a, MIN_COMBO);
      if combinaciones == [] {
        assert lista == Pasos(inicial, Q, []);
        break;
      }
      PasosPaso(m, Q[paso..], lista);
      var info := ProcesarPaso(a, R[paso], paso + 1, combinaciones);
      lista := lista + [info];
      m := Valor(a);
      assert Q[paso..][1..] == Q[paso + 1..];
    }
    assert lista == Pasos(inicial, Q, []);
    r := Ok(Simulacion(inicial, lista));
  }
}
