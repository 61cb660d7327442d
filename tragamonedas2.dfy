/** The 5x3 slot machine with ten paylines of app/services/juegos/tragamonedas2.py. */
module Tragamonedas2 {
  import opened Wrappers
  import opened Modelos

  const REELS: int := 5
  const ROWS: int := 3

  /** The ten symbols of `SIMBOLOS_CON_PESO`, from the most to the least frequent. */
  datatype Simbolo = Cereza | Limon | Naranja | Sandia | Estrella | Campana | Uvas | Siete | Diamante | Corona

  const APUESTAS_PERMITIDAS: seq<int> := [100, 250, 500, 1000, 2500, 5000]

  /** `TABLA_PAGOS[s].get(n, 0)`: multiplier of a run of `n` symbols `s`. */
  function Pago(s: Simbolo, n: int): int
  {
    var base := match s
      case Corona => 200
      case Diamante => 100
      case Siete => 50
      case Uvas => 30
      case Campana => 20
      case Estrella => 10
      case Sandia => 5
      case Naranja => 3
      case Limon => 2
      case Cereza => 1;
    if n == 3 then base
    else if n == 4 then if s == Corona then 500 else 2 * base
    else if n == 5 then if s == Corona then 1000 else if s == Diamante then 500 else 4 * base
    else 0
  }

  /** Every entry of the table pays, and a longer run never pays less. */
  lemma PagoCreciente(s: Simbolo)
    ensures 0 < Pago(s, 3) < Pago(s, 4) < Pago(s, 5)
    ensures forall n :: n !in {3, 4, 5} ==> Pago(s, n) == 0
  {
  }

  type Coordenada = (int, int)

  /** `len(LINEAS_DE_PAGO)`. */
  const NUM_LINEAS: int := 10

  /**
   * `LINEAS_DE_PAGO`: payline `l` visits the columns 0..4 in order, and its
   * cell in column `k` is in row `FilaDeLinea(l, k)`.
   */
  function FilaDeLinea(l: int, k: int): (row: int)
    requires 0 <= l < NUM_LINEAS && 0 <= k < REELS
    ensures 0 <= row < ROWS
  {
    [[0, 0, 0, 0, 0],   // top row
     [1, 1, 1, 1, 1],   // middle row
     [2, 2, 2, 2, 2],   // bottom row
     [0, 1, 2, 1, 0],   // V down
     [2, 1, 0, 1, 2],   // V up
     [0, 0, 1, 2, 2],
     [2, 2, 1, 0, 0],
     [1, 0, 1, 0, 1],   // zigzag
     [1, 2, 1, 2, 1],
     [1, 0, 2, 0, 1]][l][k]
  }

  /** Entry `l` of `LINEAS_DE_PAGO` as (column, row) cells. */
  function LineaDePago(l: int): (linea: seq<Coordenada>)
    requires 0 <= l < NUM_LINEAS
  {
    [(0, FilaDeLinea(l, 0)), (1, FilaDeLinea(l, 1)), (2, FilaDeLinea(l, 2)), (3, FilaDeLinea(l, 3)),
     (4, FilaDeLinea(l, 4))]
  }

  /** The 5 columns of 3 symbols that `generar_reels` draws. */
  predicate Tablero(reels: seq<seq<Simbolo>>)
  {
    |reels| == REELS && forall c :: 0 <= c < |reels| ==> |reels[c]| == ROWS
  }

  /** A line whose cells all lie on the board. */
  predicate EnTablero(linea: seq<Coordenada>)
  {
    forall k :: 0 <= k < |linea| ==> 0 <= linea[k].0 < REELS && 0 <= linea[k].1 < ROWS
  }

  /** Every payline lies on the board. */
  lemma LineaEnTablero(l: int)
    requires 0 <= l < NUM_LINEAS
    ensures EnTablero(LineaDePago(l))
  {
  }

  /** The symbols a line reads off the board, cell by cell. */
  function SimbolosEn(reels: seq<seq<Simbolo>>, linea: seq<Coordenada>): seq<Simbolo>
    requires Tablero(reels) && EnTablero(linea)
  {
    if linea == [] then []
    else SimbolosEn(reels, linea[..|linea| - 1]) + [reels[linea[|linea| - 1].0][linea[|linea| - 1].1]]
  }

  /** Entry `k` of the reading is the symbol in column `linea[k].0`, row `linea[k].1`. */
  lemma {:induction false} SimbolosEnPorCelda(reels: seq<seq<Simbolo>>, linea: seq<Coordenada>)
    requires Tablero(reels) && EnTablero(linea)
    ensures |SimbolosEn(reels, linea)| == |linea|
    ensures forall k :: 0 <= k < |linea| ==> SimbolosEn(reels, linea)[k] == reels[linea[k].0][linea[k].1]
  {
    if linea != [] {
      SimbolosEnPorCelda(reels, linea[..|linea| - 1]);
    }
  }

  /** `obtener_simbolos_en_linea`: the symbols of the line's cells, in order. */
  method ObtenerSimbolosEnLinea(reels: seq<seq<Simbolo>>, linea: seq<Coordenada>) returns (simbolos: seq<Simbolo>)
    requires Tablero(reels) && EnTablero(linea)
    ensures simbolos == SimbolosEn(reels, linea)
  {
    simbolos := [];
    var k := 0;
    while k < |linea|
      invariant 0 <= k <= |linea|
      invariant simbolos == SimbolosEn(reels, linea[..k])
    {
      assert linea[..k + 1][..k] == linea[..k];
      simbolos := simbolos + [reels[linea[k].0][linea[k].1]];
      k := k + 1;
    }
    assert linea[..k] == linea;
  }

  /** The maximal block of equal symbols that starts at `i`. */
  function Bloque(s: seq<Simbolo>, i: int): (n: nat)
    requires 0 <= i < |s|
    ensures 1 <= n <= |s| - i
    decreases |s| - i
  {
    if i + 1 < |s| && s[i + 1] == s[i] then 1 + Bloque(s, i + 1) else 1
  }

  /** A block holds one symbol and is followed by the end of the line or by another symbol. */
  lemma {:induction false} BloqueUniforme(s: seq<Simbolo>, i: int)
    requires 0 <= i < |s|
    ensures forall m :: i <= m < i + Bloque(s, i) ==> s[m] == s[i]
    ensures i + Bloque(s, i) == |s| || s[i + Bloque(s, i)] != s[i]
    decreases |s| - i
  {
    if i + 1 < |s| && s[i + 1] == s[i] {
      BloqueUniforme(s, i + 1);
    }
  }

  /** A block without a successor of the same symbol is exactly that long. */
  lemma {:induction false} BloqueExacto(s: seq<Simbolo>, i: int, n: int)
    requires 0 <= i && 1 <= n && i + n <= |s|
    requires forall m :: i <= m < i + n ==> s[m] == s[i]
    requires i + n == |s| || s[i + n] != s[i]
    ensures Bloque(s, i) == n
    decreases n
  {
    if n > 1 {
      BloqueExacto(s, i + 1, n - 1);
    }
  }

  /** The first block of at least three equal symbols from position `i` on, with its length. */
  function Corrida(s: seq<Simbolo>, i: int): (r: Option<(Simbolo, nat)>)
    requires 0 <= i <= |s|
    ensures r.Some? ==> r.value.1 >= 3
    decreases |s| - i
  {
    if i == |s| then None
    else
      var n := Bloque(s, i);
      if n >= 3 then Some((s[i], n)) else Corrida(s, i + n)
  }

  function Min(a: int, b: int): int
  {
    if a <= b then a else b
  }

  datatype Combinacion = Combinacion(ganancia: int, longitud: int, simbolo: Option<Simbolo>)

  const SIN_PREMIO: Combinacion := Combinacion(0, 0, None)

  /** The value of `evaluar_combinacion`: the first run of three or more, paid on at most five. */
  function Evaluar(s: seq<Simbolo>): Combinacion
  {
    if |s| < 3 then SIN_PREMIO
    else
      match Corrida(s, 0)
      case None => SIN_PREMIO
      case Some(c) => Combinacion(Pago(c.0, Min(c.1, 5)), Min(c.1, 5), Some(c.0))
  }

  /** Three equal symbols in a row from position `k`. */
  predicate Trio(s: seq<Simbolo>, k: int)
  {
    0 <= k && k + 2 < |s| && s[k] == s[k + 1] == s[k + 2]
  }

  /** A payline with three equal symbols in a row. */
  ghost predicate ConTrio(simbolos: seq<Simbolo>)
  {
    exists k :: Trio(simbolos, k)
  }

  /** Position `i` starts a block: it is the first symbol or differs from its predecessor. */
  predicate Inicio(s: seq<Simbolo>, i: int)
  {
    0 <= i <= |s| && (i == 0 || i == |s| || s[i - 1] != s[i])
  }

  /** No three equal symbols in a row start inside a block shorter than three. */
  lemma BloqueCortoSinTrio(s: seq<Simbolo>, j: int)
    requires 0 <= j < |s| && Bloque(s, j) < 3
    ensures forall k :: j <= k < j + Bloque(s, j) ==> !Trio(s, k)
  {
    var n := Bloque(s, j);
    BloqueUniforme(s, j);
    forall k | j <= k < j + n
      ensures !Trio(s, k)
    {
      if k + 2 < |s| {
        assert s[k] == s[j] && j + n <= k + 2 && s[j + n] != s[j];
      }
    }
  }

  /** From a block start `j`, `Corrida` finds nothing exactly when no three equal symbols stand in a row from `j` on. */
  lemma {:induction false} CorridaNinguna(s: seq<Simbolo>, j: int)
    requires Inicio(s, j)
    ensures Corrida(s, j).None? <==> forall k :: j <= k ==> !Trio(s, k)
    decreases |s| - j
  {
    if j < |s| {
      var n := Bloque(s, j);
      BloqueUniforme(s, j);
      if n >= 3 {
        assert Trio(s, j);
      } else {
        BloqueCortoSinTrio(s, j);
        CorridaNinguna(s, j + n);
      }
    }
  }

  /**
   * When `Corrida` finds a run from the block start `j`, the run is a whole
   * block of that symbol and length at a block start `i`, and no three equal
   * symbols stand in a row between `j` and `i`.
   */
  lemma {:induction false} CorridaEncontrada(s: seq<Simbolo>, j: int)
    requires Inicio(s, j) && Corrida(s, j).Some?
    ensures exists i :: (j <= i < |s| && Inicio(s, i) && s[i] == Corrida(s, j).value.0
      && Bloque(s, i) == Corrida(s, j).value.1 >= 3
      && forall k :: j <= k < i ==> !Trio(s, k))
    decreases |s| - j
  {
    var n := Bloque(s, j);
    BloqueUniforme(s, j);
    if n < 3 {
      BloqueCortoSinTrio(s, j);
      CorridaEncontrada(s, j + n);
      var i :| j + n <= i < |s| && Inicio(s, i) && s[i] == Corrida(s, j + n).value.0
        && Bloque(s, i) == Corrida(s, j + n).value.1 >= 3
        && forall k :: j + n <= k < i ==> !Trio(s, k);
      assert forall k :: j <= k < i ==> !Trio(s, k);
    }
  }

  /**
   * `evaluar_combinacion` pays exactly when three equal symbols stand in a
   * row somewhere on the line, and then pays the table entry of the symbol
   * and of the run's length capped at five.
   */
  lemma EvaluarPaga(s: seq<Simbolo>)
    ensures Evaluar(s).simbolo.None? <==> !ConTrio(s)
    ensures Evaluar(s).simbolo.None? ==> Evaluar(s) == SIN_PREMIO
    ensures Evaluar(s).simbolo.Some? ==>
      && 3 <= Evaluar(s).longitud <= 5
      && Evaluar(s).ganancia == Pago(Evaluar(s).simbolo.value, Evaluar(s).longitud)
      && Evaluar(s).ganancia > 0
  {
    CorridaNinguna(s, 0);
    if Evaluar(s).simbolo.Some? {
      PagoCreciente(Evaluar(s).simbolo.value);
    }
  }

  /**
   * The run that pays is the first one: a whole block of the winning symbol
   * whose length, capped at five, is the paid length, with no three equal
   * symbols in a row before it. It need not start at the first reel.
   */
  lemma EvaluarPrimeraCorrida(s: seq<Simbolo>)
    requires Evaluar(s).simbolo.Some?
    ensures exists i :: (Inicio(s, i) && Trio(s, i) && s[i] == Evaluar(s).simbolo.value
      && Evaluar(s).longitud == Min(Bloque(s, i), 5)
      && forall k :: 0 <= k < i ==> !Trio(s, k))
  {
    CorridaEncontrada(s, 0);
    var i :| 0 <= i < |s| && Inicio(s, i) && s[i] == Corrida(s, 0).value.0
      && Bloque(s, i) == Corrida(s, 0).value.1 >= 3
      && forall k :: 0 <= k < i ==> !Trio(s, k);
    BloqueUniforme(s, i);
  }

  /** `evaluar_combinacion`: scans the line for the first run of three or more equal symbols. */
  method EvaluarCombinacion(simbolos: seq<Simbolo>) returns (c: Combinacion)
    ensures c == Evaluar(simbolos)
  {
    if |simbolos| < 3 {
      return SIN_PREMIO;
    }
    var actual := simbolos[0];
    var longitud := 1;
    ghost var inicio := 0;
    var i := 1;
    while i < |simbolos|
      invariant 0 <= inicio < i <= |simbolos| && longitud == i - inicio
      invariant Inicio(simbolos, inicio)
      invariant forall m :: inicio <= m < i ==> simbolos[m] == actual
      invariant Corrida(simbolos, 0) == Corrida(simbolos, inicio)
    {
      if simbolos[i] == actual {
        longitud := longitud + 1;
      } else {
        CerrarBloque(simbolos, inicio, longitud);
        if longitud >= 3 {
          break;
        }
        actual := simbolos[i];
        longitud := 1;
        inicio := i;
      }
      i := i + 1;
    }
    CerrarBloque(simbolos, inicio, longitud);
    if longitud >= 3 {
      longitud := Min(longitud, 5);
      return Combinacion(Pago(actual, longitud), longitud, Some(actual));
    }
    return SIN_PREMIO;
  }

  /** A closed block of `n` equal symbols at `j` is either the run or skipped. */
  lemma CerrarBloque(s: seq<Simbolo>, j: int, n: int)
    requires 0 <= j && 1 <= n && j + n <= |s|
    requires forall m :: j <= m < j + n ==> s[m] == s[j]
    requires j + n == |s| || s[j + n] != s[j]
    ensures Corrida(s, j) == if n >= 3 then Some((s[j], n)) else Corrida(s, j + n)
  {
    BloqueExacto(s, j, n);
  }

  /** The symbols of the first `n` paylines, in order. */
  function Lecturas(reels: seq<seq<Simbolo>>, n: int): (ls: seq<seq<Simbolo>>)
    requires Tablero(reels) && 0 <= n <= NUM_LINEAS
    ensures |ls| == n
  {
    if n == 0 then [] else Lecturas(reels, n - 1) + [Lectura(reels, n - 1)]
  }

  /** The symbols of payline `l`. */
  function Lectura(reels: seq<seq<Simbolo>>, l: int): seq<Simbolo>
    requires Tablero(reels) && 0 <= l < NUM_LINEAS
  {
    LineaEnTablero(l);
    SimbolosEn(reels, LineaDePago(l))
  }

  /** Entry `l` of the readings is payline `l`. */
  lemma {:induction false} LecturasPorLinea(reels: seq<seq<Simbolo>>, n: int, l: int)
    requires Tablero(reels) && 0 <= l < n <= NUM_LINEAS
    ensures Lecturas(reels, n)[l] == Lectura(reels, l)
  {
    if l < n - 1 {
      LecturasPorLinea(reels, n - 1, l);
    }
  }

  /** What a payline showing `simbolos` pays at a bet of `apuesta` per line. */
  function GananciaLinea(simbolos: seq<Simbolo>, apuesta: int): int
  {
    var e := Evaluar(simbolos);
    if e.ganancia > 0 then e.ganancia * apuesta else 0
  }

  /** The prize of the paylines `ls`. */
  function GananciaTotal(ls: seq<seq<Simbolo>>, apuesta: int): int
  {
    if ls == [] then 0 else GananciaTotal(ls[..|ls| - 1], apuesta) + GananciaLinea(ls[|ls| - 1], apuesta)
  }

  /** Entry of `lineas_ganadoras`. */
  datatype LineaGanadora = LineaGanadora(
    linea: int, simbolos: seq<Simbolo>, simboloGanador: Simbolo, cantidad: int, multiplicador: int, ganancia: int)

  /** Entry of `detalles_lineas`. */
  datatype DetalleLinea = DetalleLinea(linea: int, simbolos: seq<Simbolo>, gananciaLinea: int)

  /** The entry of `lineas_ganadoras` for payline number `n` showing `simbolos`, if it wins. */
  function Ganadora(n: int, simbolos: seq<Simbolo>, apuesta: int): seq<LineaGanadora>
  {
    var e := Evaluar(simbolos);
    if e.ganancia > 0 && e.simbolo.Some? then
      [LineaGanadora(n, simbolos, e.simbolo.value, e.longitud, e.ganancia, e.ganancia * apuesta)]
    else []
  }

  /** The winning entries among the paylines `ls`, numbered from 1, in order. */
  function Ganadoras(ls: seq<seq<Simbolo>>, apuesta: int): seq<LineaGanadora>
  {
    if ls == [] then [] else Ganadoras(ls[..|ls| - 1], apuesta) + Ganadora(|ls|, ls[|ls| - 1], apuesta)
  }

  /** `detalles_lineas` of the paylines `ls`, numbered from 1. */
  function Detalles(ls: seq<seq<Simbolo>>, apuesta: int): (d: seq<DetalleLinea>)
    ensures |d| == |ls|
  {
    if ls == [] then []
    else Detalles(ls[..|ls| - 1], apuesta) + [DetalleLinea(|ls|, ls[|ls| - 1], GananciaLinea(ls[|ls| - 1], apuesta))]
  }

  function SumaGanancias(g: seq<LineaGanadora>): int
  {
    if g == [] then 0 else SumaGanancias(g[..|g| - 1]) + g[|g| - 1].ganancia
  }

  lemma SumaGananciasConcat(a: seq<LineaGanadora>, b: seq<LineaGanadora>)
    requires |b| <= 1
    ensures SumaGanancias(a + b) == SumaGanancias(a) + if b == [] then 0 else b[0].ganancia
  {
    if b != [] {
      assert (a + b)[..|a + b| - 1] == a;
    } else {
      assert a + b == a;
    }
  }

  /** What one payline contributes: nothing, or a positive prize with its winning entry. */
  lemma LineaAporta(n: int, simbolos: seq<Simbolo>, apuesta: int)
    requires apuesta > 0
    ensures GananciaLinea(simbolos, apuesta) >= 0
    ensures GananciaLinea(simbolos, apuesta) > 0 <==> ConTrio(simbolos)
    ensures |Ganadora(n, simbolos, apuesta)| == if ConTrio(simbolos) then 1 else 0
    ensures Ganadora(n, simbolos, apuesta) != [] ==>
      Ganadora(n, simbolos, apuesta)[0].ganancia == GananciaLinea(simbolos, apuesta) > 0
  {
    var e := Evaluar(simbolos);
    EvaluarPaga(simbolos);
    if e.simbolo.Some? {
      ProductoPositivo(e.ganancia, apuesta);
    }
  }

  lemma ProductoPositivo(a: int, b: int)
    requires a > 0 && b > 0
    ensures a * b > 0
  {
  }

  /** The winning entries of the paylines `ls` all pay, and there are at most as many as lines. */
  lemma {:induction false} GanadorasPagan(ls: seq<seq<Simbolo>>, apuesta: int)
    requires apuesta > 0
    ensures |Ganadoras(ls, apuesta)| <= |ls|
    ensures forall k :: 0 <= k < |Ganadoras(ls, apuesta)| ==> Ganadoras(ls, apuesta)[k].ganancia > 0
  {
    if ls != [] {
      GanadorasPagan(ls[..|ls| - 1], apuesta);
      LineaAporta(|ls|, ls[|ls| - 1], apuesta);
    }
  }

  /** The prize of the paylines `ls` is the sum of their winning entries. */
  lemma {:induction false} GanadorasSuman(ls: seq<seq<Simbolo>>, apuesta: int)
    requires apuesta > 0
    ensures GananciaTotal(ls, apuesta) == SumaGanancias(Ganadoras(ls, apuesta))
  {
    if ls != [] {
      var p := ls[..|ls| - 1];
      GanadorasSuman(p, apuesta);
      LineaAporta(|ls|, ls[|ls| - 1], apuesta);
      SumaGananciasConcat(Ganadoras(p, apuesta), Ganadora(|ls|, ls[|ls| - 1], apuesta));
    }
  }

  /**
   * With a positive bet the prize of the paylines `ls` is never negative, and
   * it is positive exactly when one of them shows three equal symbols in a
   * row, which is exactly when there is a winning entry.
   */
  lemma {:induction false} HayPremio(ls: seq<seq<Simbolo>>, apuesta: int)
    requires apuesta > 0
    ensures GananciaTotal(ls, apuesta) >= 0
    ensures GananciaTotal(ls, apuesta) > 0 <==> exists l :: 0 <= l < |ls| && ConTrio(ls[l])
    ensures GananciaTotal(ls, apuesta) > 0 <==> |Ganadoras(ls, apuesta)| > 0
  {
    if ls != [] {
      var p := ls[..|ls| - 1];
      HayPremio(p, apuesta);
      LineaAporta(|ls|, ls[|ls| - 1], apuesta);
      assert forall l :: 0 <= l < |p| ==> p[l] == ls[l];
    }
  }

  /**
   * The loop of `jugar_tragamonedas2` over the first `lineasActivas`
   * paylines: the prize, the winning entries and one detail per line.
   */
  method EvaluarLineas(reels: seq<seq<Simbolo>>, lineasActivas: int, apuesta: int)
    returns (gananciaTotal: int, ganadoras: seq<LineaGanadora>, detalles: seq<DetalleLinea>)
    requires Tablero(reels) && 0 <= lineasActivas <= NUM_LINEAS
    ensures gananciaTotal == GananciaTotal(Lecturas(reels, lineasActivas), apuesta)
    ensures ganadoras == Ganadoras(Lecturas(reels, lineasActivas), apuesta)
    ensures detalles == Detalles(Lecturas(reels, lineasActivas), apuesta)
  {
    ghost var ls := Lecturas(reels, lineasActivas);
    gananciaTotal, ganadoras, detalles := 0, [], [];
    var i := 0;
    while i < lineasActivas
      invariant 0 <= i <= lineasActivas
      invariant gananciaTotal == GananciaTotal(ls[..i], apuesta)
      invariant ganadoras == Ganadoras(ls[..i], apuesta)
      invariant detalles == Detalles(ls[..i], apuesta)
    {
      var gananciaLinea, ganadora, detalle := EvaluarLinea(reels, i, apuesta);
      LecturasPorLinea(reels, lineasActivas, i);
      SiguienteLinea(ls, i, apuesta);
      gananciaTotal := gananciaTotal + gananciaLinea;
      ganadoras := ganadoras + ganadora;
      detalles := detalles + [detalle];
      i := i + 1;
    }
    assert ls[..lineasActivas] == ls;
  }

  /** The body of the loop of `jugar_tragamonedas2` for payline `i`. */
  method EvaluarLinea(reels: seq<seq<Simbolo>>, i: int, apuesta: int)
    returns (gananciaLinea: int, ganadora: seq<LineaGanadora>, detalle: DetalleLinea)
    requires Tablero(reels) && 0 <= i < NUM_LINEAS
    ensures gananciaLinea == GananciaLinea(Lectura(reels, i), apuesta)
    ensures ganadora == Ganadora(i + 1, Lectura(reels, i), apuesta)
    ensures detalle == DetalleLinea(i + 1, Lectura(reels, i), GananciaLinea(Lectura(reels, i), apuesta))
  {
    var linea := LineaDePago(i);
    LineaEnTablero(i);
    var simbolos := ObtenerSimbolosEnLinea(reels, linea);
    var resultado := EvaluarCombinacion(simbolos);
    gananciaLinea, ganadora := 0, [];
    if resultado.ganancia > 0 {
      EvaluarPaga(simbolos);
      gananciaLinea := resultado.ganancia * apuesta;
      ganadora := [LineaGanadora(i + 1, simbolos, resultado.simbolo.value, resultado.longitud,
                                 resultado.ganancia, gananciaLinea)];
    }
    detalle := DetalleLinea(i + 1, simbolos, if resultado.ganancia > 0 then resultado.ganancia * apuesta else 0);
  }

  /** One more payline adds its prize and its winning entry, if any. */
  lemma SiguienteLinea(ls: seq<seq<Simbolo>>, i: int, apuesta: int)
    requires 0 <= i < |ls|
    ensures GananciaTotal(ls[..i + 1], apuesta) == GananciaTotal(ls[..i], apuesta) + GananciaLinea(ls[i], apuesta)
    ensures Ganadoras(ls[..i + 1], apuesta) == Ganadoras(ls[..i], apuesta) + Ganadora(i + 1, ls[i], apuesta)
    ensures Detalles(ls[..i + 1], apuesta)
            == Detalles(ls[..i], apuesta) + [DetalleLinea(i + 1, ls[i], GananciaLinea(ls[i], apuesta))]
  {
    assert ls[..i + 1][..i] == ls[..i];
  }

  /** Row `row` of the reels in the frontend's layout: that row of every column. */
  function FilaTranspuesta(reels: seq<seq<Simbolo>>, row: int): seq<Simbolo>
    requires Tablero(reels) && 0 <= row < ROWS
  {
    [reels[0][row], reels[1][row], reels[2][row], reels[3][row], reels[4][row]]
  }

  /** The 3x5 grid of `reels_transpuestos`. */
  function Transpuesta(reels: seq<seq<Simbolo>>): seq<seq<Simbolo>>
    requires Tablero(reels)
  {
    [FilaTranspuesta(reels, 0), FilaTranspuesta(reels, 1), FilaTranspuesta(reels, 2)]
  }

  /** The frontend grid is the transpose of the reels: cell (row, col) is `reels[col][row]`. */
  lemma TranspuestaPorCelda(reels: seq<seq<Simbolo>>)
    requires Tablero(reels)
    ensures |Transpuesta(reels)| == ROWS
    ensures forall row :: 0 <= row < ROWS ==> |Transpuesta(reels)[row]| == REELS
    ensures forall row, col :: 0 <= row < ROWS && 0 <= col < REELS ==> Transpuesta(reels)[row][col] == reels[col][row]
  {
  }

  /** The nested loops that build `reels_transpuestos`. */
  method Transponer(reels: seq<seq<Simbolo>>) returns (t: seq<seq<Simbolo>>)
    requires Tablero(reels)
    ensures t == Transpuesta(reels)
  {
    t := [];
    var row := 0;
    while row < ROWS
      invariant 0 <= row <= ROWS && t == Transpuesta(reels)[..row]
    {
      var fila := [];
      var col := 0;
      while col < REELS
        invariant 0 <= col <= REELS && fila == FilaTranspuesta(reels, row)[..col]
      {
        fila := fila + [reels[col][row]];
        col := col + 1;
      }
      assert fila == FilaTranspuesta(reels, row);
      assert Transpuesta(reels)[..row + 1] == Transpuesta(reels)[..row] + [FilaTranspuesta(reels, row)];
      t := t + [fila];
      row := row + 1;
    }
    assert Transpuesta(reels)[..ROWS] == Transpuesta(reels);
  }

  /** `apuesta_total`: the bet per line times the number of active lines. */
  function ApuestaTotal(apuesta: int, lineasActivas: int): int
  {
    apuesta * lineasActivas
  }

  /** What a spin shows and pays: the frontend grid, the prize, the winning entries and the details. */
  datatype Giro = Giro(
    reels: seq<seq<Simbolo>>, gananciaTotal: int, lineasGanadoras: seq<LineaGanadora>, detallesLineas: seq<DetalleLinea>)

  /** The spin of `reels` on the first `lineasActivas` paylines at `apuesta` per line. */
  function GiroDe(reels: seq<seq<Simbolo>>, lineasActivas: int, apuesta: int): Giro
    requires Tablero(reels) && 0 <= lineasActivas <= NUM_LINEAS
  {
    var ls := Lecturas(reels, lineasActivas);
    Giro(Transpuesta(reels), GananciaTotal(ls, apuesta), Ganadoras(ls, apuesta), Detalles(ls, apuesta))
  }

  /** The part of `jugar_tragamonedas2` between the debit and the credit. */
  method Girar(reels: seq<seq<Simbolo>>, lineasActivas: int, apuesta: int) returns (g: Giro)
    requires Tablero(reels) && 0 <= lineasActivas <= NUM_LINEAS
    ensures g == GiroDe(reels, lineasActivas, apuesta)
  {
    var gananciaTotal, ganadoras, detalles := EvaluarLineas(reels, lineasActivas, apuesta);
    var transpuestos := Transponer(reels);
    g := Giro(transpuestos, gananciaTotal, ganadoras, detalles);
  }

  datatype Jugada = Jugada(
    giro: Giro, nuevoSaldo: real, apuestaPorLinea: int, apuestaTotal: int, lineasActivas: int, totalLineasGanadoras: int)

  /**
   * `jugar_tragamonedas2`. `reels`, the five columns of `generar_reels`, are
   * the random draw. The balance loses the stake of every active line and
   * gains the prize of the spin.
   */
  method JugarTragamonedas2(db: Db, uid: int, apuesta: int, lineasActivas: int, reels: seq<seq<Simbolo>>)
    returns (r: Result<Jugada>)
    requires Tablero(reels)
    modifies db`usuarios
    ensures apuesta !in APUESTAS_PERMITIDAS ==> r == Err(400)
    ensures apuesta in APUESTAS_PERMITIDAS && !(1 <= lineasActivas <= NUM_LINEAS) ==> r == Err(400)
    ensures apuesta in APUESTAS_PERMITIDAS && 1 <= lineasActivas <= NUM_LINEAS && uid !in old(db.usuarios)
            ==> r == Err(404)
    ensures apuesta in APUESTAS_PERMITIDAS && 1 <= lineasActivas <= NUM_LINEAS && uid in old(db.usuarios)
            && old(db.usuarios[uid].saldo) < ApuestaTotal(apuesta, lineasActivas) as real
            ==> r == Err(400)
    ensures r.Ok? <==> apuesta in APUESTAS_PERMITIDAS && 1 <= lineasActivas <= NUM_LINEAS
                       && uid in old(db.usuarios)
                       && old(db.usuarios[uid].saldo) >= ApuestaTotal(apuesta, lineasActivas) as real
    ensures r.Err? ==> db.usuarios == old(db.usuarios)
    ensures r.Ok? ==> r.value.giro == GiroDe(reels, lineasActivas, apuesta)
    ensures r.Ok? ==>
      && db.usuarios == ConSaldo(old(db.usuarios), uid,
                                 (r.value.giro.gananciaTotal - ApuestaTotal(apuesta, lineasActivas)) as real)
      && r.value.nuevoSaldo == db.usuarios[uid].saldo
      && r.value.apuestaPorLinea == apuesta && r.value.apuestaTotal == ApuestaTotal(apuesta, lineasActivas)
      && r.value.lineasActivas == lineasActivas
      && r.value.totalLineasGanadoras == |r.value.giro.lineasGanadoras|
  {
    if apuesta !in APUESTAS_PERMITIDAS {
      return Err(400);
    }
    if lineasActivas < 1 || lineasActivas > NUM_LINEAS {
      return Err(400);
    }
    if uid !in db.usuarios {
      return Err(404);
    }
    var usuario := db.usuarios[uid];
    var apuestaTotal := ApuestaTotal(apuesta, lineasActivas);
    if usuario.saldo < apuestaTotal as real {
      return Err(400);
    }
    var saldo := usuario.saldo - apuestaTotal as real;
    var giro := Girar(reels, lineasActivas, apuesta);
    saldo := saldo + giro.gananciaTotal as real;
    db.usuarios := db.usuarios[uid := usuario.(saldo := saldo)];
    r := Ok(Jugada(giro, saldo, apuesta, apuestaTotal, lineasActivas, |giro.lineasGanadoras|));
  }
}
