/** The single-zero roulette of app/services/juegos/ruletaeuropea.py. */
module RuletaEuropea {
  import opened Wrappers
  import opened Modelos
  import opened Redondeo

  const APUESTA_MINIMA: int := 10

  /** `NUMEROS_RULETA`: the pockets 0..36 a spin draws from. */
  const NUMEROS_RULETA: seq<int> := [
    0, 1, 2, 3, 4, 5, 6, 7, 8, 9, 10, 11, 12, 13, 14, 15, 16, 17, 18,
    19, 20, 21, 22, 23, 24, 25, 26, 27, 28, 29, 30, 31, 32, 33, 34, 35, 36
  ]

  datatype Color = Verde | Rojo | Negro

  /**
   * `COLORES`, the colour of every pocket of the wheel, listed by pocket
   * number rather than in wheel order: entry n is the colour of n.
   */
  const COLORES: seq<Color> := [
    Verde, Rojo, Negro, Rojo, Negro, Rojo, Negro, Rojo, Negro, Rojo,
    Negro, Negro, Rojo, Negro, Rojo, Negro, Rojo, Negro, Rojo, Rojo,
    Negro, Rojo, Negro, Rojo, Negro, Rojo, Negro, Rojo, Negro, Negro,
    Rojo, Negro, Rojo, Negro, Rojo, Negro, Rojo
  ]

  /** `obtener_color`: the table entry, green for a number the table lacks. */
  function ColorDe(n: int): (c: Color)
    ensures n == 0 ==> c == Verde
    ensures !(0 <= n <= 36) ==> c == Verde
  {
    if 0 <= n < |COLORES| then COLORES[n] else Verde
  }

  /** Entries among the first k of `s` equal to `c`. */
  function Cuenta(s: seq<Color>, c: Color, k: nat): nat
    requires k <= |s|
  {
    if k == 0 then 0 else Cuenta(s, c, k - 1) + (if s[k - 1] == c then 1 else 0)
  }

  /**
   * A 37-pocket colouring whose zero is green and in which each pair
   * (2j - 1, 2j) of 1..36 holds one red and one black pocket.
   */
  predicate Emparejada(s: seq<Color>)
  {
    && |s| == 37 && s[0] == Verde
    && forall j :: 1 <= j <= 18 ==> s[2 * j - 1] != Verde && s[2 * j] != Verde && s[2 * j - 1] != s[2 * j]
  }

  lemma ParejaDelPano(j: int)
    requires 1 <= j <= 18
    ensures COLORES[2 * j - 1] != Verde && COLORES[2 * j] != Verde && COLORES[2 * j - 1] != COLORES[2 * j]
  {
  }

  lemma PanoEmparejado()
    ensures Emparejada(COLORES)
  {
    forall j | 1 <= j <= 18
      ensures COLORES[2 * j - 1] != Verde && COLORES[2 * j] != Verde && COLORES[2 * j - 1] != COLORES[2 * j]
    {
      ParejaDelPano(j);
    }
  }

  /** Every pair adds one red and one black pocket to the count. */
  lemma {:induction false} CuentaPorParejas(s: seq<Color>, j: nat)
    requires Emparejada(s) && j <= 18
    ensures Cuenta(s, Rojo, 2 * j + 1) == j && Cuenta(s, Negro, 2 * j + 1) == j && Cuenta(s, Verde, 2 * j + 1) == 1
  {
    if j > 0 {
      CuentaPorParejas(s, j - 1);
      assert s[2 * j - 1] != Verde && s[2 * j] != Verde && s[2 * j - 1] != s[2 * j];
    }
  }

  /** The table covers the 37 pockets: one green (the zero), 18 red and 18 black. */
  lemma ColoresDelPano()
    ensures |COLORES| == 37
    ensures Cuenta(COLORES, Verde, 37) == 1 && Cuenta(COLORES, Rojo, 37) == 18 && Cuenta(COLORES, Negro, 37) == 18
  {
    PanoEmparejado();
    CuentaPorParejas(COLORES, 18);
  }

  /** `es_par`: zero is neither even nor odd. */
  predicate EsPar(n: int)
  {
    if n == 0 then false else n % 2 == 0
  }

  /** `es_impar`. */
  predicate EsImpar(n: int)
  {
    if n == 0 then false else n % 2 == 1
  }

  /** `es_bajo`. */
  predicate EsBajo(n: int)
  {
    1 <= n <= 18
  }

  /** `es_alto`. */
  predicate EsAlto(n: int)
  {
    19 <= n <= 36
  }

  /** On the pockets 1..36 exactly one of even and odd holds and exactly one of low and high. */
  lemma ParidadYMitades(n: int)
    requires 0 <= n <= 36
    ensures n == 0 ==> !EsPar(n) && !EsImpar(n) && !EsBajo(n) && !EsAlto(n)
    ensures n != 0 ==> (EsPar(n) <==> !EsImpar(n)) && (EsBajo(n) <==> !EsAlto(n))
  {
  }

  /** `obtener_docena`: 0 for the zero, then 1, 2 or 3 for 1-12, 13-24 and the rest. */
  function Docena(n: int): (d: int)
    ensures 0 <= d <= 3
    ensures d == 0 <==> n == 0
  {
    if n == 0 then 0
    else if 1 <= n <= 12 then 1
    else if 13 <= n <= 24 then 2
    else 3
  }

  /** The dozen of a pocket is its rank divided by twelve, rounded up. */
  lemma DocenaPorDivision(n: int)
    requires 1 <= n <= 36
    ensures Docena(n) == (n - 1) / 12 + 1
  {
  }

  const COLUMNA_1: seq<int> := [1, 4, 7, 10, 13, 16, 19, 22, 25, 28, 31, 34]
  const COLUMNA_2: seq<int> := [2, 5, 8, 11, 14, 17, 20, 23, 26, 29, 32, 35]
  const COLUMNA_3: seq<int> := [3, 6, 9, 12, 15, 18, 21, 24, 27, 30, 33, 36]

  /** `obtener_columna`: the listed column containing `n`, 0 for anything else. */
  function Columna(n: int): (c: int)
    ensures 0 <= c <= 3
  {
    if n == 0 then 0
    else if n in COLUMNA_1 then 1
    else if n in COLUMNA_2 then 2
    else if n in COLUMNA_3 then 3
    else 0
  }

  /** Column c lists c, c + 3, ..., c + 33. */
  lemma ColumnasAritmeticas()
    ensures |COLUMNA_1| == |COLUMNA_2| == |COLUMNA_3| == 12
    ensures forall j :: 0 <= j < 12 ==> COLUMNA_1[j] == 3 * j + 1
    ensures forall j :: 0 <= j < 12 ==> COLUMNA_2[j] == 3 * j + 2
    ensures forall j :: 0 <= j < 12 ==> COLUMNA_3[j] == 3 * j + 3
  {
  }

  /** The listed columns are the residues of n - 1 modulo 3. */
  lemma ColumnaPorResto(n: int)
    requires 1 <= n <= 36
    ensures Columna(n) == (n - 1) % 3 + 1
  {
    ColumnasAritmeticas();
    var k := (n - 1) / 3;
    var r := (n - 1) % 3;
    assert n == 3 * k + r + 1 && 0 <= k < 12;
    if r == 0 {
      assert COLUMNA_1[k] == n;
    } else if r == 1 {
      assert COLUMNA_2[k] == n;
      assert n !in COLUMNA_1 by {
        forall j | 0 <= j < 12 ensures COLUMNA_1[j] != n {
        }
      }
    } else {
      assert COLUMNA_3[k] == n;
      assert n !in COLUMNA_1 && n !in COLUMNA_2 by {
        forall j | 0 <= j < 12 ensures COLUMNA_1[j] != n && COLUMNA_2[j] != n {
        }
      }
    }
  }

  /** The `valor` of a bet as the JSON body sends it; `Nulo` when the key is missing. */
  datatype Valor = Nulo | Entero(i: int) | Texto(s: string) | Lista(xs: seq<int>)

  /**
   * The keys of the request dictionary the handler tells apart; `Otro` is any
   * other key, which never wins.
   */
  datatype Tipo = NumeroPleno | RojoNegro | ParImpar | BajoAlto | DocenaT | ColumnaT
                | Split | Calle | Esquina | Linea | Otro(nombre: string)

  /** The kinds of the `split/calle/esquina/linea` branch. */
  predicate EsMultiple(t: Tipo)
  {
    t.Split? || t.Calle? || t.Esquina? || t.Linea?
  }

  /** One entry `tipo: {"valor": ..., "monto": ...}` of the request dictionary. */
  datatype Apuesta = Apuesta(tipo: Tipo, valor: Valor, monto: int)

  /**
   * `TIPOS_APUESTA[tipo]["multiplicador"]`. The colour entry spells its key
   * "multipliccionador" and the split/street/corner/line kinds have no entry,
   * so for them the lookup fails (None).
   */
  function Multiplicador(t: Tipo): (m: Option<int>)
    ensures m.Some? <==> t.NumeroPleno? || t.ParImpar? || t.BajoAlto? || t.DocenaT? || t.ColumnaT?
  {
    match t
    case NumeroPleno => Some(35)
    case DocenaT => Some(2)
    case ColumnaT => Some(2)
    case ParImpar => Some(2)
    case BajoAlto => Some(2)
    case _ => None
  }

  function NombreColor(c: Color): string
  {
    match c
    case Verde => "verde"
    case Rojo => "rojo"
    case Negro => "negro"
  }

  /**
   * The winning condition of each branch of the handler for a bet of kind `t`
   * with value `v` when `n` comes up. The split/street/corner/line condition is
   * only meaningful on a list; see `Evaluar` for the other values.
   */
  predicate Acierta(t: Tipo, v: Valor, n: int)
  {
    match t
    case NumeroPleno => v == Entero(n)
    case RojoNegro => v == Texto(NombreColor(ColorDe(n))) && n != 0
    case ParImpar => (v == Texto("par") && EsPar(n)) || (v == Texto("impar") && EsImpar(n))
    case BajoAlto => (v == Texto("bajo") && EsBajo(n)) || (v == Texto("alto") && EsAlto(n))
    case DocenaT => v == Entero(Docena(n))
    case ColumnaT => v == Entero(Columna(n))
    case Otro(_) => false
    case _ => v.Lista? && n in v.xs
  }

  /**
   * One iteration of the payout loop: `Ok(None)` for a losing bet,
   * `Ok(Some(ganancia))` for a winning one and `Err(500)` for the exceptions:
   * the failed multiplier lookup of a winning bet, and `numero_ganador in valor`
   * on a value that is not a list. A bet that does not raise wins exactly
   * when it hits.
   */
  function Evaluar(a: Apuesta, n: int): (e: Result<Option<int>>)
    ensures e.Ok? ==> (e.value.Some? <==> Acierta(a.tipo, a.valor, n))
    ensures e.Err? <==> (a.tipo == RojoNegro && Acierta(RojoNegro, a.valor, n))
                        || (EsMultiple(a.tipo) && (!a.valor.Lista? || n in a.valor.xs))
    ensures e.Err? ==> e.code == 500
    ensures e.Ok? && e.value.Some? ==>
              Multiplicador(a.tipo).Some? && e.value.value == a.monto * Multiplicador(a.tipo).value
  {
    var t := a.tipo;
    if EsMultiple(t) && !a.valor.Lista? then Err(500)
    else if !Acierta(t, a.valor, n) then Ok(None)
    else match Multiplicador(t)
      case None => Err(500)
      case Some(m) => Ok(Some(a.monto * m))
  }

  /**
   * The exceptions happen exactly on a winning colour bet, on a winning
   * split/street/corner/line bet, and on a split/street/corner/line bet whose
   * value is not a list; an unrecognised kind always loses.
   */
  lemma EvaluarFalla(a: Apuesta, n: int)
    ensures Evaluar(a, n).Err? <==>
              (a.tipo == RojoNegro && Acierta(RojoNegro, a.valor, n))
              || (EsMultiple(a.tipo) && (!a.valor.Lista? || n in a.valor.xs))
    ensures a.tipo.Otro? ==> Evaluar(a, n) == Ok(None)
    ensures Evaluar(a, n).Ok? ==> (Evaluar(a, n).value.Some? <==> Acierta(a.tipo, a.valor, n))
  {
  }

  /** A straight-up bet pays 35 times, the even-chance and third bets twice. */
  lemma Pagos(monto: int, n: int, v: int)
    requires 0 <= n <= 36
    ensures Evaluar(Apuesta(NumeroPleno, Entero(v), monto), n) ==
              if v == n then Ok(Some(35 * monto)) else Ok(None)
    ensures Evaluar(Apuesta(DocenaT, Entero(v), monto), n) ==
              if v == Docena(n) then Ok(Some(2 * monto)) else Ok(None)
    ensures Evaluar(Apuesta(ColumnaT, Entero(v), monto), n) ==
              if v == Columna(n) then Ok(Some(2 * monto)) else Ok(None)
    ensures Evaluar(Apuesta(ParImpar, Texto("par"), monto), n) ==
              if EsPar(n) then Ok(Some(2 * monto)) else Ok(None)
    ensures Evaluar(Apuesta(BajoAlto, Texto("alto"), monto), n) ==
              if EsAlto(n) then Ok(Some(2 * monto)) else Ok(None)
  {
  }

  /** An entry of `apuestas_ganadoras` or `apuestas_perdedoras`. */
  datatype Registro = Registro(tipo: Tipo, valor: Valor, monto: int, ganancia: int)

  datatype Resolucion = Resolucion(gananciaTotal: int, ganadoras: seq<Registro>, perdedoras: seq<Registro>)

  /** The payout loop over the bets in request order; the first exception aborts it. */
  function Resolver(apuestas: seq<Apuesta>, n: int): Result<Resolucion>
  {
    if |apuestas| == 0 then Ok(Resolucion(0, [], []))
    else
      var a := apuestas[|apuestas| - 1];
      match Resolver(apuestas[..|apuestas| - 1], n)
      case Err(c) => Err(c)
      case Ok(r) =>
        match Evaluar(a, n)
        case Err(c) => Err(c)
        case Ok(None) => Ok(r.(perdedoras := r.perdedoras + [Registro(a.tipo, a.valor, a.monto, 0)]))
        case Ok(Some(g)) =>
          Ok(r.(gananciaTotal := r.gananciaTotal + g,
                ganadoras := r.ganadoras + [Registro(a.tipo, a.valor, a.monto, g)]))
  }

  function SumaGanancias(rs: seq<Registro>): int
  {
    if |rs| == 0 then 0 else SumaGanancias(rs[..|rs| - 1]) + rs[|rs| - 1].ganancia
  }

  lemma SumaGananciasUltimo(rs: seq<Registro>, x: Registro)
    ensures SumaGanancias(rs + [x]) == SumaGanancias(rs) + x.ganancia
  {
    assert (rs + [x])[..|rs|] == rs;
  }

  /** The loop fails exactly when some bet raises. */
  lemma {:induction false} ResolverFalla(apuestas: seq<Apuesta>, n: int)
    ensures Resolver(apuestas, n).Err? <==> exists i :: 0 <= i < |apuestas| && Evaluar(apuestas[i], n).Err?
  {
    if |apuestas| > 0 {
      var pre := apuestas[..|apuestas| - 1];
      ResolverFalla(pre, n);
      assert forall i :: 0 <= i < |pre| ==> pre[i] == apuestas[i];
    }
  }

  /**
   * When the loop completes, every bet is recorded once, as a winner or a
   * loser, losers are recorded with ganancia 0, and `ganancia_total` is the
   * sum of the winners' ganancias.
   */
  lemma {:induction false} ResolverCompleto(apuestas: seq<Apuesta>, n: int)
    requires Resolver(apuestas, n).Ok?
    ensures var r := Resolver(apuestas, n).value;
              && |r.ganadoras| + |r.perdedoras| == |apuestas|
              && (forall k :: 0 <= k < |r.perdedoras| ==> r.perdedoras[k].ganancia == 0)
              && r.gananciaTotal == SumaGanancias(r.ganadoras)
  {
    if |apuestas| > 0 {
      var pre := apuestas[..|apuestas| - 1];
      var a := apuestas[|apuestas| - 1];
      ResolverCompleto(pre, n);
      var r := Resolver(pre, n).value;
      match Evaluar(a, n).value
      case None =>
      case Some(g) =>
        SumaGananciasUltimo(r.ganadoras, Registro(a.tipo, a.valor, a.monto, g));
    }
  }

  /** With all stakes at least the minimum, the winnings of a completed loop are never negative. */
  lemma {:induction false} ResolverNoNegativo(apuestas: seq<Apuesta>, n: int)
    requires forall i :: 0 <= i < |apuestas| ==> apuestas[i].monto >= APUESTA_MINIMA
    requires Resolver(apuestas, n).Ok?
    ensures Resolver(apuestas, n).value.gananciaTotal >= 0
  {
    if |apuestas| > 0 {
      ResolverNoNegativo(apuestas[..|apuestas| - 1], n);
    }
  }

  /** `sum(apuesta["monto"] for apuesta in apuestas.values())`. */
  function TotalApostado(apuestas: seq<Apuesta>): int
  {
    if |apuestas| == 0 then 0 else TotalApostado(apuestas[..|apuestas| - 1]) + apuestas[|apuestas| - 1].monto
  }

  predicate MontosValidos(apuestas: seq<Apuesta>)
  {
    forall i :: 0 <= i < |apuestas| ==> apuestas[i].monto >= APUESTA_MINIMA
  }

  /** The payout loop of the handler. */
  method ResolverApuestas(apuestas: seq<Apuesta>, n: int) returns (res: Result<Resolucion>)
    ensures res == Resolver(apuestas, n)
  {
    var gananciaTotal := 0;
    var ganadoras: seq<Registro> := [];
    var perdedoras: seq<Registro> := [];
    var i := 0;
    while i < |apuestas|
      invariant 0 <= i <= |apuestas|
      invariant Resolver(apuestas[..i], n) == Ok(Resolucion(gananciaTotal, ganadoras, perdedoras))
    {
      assert apuestas[..i + 1][..i] == apuestas[..i];
      var a := apuestas[i];
      var e := Evaluar(a, n);
      if e.Err? {
        assert Resolver(apuestas[..i + 1], n).Err?;
        PrefijoFallido(apuestas, n, i + 1);
        return Err(500);
      }
      if e.value.Some? {
        ganadoras := ganadoras + [Registro(a.tipo, a.valor, a.monto, e.value.value)];
        gananciaTotal := gananciaTotal + e.value.value;
      } else {
        perdedoras := perdedoras + [Registro(a.tipo, a.valor, a.monto, 0)];
      }
      i := i + 1;
    }
    assert apuestas[..i] == apuestas;
    res := Ok(Resolucion(gananciaTotal, ganadoras, perdedoras));
  }

  /** Once a prefix of the bets raises, so does the whole loop, with the same error. */
  lemma {:induction false} PrefijoFallido(apuestas: seq<Apuesta>, n: int, k: nat)
    requires k <= |apuestas| && Resolver(apuestas[..k], n) == Err(500)
    ensures Resolver(apuestas, n) == Err(500)
    decreases |apuestas| - k
  {
    if k < |apuestas| {
      assert apuestas[..k + 1][..k] == apuestas[..k];
      PrefijoFallido(apuestas, n, k + 1);
    } else {
      assert apuestas[..k] == apuestas;
    }
  }

  /** What the response reports about the winning number. */
  datatype Numero = Numero(
    numeroGanador: int, colorGanador: Color, esPar: bool, esImpar: bool, esBajo: bool, esAlto: bool,
    docena: int, columna: int)

  function NumeroDe(n: int): Numero
  {
    Numero(n, ColorDe(n), EsPar(n), EsImpar(n), EsBajo(n), EsAlto(n), Docena(n), Columna(n))
  }

  datatype Jugada = Jugada(numero: Numero, totalApostado: int, resolucion: Resolucion, nuevoSaldo: real)

  /**
   * `jugar_ruleta_europea`. The request dictionary is the sequence of its
   * entries in insertion order; `numero` is the pocket `girar` draws from
   * `NUMEROS_RULETA`. The
   * balance loses the total staked and gains the winners' payouts, and any
   * exception in the payout loop leaves it as it was.
   */
  method JugarRuletaEuropea(db: Db, uid: int, apuestas: seq<Apuesta>, numero: int) returns (r: Result<Jugada>)
    requires 0 <= numero <= 36
    modifies db`usuarios
    ensures uid !in old(db.usuarios) ==> r == Err(404)
    ensures uid in old(db.usuarios) && |apuestas| == 0 ==> r == Err(400)
    ensures uid in old(db.usuarios) && |apuestas| > 0 && !MontosValidos(apuestas) ==> r == Err(400)
    ensures (uid in old(db.usuarios) && |apuestas| > 0 && MontosValidos(apuestas)
             && old(db.usuarios[uid].saldo) < TotalApostado(apuestas) as real) ==> r == Err(400)
    ensures (uid in old(db.usuarios) && |apuestas| > 0 && MontosValidos(apuestas)
             && old(db.usuarios[uid].saldo) >= TotalApostado(apuestas) as real)
            ==> (r.Err? <==> Resolver(apuestas, numero).Err?) && (r.Err? ==> r == Err(500))
    ensures r.Err? ==> db.usuarios == old(db.usuarios)
    ensures r.Ok? ==>
      && uid in old(db.usuarios) && |apuestas| > 0 && MontosValidos(apuestas)
      && old(db.usuarios[uid].saldo) >= TotalApostado(apuestas) as real
      && Resolver(apuestas, numero).Ok?
      && r.value.resolucion == Resolver(apuestas, numero).value
      && db.usuarios == ConSaldo(old(db.usuarios), uid,
                                 (r.value.resolucion.gananciaTotal - TotalApostado(apuestas)) as real)
      && r.value == Jugada(NumeroDe(numero), TotalApostado(apuestas), r.value.resolucion, db.usuarios[uid].saldo)
  {
    if uid !in db.usuarios {
      return Err(404);
    }
    var user := db.usuarios[uid];
    if |apuestas| == 0 {
      return Err(400);
    }
    var totalApostado := TotalApostado(apuestas);
    var i := 0;
    while i < |apuestas|
      invariant 0 <= i <= |apuestas|
      invariant forall k :: 0 <= k < i ==> apuestas[k].monto >= APUESTA_MINIMA
    {
      if apuestas[i].monto < APUESTA_MINIMA {
        return Err(400);
      }
      i := i + 1;
    }
    if user.saldo < totalApostado as real {
      return Err(400);
    }
    var saldo := user.saldo - totalApostado as real;
    var res := ResolverApuestas(apuestas, numero);
    if res.Err? {
      return Err(500);
    }
    saldo := saldo + res.value.gananciaTotal as real;
    db.usuarios := db.usuarios[uid := user.(saldo := saldo)];
    r := Ok(Jugada(NumeroDe(numero), totalApostado, res.value, saldo));
  }

  /** Pockets among 0..k-1 on which a bet of kind `t` with value `v` wins. */
  function Aciertos(t: Tipo, v: Valor, k: nat): nat
  {
    if k == 0 then 0 else Aciertos(t, v, k - 1) + (if Acierta(t, v, k - 1) then 1 else 0)
  }

  lemma {:induction false} AciertosPleno(v: int, k: nat)
    ensures Aciertos(NumeroPleno, Entero(v), k) == if 0 <= v < k then 1 else 0
  {
    if k > 0 {
      AciertosPleno(v, k - 1);
    }
  }

  lemma {:induction false} AciertosDocena(d: int, k: nat)
    requires 1 <= d <= 3 && k <= 37
    ensures Aciertos(DocenaT, Entero(d), k) ==
              if k <= 12 * (d - 1) + 1 then 0 else if k <= 12 * d + 1 then k - 1 - 12 * (d - 1) else 12
  {
    if k > 0 {
      AciertosDocena(d, k - 1);
    }
  }

  /** Pockets 3j + 1, 3j + 2 and 3j + 3 lie in columns 1, 2 and 3. */
  lemma ColumnasDeFila(j: int)
    requires 0 <= j < 12
    ensures Columna(3 * j + 1) == 1 && Columna(3 * j + 2) == 2 && Columna(3 * j + 3) == 3
  {
    var n := 3 * j + 1;
    assert (n - 1) % 3 == 0 && (n + 1 - 1) % 3 == 1 && (n + 2 - 1) % 3 == 2;
    ColumnaPorResto(n);
    ColumnaPorResto(n + 1);
    ColumnaPorResto(n + 2);
  }

  /** Each row of three pockets adds one winning pocket to every column bet. */
  lemma {:induction false} AciertosColumna(c: int, j: nat)
    requires 1 <= c <= 3 && j <= 12
    ensures Aciertos(ColumnaT, Entero(c), 3 * j + 1) == j
  {
    if j > 0 {
      AciertosColumna(c, j - 1);
      var k := 3 * (j - 1) + 1;
      ColumnasDeFila(j - 1);
      assert Aciertos(ColumnaT, Entero(c), k + 3) == Aciertos(ColumnaT, Entero(c), k + 2) + (if c == 3 then 1 else 0);
      assert Aciertos(ColumnaT, Entero(c), k + 2) == Aciertos(ColumnaT, Entero(c), k + 1) + (if c == 2 then 1 else 0);
      assert Aciertos(ColumnaT, Entero(c), k + 1) == Aciertos(ColumnaT, Entero(c), k) + (if c == 1 then 1 else 0);
    }
  }

  lemma {:induction false} AciertosPar(k: nat)
    ensures Aciertos(ParImpar, Texto("par"), k) == if k == 0 then 0 else (k - 1) / 2
    ensures Aciertos(ParImpar, Texto("impar"), k) == k / 2
  {
    if k > 0 {
      AciertosPar(k - 1);
    }
  }

  lemma {:induction false} AciertosMitades(k: nat)
    ensures Aciertos(BajoAlto, Texto("bajo"), k) == if k <= 1 then 0 else if k <= 19 then k - 1 else 18
    ensures Aciertos(BajoAlto, Texto("alto"), k) == if k <= 19 then 0 else if k <= 37 then k - 19 else 18
  {
    if k > 0 {
      AciertosMitades(k - 1);
    }
  }

  lemma {:induction false} AciertosColor(k: nat)
    requires k <= 37
    ensures Aciertos(RojoNegro, Texto("rojo"), k) == Cuenta(COLORES, Rojo, k)
    ensures Aciertos(RojoNegro, Texto("negro"), k) == Cuenta(COLORES, Negro, k)
  {
    if k > 0 {
      AciertosColor(k - 1);
      assert Texto("rojo") != Texto("negro") && Texto("rojo") != Texto("verde") && Texto("negro") != Texto("verde");
    }
  }

  /** The number of winning pockets `obtener_probabilidades` assumes for each kind. */
  function Favorables(t: Tipo): int
  {
    if t == NumeroPleno then 1 else if t == DocenaT || t == ColumnaT then 12 else 18
  }

  /**
   * The counts the probabilities endpoint publishes are the true ones: out of
   * the 37 pockets a straight-up bet wins on 1 and each dozen and each column
   * on 12 ...
   */
  lemma FavorablesPlenoYTercios(v: int, d: int)
    requires 0 <= v <= 36 && 1 <= d <= 3
    ensures
      && Aciertos(NumeroPleno, Entero(v), |NUMEROS_RULETA|) == Favorables(NumeroPleno) == 1
      && Aciertos(DocenaT, Entero(d), |NUMEROS_RULETA|) == Favorables(DocenaT) == 12
      && Aciertos(ColumnaT, Entero(d), |NUMEROS_RULETA|) == Favorables(ColumnaT) == 12
  {
    AciertosPleno(v, |NUMEROS_RULETA|);
    AciertosDocena(d, |NUMEROS_RULETA|);
    AciertosColumna(d, 12);
  }

  /** ... each side of an even/odd bet on 18 ... */
  lemma FavorablesParImpar()
    ensures Aciertos(ParImpar, Texto("par"), |NUMEROS_RULETA|) == Favorables(ParImpar) == 18
    ensures Aciertos(ParImpar, Texto("impar"), |NUMEROS_RULETA|) == 18
  {
    AciertosPar(|NUMEROS_RULETA|);
  }

  /** ... each side of a low/high bet on 18 ... */
  lemma FavorablesBajoAlto()
    ensures Aciertos(BajoAlto, Texto("bajo"), |NUMEROS_RULETA|) == Favorables(BajoAlto) == 18
    ensures Aciertos(BajoAlto, Texto("alto"), |NUMEROS_RULETA|) == 18
  {
    AciertosMitades(|NUMEROS_RULETA|);
  }

  /** ... red and black included. */
  lemma FavorablesColor()
    ensures
      Aciertos(RojoNegro, Texto("rojo"), |NUMEROS_RULETA|) == Aciertos(RojoNegro, Texto("negro"), |NUMEROS_RULETA|) == Favorables(RojoNegro) == 18
  {
    AciertosColor(|NUMEROS_RULETA|);
    ColoresDelPano();
  }

  /** An entry of the probabilities response. */
  datatype Probabilidad = Probabilidad(tipo: Tipo, probabilidad: real, multiplicador: int)

  datatype Probabilidades = Probabilidades(probabilidades: seq<Probabilidad>, numerosTotales: int, ventajaCasa: real)

  const TIPOS: seq<Tipo> := [NumeroPleno, DocenaT, ColumnaT, RojoNegro, ParImpar, BajoAlto]

  /** The entry the endpoint publishes for kind `t`: its winning pockets as a percentage of 37, rounded to two decimals. */
  function Esperada(t: Tipo): Probabilidad
  {
    Probabilidad(t, Porcentaje(Favorables(t), |NUMEROS_RULETA|), if t == NumeroPleno then 35 else 2)
  }

  /** The published probabilities: 2.70 for a single number, 32.43 for a dozen or a column, 48.65 for an even-money bet. */
  lemma ProbabilidadesPublicadas()
    ensures Esperada(NumeroPleno).probabilidad == 2.7
    ensures Esperada(DocenaT).probabilidad == Esperada(ColumnaT).probabilidad == 32.43
    ensures Esperada(RojoNegro).probabilidad == Esperada(ParImpar).probabilidad == Esperada(BajoAlto).probabilidad == 48.65
  {
    PorcentajeExacto(1, 37, 270);
    PorcentajeExacto(12, 37, 3243);
    PorcentajeExacto(18, 37, 4865);
  }

  /**
   * `obtener_probabilidades`: one entry per key of `TIPOS_APUESTA`, in its
   * order, and the house edge of one pocket in 37, 2.70 once rounded.
   */
  method ObtenerProbabilidades() returns (p: Probabilidades)
    ensures p.numerosTotales == |NUMEROS_RULETA| == 37 && p.ventajaCasa == 2.7
    ensures |p.probabilidades| == |TIPOS| && forall k :: 0 <= k < |TIPOS| ==> p.probabilidades[k] == Esperada(TIPOS[k])
  {
    var total := |NUMEROS_RULETA|;
    var probs: seq<Probabilidad> := [];
    var i := 0;
    while i < |TIPOS|
      invariant 0 <= i <= |TIPOS| && |probs| == i
      invariant forall k :: 0 <= k < i ==> probs[k] == Esperada(TIPOS[k])
    {
      var tipo := TIPOS[i];
      var probabilidad: real;
      var multiplicador: int;
      if tipo == NumeroPleno {
        probabilidad, multiplicador := Porcentaje(1, total), 35;
      } else if tipo == DocenaT || tipo == ColumnaT {
        probabilidad, multiplicador := Porcentaje(12, total), 2;
      } else {
        probabilidad, multiplicador := Porcentaje(18, total), 2;
      }
      probs := probs + [Probabilidad(tipo, probabilidad, multiplicador)];
      i := i + 1;
    }
    PorcentajeExacto(1, 37, 270);
    p := Probabilidades(probs, total, Porcentaje(1, total));
  }
}
