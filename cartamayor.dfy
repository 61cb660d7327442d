/** High card, app/services/juegos/cartamayor.py. */
module CartaMayor {
  import opened Wrappers
  import opened Modelos
  import opened Redondeo

  const APUESTA_MINIMA: int := 100

  /** `VALORES_CARTAS`: name and symbol of each card value. */
  const VALORES_CARTAS: map<int, (string, string)> := map[
    1 := ("As", "A"), 2 := ("2", "2"), 3 := ("3", "3"), 4 := ("4", "4"), 5 := ("5", "5"),
    6 := ("6", "6"), 7 := ("7", "7"), 8 := ("8", "8"), 9 := ("9", "9"), 10 := ("10", "10"),
    11 := ("Jota", "J"), 12 := ("Reina", "Q"), 13 := ("Rey", "K")]

  /** Every value 1..13 has a name, so the lookups of the handler never fail. */
  lemma ValoresCompletos()
    ensures forall v :: v in VALORES_CARTAS <==> 1 <= v <= 13
  {
  }

  /** Highest value the player's card can take under each `filtro`. */
  function TopeUsuario(filtro: int): (t: int)
    requires 1 <= filtro <= 3
    ensures t in {7, 10, 13}
  {
    if filtro == 1 then 7 else if filtro == 2 then 10 else 13
  }

  datatype Resultado = GanaUsuario | GanaCasa | Empate

  datatype Carta = Carta(valor: int, nombre: string, simbolo: string, palo: int)

  datatype Jugada = Jugada(resultado: Resultado, cartaUsuario: Carta, cartaCasa: Carta,
                           ganancia: int, apuesta: int, nuevoSaldo: real)

  function Comparar(valorUsuario: int, valorCasa: int): Resultado
  {
    if valorUsuario > valorCasa then GanaUsuario
    else if valorUsuario < valorCasa then GanaCasa
    else Empate
  }

  /** Net balance change of a round: +apuesta, -apuesta, or 0 on a tie. */
  function Neto(apuesta: int, res: Resultado): int
  {
    match res
    case GanaUsuario => apuesta
    case GanaCasa => -apuesta
    case Empate => 0
  }

  /**
   * `jugar_carta_mayor`: `filtro`, the two values and the two suits are the
   * handler's random draws; the player's card is limited by `filtro`.
   */
  method JugarCartaMayor(db: Db, uid: int, apuesta: int, filtro: int, valorUsuario: int, valorCasa: int,
                         paloUsuario: int, paloCasa: int) returns (r: Result<Jugada>)
    requires 1 <= filtro <= 3 && 1 <= valorUsuario <= TopeUsuario(filtro) && 1 <= valorCasa <= 13
    requires 0 <= paloUsuario < 4 && 0 <= paloCasa < 4
    modifies db`usuarios
    ensures uid !in old(db.usuarios) ==> r == Err(404)
    ensures uid in old(db.usuarios) && (apuesta < APUESTA_MINIMA || old(db.usuarios[uid].saldo) < apuesta as real) ==> r == Err(400)
    ensures r.Ok? <==> uid in old(db.usuarios) && apuesta >= APUESTA_MINIMA && old(db.usuarios[uid].saldo) >= apuesta as real
    ensures r.Err? ==> r.code in {400, 404} && db.usuarios == old(db.usuarios)
    ensures r.Ok? ==>
      var res := Comparar(valorUsuario, valorCasa);
      && db.usuarios == ConSaldo(old(db.usuarios), uid, Neto(apuesta, res) as real)
      && r.value.resultado == res
      && r.value.ganancia == (if res == GanaUsuario then 2 * apuesta else 0)
      && r.value.cartaUsuario.valor == valorUsuario && r.value.cartaCasa.valor == valorCasa
      && r.value.nuevoSaldo == db.usuarios[uid].saldo
  {
    if uid !in db.usuarios {
      return Err(404);
    }
    var user := db.usuarios[uid];
    if apuesta < APUESTA_MINIMA {
      return Err(400);
    }
    if user.saldo < apuesta as real {
      return Err(400);
    }
    user := user.(saldo := user.saldo - apuesta as real);
    ValoresCompletos();
    var resultado := Empate;
    var ganancia := 0;
    if valorUsuario > valorCasa {
      resultado := GanaUsuario;
      ganancia := apuesta * 2;
      user := user.(saldo := user.saldo + ganancia as real);
    } else if valorUsuario < valorCasa {
      resultado := GanaCasa;
    } else {
      user := user.(saldo := user.saldo + apuesta as real);
    }
    db.usuarios := db.usuarios[uid := user];
    var cu := Carta(valorUsuario, VALORES_CARTAS[valorUsuario].0, VALORES_CARTAS[valorUsuario].1, paloUsuario);
    var cc := Carta(valorCasa, VALORES_CARTAS[valorCasa].0, VALORES_CARTAS[valorCasa].1, paloCasa);
    r := Ok(Jugada(resultado, cu, cc, ganancia, apuesta, user.saldo));
  }

  /** Number of values 1..m strictly below `i`. */
  function Debajo(i: int, m: nat): nat
  {
    if m == 0 then 0 else Debajo(i, m - 1) + (if i > m then 1 else 0)
  }

  /** Number of values 1..m strictly above `i`. */
  function Encima(i: int, m: nat): nat
  {
    if m == 0 then 0 else Encima(i, m - 1) + (if i < m then 1 else 0)
  }

  lemma {:induction false} DebajoCerrada(i: int, m: nat)
    requires i >= 1
    ensures Debajo(i, m) == if i - 1 < m then i - 1 else m
  {
    if m > 0 {
      DebajoCerrada(i, m - 1);
    }
  }

  lemma {:induction false} EncimaCerrada(i: int, m: nat)
    requires i >= 1
    ensures Encima(i, m) == if i < m then m - i else 0
  {
    if m > 0 {
      EncimaCerrada(i, m - 1);
    }
  }

  /** Outcomes (u, h), 1 <= u <= n and 1 <= h <= m, in which the player's card is higher. */
  function Ganadas(n: nat, m: nat): nat
  {
    if n == 0 then 0 else Ganadas(n - 1, m) + Debajo(n, m)
  }

  /** Outcomes (u, h), 1 <= u <= n and 1 <= h <= m, in which the house card is higher. */
  function Perdidas(n: nat, m: nat): nat
  {
    if n == 0 then 0 else Perdidas(n - 1, m) + Encima(n, m)
  }

  /** Closed forms for n <= m: the player's card is higher in n(n-1)/2 outcomes and the house's in mn - n(n+1)/2. */
  lemma {:induction false} GanadasPerdidasCerradas(n: nat, m: nat)
    requires n <= m
    ensures 2 * Ganadas(n, m) == n * (n - 1)
    ensures 2 * Perdidas(n, m) == 2 * m * n - n * (n + 1)
  {
    if n > 0 {
      GanadasPerdidasCerradas(n - 1, m);
      DebajoCerrada(n, m);
      EncimaCerrada(n, m);
      PasoCerrado(n - 1, m, Ganadas(n - 1, m), Perdidas(n - 1, m));
    }
  }

  /** The step of the closed forms: adding row `k + 1`, with `k` below and `m - k - 1` above it. */
  lemma PasoCerrado(k: int, m: int, g: int, p: int)
    requires 2 * g == k * (k - 1) && 2 * p == 2 * m * k - k * (k + 1)
    ensures 2 * (g + k) == (k + 1) * k
    ensures 2 * (p + m - k - 1) == 2 * m * (k + 1) - (k + 1) * (k + 2)
  {
  }

  /**
   * The published odds assume both cards uniform on 1..13, but the handler
   * limits the player's card: under `filtro` 1 the player wins 21 of 91
   * outcomes and loses 63, under `filtro` 2 wins 45 of 130 and loses 75, and
   * only under `filtro` 3 are the chances even (78 and 78 of 169).
   */
  lemma VentajaDeLaCasa()
    ensures Ganadas(7, 13) == 21 && Perdidas(7, 13) == 63
    ensures Ganadas(10, 13) == 45 && Perdidas(10, 13) == 75
    ensures Ganadas(13, 13) == 78 && Perdidas(13, 13) == 78
  {
    GanadasPerdidasCerradas(7, 13);
    GanadasPerdidasCerradas(10, 13);
    GanadasPerdidasCerradas(13, 13);
  }

  datatype Probabilidades = Probabilidades(
    ganaUsuario: real, ganaCasa: real, empate: real,
    total: int, combinacionesUsuario: int, combinacionesCasa: int, combinacionesEmpate: int)

  /**
   * The inner loop of `obtener_probabilidades`: of the house values 1..13,
   * `i - 1` are below the player's value `i`, `13 - i` above it and one equal.
   */
  method ContarFila(i: int) returns (ganaUsuario: int, ganaCasa: int, empates: int)
    requires 1 <= i <= 13
    ensures ganaUsuario == i - 1 && ganaCasa == 13 - i && empates == 1
  {
    ganaUsuario, ganaCasa, empates := 0, 0, 0;
    var j := 1;
    while j < 14
      invariant 1 <= j <= 14
      invariant ganaUsuario == if i < j then i - 1 else j - 1
      invariant ganaCasa == if i < j then j - 1 - i else 0
      invariant empates == if i < j then 1 else 0
    {
      if i > j {
        ganaUsuario := ganaUsuario + 1;
      } else if i < j {
        ganaCasa := ganaCasa + 1;
      } else {
        empates := empates + 1;
      }
      j := j + 1;
    }
  }

  /**
   * The nested loops of `obtener_probabilidades`: of the 169 pairs of values
   * 1..13 the player's is higher in 78, the house's in 78, and 13 are ties
   * (the totals `Ganadas(13, 13)` and `Perdidas(13, 13)` of `VentajaDeLaCasa`).
   */
  method ContarCombinaciones() returns (ganaUsuario: int, ganaCasa: int, empates: int)
    ensures ganaUsuario == 78 && ganaCasa == 78 && empates == 13
  {
    ganaUsuario, ganaCasa, empates := 0, 0, 0;
    var i := 1;
    while i < 14
      invariant 1 <= i <= 14
      invariant 2 * ganaUsuario == (i - 1) * (i - 2)
      invariant 2 * ganaCasa == 26 * (i - 1) - (i - 1) * i
      invariant empates == i - 1
    {
      var g, c, e := ContarFila(i);
      ganaUsuario, ganaCasa, empates := ganaUsuario + g, ganaCasa + c, empates + e;
      i := i + 1;
    }
  }

  /**
   * `obtener_probabilidades`: the counts of the 169 pairs and their
   * percentages rounded to two decimals, 46.15, 46.15 and 7.69, which add up
   * to 99.99 rather than 100.
   */
  method ObtenerProbabilidades() returns (p: Probabilidades)
    ensures p.total == 169
    ensures p.combinacionesUsuario == 78 && p.combinacionesCasa == 78 && p.combinacionesEmpate == 13
    ensures p.combinacionesUsuario + p.combinacionesCasa + p.combinacionesEmpate == p.total
    ensures p.ganaUsuario == 46.15 && p.ganaCasa == 46.15 && p.empate == 7.69
    ensures p.ganaUsuario + p.ganaCasa + p.empate == 99.99
  {
    PorcentajeExacto(78, 169, 4615);
    PorcentajeExacto(13, 169, 769);
    var total := 13 * 13;
    var ganaUsuario, ganaCasa, empates := ContarCombinaciones();
    p := Probabilidades(Porcentaje(ganaUsuario, total), Porcentaje(ganaCasa, total), Porcentaje(empates, total),
                        total, ganaUsuario, ganaCasa, empates);
  }
}
