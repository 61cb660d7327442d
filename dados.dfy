/** The dice game of app/services/juegos/dados.py. */
module Dados {
  import opened Wrappers
  import opened Modelos

  const APUESTAS_PERMITIDAS: seq<int> := [100, 500, 1000, 2000, 5000]
  const MULT_DOBLE_6: int := 10
  const MULT_DOBLE_OTRO: int := 5

  datatype TipoResultado = SinPremio | Doble6 | DobleOtro

  /** The response of one throw. */
  datatype Tirada = Tirada(dado1: int, dado2: int, ganancia: int, tipo: TipoResultado, nuevoSaldo: real)

  /** The prize of a throw and its kind. */
  function Premio(apuesta: int, dado1: int, dado2: int): (p: (int, TipoResultado))
  {
    if dado1 == 6 && dado2 == 6 then (apuesta * MULT_DOBLE_6, Doble6)
    else if dado1 == dado2 then (apuesta * MULT_DOBLE_OTRO, DobleOtro)
    else (0, SinPremio)
  }

  /** Only doubles pay; a double six pays more than every other double. */
  lemma PremioSoloDobles(apuesta: int, dado1: int, dado2: int)
    requires apuesta > 0
    ensures Premio(apuesta, dado1, dado2).0 > 0 <==> dado1 == dado2
    ensures dado1 == dado2 ==> Premio(apuesta, dado1, dado2).0 <= Premio(apuesta, 6, 6).0
  {
  }

  /** Sum of the prizes of the throws (d1, 1) .. (d1, n). */
  function SumaFila(apuesta: int, d1: int, n: nat): int
  {
    if n == 0 then 0 else SumaFila(apuesta, d1, n - 1) + Premio(apuesta, d1, n).0
  }

  /** Sum of the prizes of the throws (1, 1) .. (n, 6). */
  function SumaTabla(apuesta: int, n: nat): int
  {
    if n == 0 then 0 else SumaTabla(apuesta, n - 1) + SumaFila(apuesta, n, 6)
  }

  lemma {:induction false} FilaUnDoble(apuesta: int, d1: int, n: nat)
    requires 1 <= d1 <= 6 && n <= 6
    ensures SumaFila(apuesta, d1, n) == if d1 <= n then Premio(apuesta, d1, d1).0 else 0
  {
    if n > 0 {
      FilaUnDoble(apuesta, d1, n - 1);
    }
  }

  lemma {:induction false} TablaSinSeis(apuesta: int, n: nat)
    requires n <= 5
    ensures SumaTabla(apuesta, n) == 5 * apuesta * n
  {
    if n > 0 {
      TablaSinSeis(apuesta, n - 1);
      FilaUnDoble(apuesta, n, 6);
    }
  }

  /**
   * Over the 36 equally likely throws the prizes add up to 35 bets: the game
   * returns 35/36 of the stake on average.
   */
  lemma {:induction false} RetornoEsperado(apuesta: int)
    ensures SumaTabla(apuesta, 6) == 35 * apuesta
  {
    TablaSinSeis(apuesta, 5);
    FilaUnDoble(apuesta, 6, 6);
  }

  /**
   * `lanzar_dados`: validate the bet, debit it, throw the dice (drawn by the
   * caller) and credit the prize; the balance ends at old - apuesta + prize.
   */
  method LanzarDados(db: Db, uid: int, apuesta: int, dado1: int, dado2: int) returns (r: Result<Tirada>)
    requires 1 <= dado1 <= 6 && 1 <= dado2 <= 6
    modifies db`usuarios
    ensures apuesta !in APUESTAS_PERMITIDAS ==> r == Err(400)
    ensures apuesta in APUESTAS_PERMITIDAS && uid !in old(db.usuarios) ==> r == Err(404)
    ensures apuesta in APUESTAS_PERMITIDAS && uid in old(db.usuarios) && old(db.usuarios[uid].saldo) < apuesta as real
      ==> r == Err(400)
    ensures r.Ok? <==> apuesta in APUESTAS_PERMITIDAS && uid in old(db.usuarios) && old(db.usuarios[uid].saldo) >= apuesta as real
    ensures r.Err? ==> db.usuarios == old(db.usuarios)
    ensures r.Ok? ==>
      var p := Premio(apuesta, dado1, dado2);
      db.usuarios == ConSaldo(old(db.usuarios), uid, (p.0 - apuesta) as real) &&
      r.value == Tirada(dado1, dado2, p.0, p.1, db.usuarios[uid].saldo)
  {
    if apuesta !in APUESTAS_PERMITIDAS {
      return Err(400);
    }
    if uid !in db.usuarios {
      return Err(404);
    }
    var usuario := db.usuarios[uid];
    if usuario.saldo < apuesta as real {
      return Err(400);
    }
    usuario := usuario.(saldo := usuario.saldo - apuesta as real);
    var ganancia, tipo := 0, SinPremio;
    if dado1 == 6 && dado2 == 6 {
      ganancia, tipo := apuesta * MULT_DOBLE_6, Doble6;
    } else if dado1 == dado2 {
      ganancia, tipo := apuesta * MULT_DOBLE_OTRO, DobleOtro;
    }
    usuario := usuario.(saldo := usuario.saldo + ganancia as real);
    db.usuarios := db.usuarios[uid := usuario];
    r := Ok(Tirada(dado1, dado2, ganancia, tipo, usuario.saldo));
  }
}
