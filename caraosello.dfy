/** Heads or tails, app/services/juegos/caraosello.py. */
module CaraOSello {
  import opened Wrappers
  import opened Modelos
  import opened Texto

  const APUESTA_MINIMA: int := 50

  /** The three equally likely draws of `random.choice`. */
  const SORTEOS: seq<string> := ["cara", "sello", "perdiste"]

  datatype Jugada = Jugada(resultado: string, gano: bool, ganancia: int, apuesta: int, nuevoSaldo: real)

  /**
   * The reported outcome for a validated (lower-cased) choice and a draw: a
   * "perdiste" draw is reported as the face the player did not choose.
   */
  function Resolver(eleccion: string, sorteo: string): (r: (string, bool))
  {
    var gano := eleccion == sorteo;
    if sorteo == "perdiste" then (if eleccion == "cara" then "sello" else "cara", false)
    else (sorteo, gano)
  }

  /**
   * After the adjustment the reported face is a real face, and the player won
   * exactly when it is the face they chose.
   */
  lemma ResultadoCoherente(eleccion: string, sorteo: string)
    requires eleccion in ["cara", "sello"] && sorteo in SORTEOS
    ensures Resolver(eleccion, sorteo).0 in ["cara", "sello"]
    ensures Resolver(eleccion, sorteo).1 <==> Resolver(eleccion, sorteo).0 == eleccion
  {
  }

  /** Exactly one of the three draws wins, whatever the choice: the odds are 1 in 3. */
  lemma {:induction false} UnaDeTres(eleccion: string)
    requires eleccion in ["cara", "sello"]
    ensures |SORTEOS| == 3
    ensures Resolver(eleccion, SORTEOS[0]).1 != Resolver(eleccion, SORTEOS[1]).1
    ensures !Resolver(eleccion, SORTEOS[2]).1
  {
  }

  /**
   * `jugar_cara_sello`: a win nets +apuesta (debit, then a 2x credit), a loss
   * nets -apuesta. `sorteo` is the value drawn by `random.choice`.
   */
  method JugarCaraSello(db: Db, uid: int, apuesta: int, eleccion: string, sorteo: string) returns (r: Result<Jugada>)
    requires sorteo in SORTEOS
    modifies db`usuarios
    ensures uid !in old(db.usuarios) ==> r == Err(404)
    ensures uid in old(db.usuarios) && Minusculas(eleccion) !in ["cara", "sello"] ==> r == Err(400)
    ensures uid in old(db.usuarios) && Minusculas(eleccion) in ["cara", "sello"] && (apuesta < APUESTA_MINIMA || old(db.usuarios[uid].saldo) < apuesta as real) ==> r == Err(400)
    ensures r.Ok? <==> uid in old(db.usuarios) && Minusculas(eleccion) in ["cara", "sello"]
                       && apuesta >= APUESTA_MINIMA && old(db.usuarios[uid].saldo) >= apuesta as real
    ensures r.Err? ==> r.code in {400, 404} && db.usuarios == old(db.usuarios)
    ensures r.Ok? ==>
      var (resultado, gano) := Resolver(Minusculas(eleccion), sorteo);
      db.usuarios == ConSaldo(old(db.usuarios), uid, if gano then apuesta as real else -apuesta as real) &&
      r.value == Jugada(resultado, gano, if gano then 2 * apuesta else 0, apuesta, db.usuarios[uid].saldo)
  {
    if uid !in db.usuarios {
      return Err(404);
    }
    var user := db.usuarios[uid];
    if Minusculas(eleccion) !in ["cara", "sello"] {
      return Err(400);
    }
    if apuesta < APUESTA_MINIMA {
      return Err(400);
    }
    if user.saldo < apuesta as real {
      return Err(400);
    }
    user := user.(saldo := user.saldo - apuesta as real);
    var resultado := sorteo;
    var gano := Minusculas(eleccion) == resultado;
    if resultado == "perdiste" {
      gano := false;
      if Minusculas(eleccion) == "cara" {
        resultado := "sello";
      } else {
        resultado := "cara";
      }
    }
    var ganancia := 0;
    if gano {
      ganancia := apuesta * 2;
      user := user.(saldo := user.saldo + ganancia as real);
    }
    db.usuarios := db.usuarios[uid := user];
    r := Ok(Jugada(resultado, gano, ganancia, apuesta, user.saldo));
  }
}
