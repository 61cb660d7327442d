/** The three-reel slot machine of app/services/juegos/tragamonedas.py. */
module Tragamonedas {
  import opened Wrappers
  import opened Modelos

  /** The eight symbols of `SIMBOLOS`: cherry, lemon, orange, watermelon, star, bell, grapes, seven. */
  datatype Simbolo = Cereza | Limon | Naranja | Sandia | Estrella | Campana | Uvas | Siete

  type Tripleta = (Simbolo, Simbolo, Simbolo)

  const APUESTAS_PERMITIDAS: seq<int> := [100, 500, 1000, 2000, 5000]

  /** `TABLA_PAGOS`: multiplier of three of a kind. */
  function Pago(s: Simbolo): int
  {
    match s
    case Siete => 100
    case Uvas => 50
    case Campana => 25
    case Estrella => 5
    case Sandia => 4
    case Naranja => 3
    case Limon => 2
    case Cereza => 1
  }

  predicate Iguales(t: Tripleta)
  {
    t.0 == t.1 == t.2
  }

  /**
   * The probability of a prize: 0.30, plus 0.05 from a bet of 2000 on. The
   * extra 0.10 for bets of 5000 sits behind an `elif` that the first test
   * already covers, so it is never added.
   */
  function ProbabilidadDePremio(apuesta: int): (p: real)
    ensures p == if apuesta >= 2000 then 0.35 else 0.30
  {
    var base := 0.30;
    if apuesta >= 2000 then base + 0.05
    else if apuesta >= 5000 then base + 0.10
    else base
  }

  /** Index of the first draw that is not three of a kind: where the redraw loop stops. */
  function PrimeraSinPremio(tiradas: seq<Tripleta>): (k: nat)
    requires exists i :: 0 <= i < |tiradas| && !Iguales(tiradas[i])
    ensures k < |tiradas| && !Iguales(tiradas[k])
    ensures forall j :: 0 <= j < k ==> Iguales(tiradas[j])
  {
    if !Iguales(tiradas[0]) then 0
    else
      assert exists i :: 0 <= i < |tiradas[1..]| && !Iguales(tiradas[1..][i]) by {
        var i :| 0 <= i < |tiradas| && !Iguales(tiradas[i]);
        assert tiradas[1..][i - 1] == tiradas[i];
      }
      1 + PrimeraSinPremio(tiradas[1..])
  }

  datatype Jugada = Jugada(resultado: Tripleta, ganancia: int, nuevoSaldo: real, apuesta: int, multiplicador: int)

  /**
   * `jugar_tragamonedas`. `u` is the draw of `random.random()`, `premio` the
   * weighted choice among the prizes, and `tiradas` the successive draws of
   * the redraw loop.
   */
  method JugarTragamonedas(db: Db, uid: int, apuesta: int, u: real, premio: Simbolo, tiradas: seq<Tripleta>)
    returns (r: Result<Jugada>)
    requires 0.0 <= u < 1.0
    requires exists i :: 0 <= i < |tiradas| && !Iguales(tiradas[i])
    modifies db`usuarios
    ensures apuesta !in APUESTAS_PERMITIDAS ==> r == Err(400)
    ensures apuesta in APUESTAS_PERMITIDAS && uid !in old(db.usuarios) ==> r == Err(404)
    ensures apuesta in APUESTAS_PERMITIDAS && uid in old(db.usuarios) && old(db.usuarios[uid].saldo) < apuesta as real ==> r == Err(400)
    ensures r.Ok? <==> apuesta in APUESTAS_PERMITIDAS && uid in old(db.usuarios) && old(db.usuarios[uid].saldo) >= apuesta as real
    ensures r.Err? ==> r.code in {400, 404} && db.usuarios == old(db.usuarios)
    ensures r.Ok? ==>
      && db.usuarios == ConSaldo(old(db.usuarios), uid, (r.value.ganancia - apuesta) as real)
      && r.value.nuevoSaldo == db.usuarios[uid].saldo
      && r.value.apuesta == apuesta
      && (u < ProbabilidadDePremio(apuesta) ==>
            r.value.resultado == (premio, premio, premio) && r.value.ganancia == Pago(premio) * apuesta)
      && (u >= ProbabilidadDePremio(apuesta) ==>
            r.value.resultado == tiradas[PrimeraSinPremio(tiradas)] && r.value.ganancia == 0)
      && r.value.multiplicador == (if r.value.ganancia > 0 then Pago(r.value.resultado.0) else 0)
  {
    if apuesta !in APUESTAS_PERMITIDAS {
      return Err(400);
    }
    if uid !in db.usuarios {
      return Err(404);
    }
    var usuario := db.usuarios[uid];
    if usuario.saldo < apuesta as real {
      return Err(400);
    }
    usuario := usuario.(saldo := usuario.saldo - apuesta as real);
    var prob := 0.30;
    if apuesta >= 2000 {
      prob := prob + 0.05;
    } else if apuesta >= 5000 {
      prob := prob + 0.10;
    }
    var resultado: Tripleta;
    var ganancia: int;
    if u < prob {
      resultado := (premio, premio, premio);
      ganancia := Pago(premio) * apuesta;
    } else {
      var k := 0;
      while Iguales(tiradas[k])
        invariant 0 <= k <= PrimeraSinPremio(tiradas)
        decreases PrimeraSinPremio(tiradas) - k
      {
        k := k + 1;
      }
      resultado := tiradas[k];
      ganancia := 0;
    }
    usuario := usuario.(saldo := usuario.saldo + ganancia as real);
    db.usuarios := db.usuarios[uid := usuario];
    var multiplicador := if ganancia > 0 then Pago(resultado.0) else 0;
    r := Ok(Jugada(resultado, ganancia, usuario.saldo, apuesta, multiplicador));
  }
}
