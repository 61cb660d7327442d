/** Rock, paper, scissors, app/services/juegos/piedrapapeltijera.py. */
module PiedraPapelTijera {
  import opened Wrappers
  import opened Modelos
  import opened Texto
  import opened Redondeo

  const APUESTA_MINIMA: int := 100

  /** The three keys of `OPCIONES`. */
  datatype Mano = Piedra | Papel | Tijera

  datatype Opcion = Opcion(nombre: string, emoji: string, venceA: seq<Mano>, esVencidoPor: seq<Mano>)

  /** The key of each entry of `OPCIONES`. */
  function Clave(m: Mano): string
  {
    match m
    case Piedra => "piedra"
    case Papel => "papel"
    case Tijera => "tijera"
  }

  /** The entries of `OPCIONES`. */
  function Info(m: Mano): Opcion
  {
    match m
    case Piedra => Opcion("Piedra", "✊", [Tijera], [Papel])
    case Papel => Opcion("Papel", "🖐", [Piedra], [Tijera])
    case Tijera => Opcion("Tijera", "✌️", [Papel], [Piedra])
  }

  /** Dictionary lookup `OPCIONES[s]` on a string key. */
  function Buscar(s: string): (r: Option<Mano>)
    ensures r.Some? ==> Clave(r.value) == s
  {
    if s == "piedra" then Some(Piedra)
    else if s == "papel" then Some(Papel)
    else if s == "tijera" then Some(Tijera)
    else None
  }

  /** Every key is found under its own name. */
  lemma BuscarClave(m: Mano)
    ensures Buscar(Clave(m)) == Some(m)
  {
  }

  /** Keys in insertion order, the iteration order of `for ... in OPCIONES`. */
  const CLAVES: seq<Mano> := [Piedra, Papel, Tijera]

  /** `a` beats `b` according to the table. */
  predicate Vence(a: Mano, b: Mano)
  {
    b in Info(a).venceA
  }

  /**
   * The beats relation is a 3-cycle: each option beats exactly one other
   * option and is beaten by exactly one, `es_vencido_por` is the converse of
   * `vence_a`, and no option beats itself.
   */
  lemma CicloDeTres()
    ensures Vence(Piedra, Tijera) && Vence(Papel, Piedra) && Vence(Tijera, Papel)
    ensures forall a: Mano :: |Info(a).venceA| == 1 && |Info(a).esVencidoPor| == 1 && !Vence(a, a)
    ensures forall a: Mano, b: Mano :: Vence(a, b) <==> a in Info(b).esVencidoPor
    ensures forall a: Mano, b: Mano :: Vence(a, b) ==> !Vence(b, a)
    ensures forall a: Mano, b: Mano, c: Mano :: Vence(a, b) && Vence(a, c) ==> b == c
    ensures forall m :: m in CLAVES
  {
  }

  datatype Resultado = Empate | GanaUsuario | GanaMaquina

  datatype Jugada = Jugada(resultado: Resultado, eleccionUsuario: string, eleccionMaquina: string,
                           ganancia: int, apuesta: int, nuevoSaldo: real)

  /** Outcome of a round for a player's choice found in `OPCIONES`. */
  function Clase(usuario: Mano, maquina: Mano): Resultado
  {
    if usuario == maquina then Empate
    else if Vence(usuario, maquina) then GanaUsuario
    else GanaMaquina
  }

  /**
   * The comparison of the handler, on the choice as sent: a tie when it is
   * the machine's key, otherwise `OPCIONES[eleccion]["vence_a"]` decides, and
   * the lookup fails (None, a KeyError) when the choice is not a key. It agrees
   * with `Clase` on the option the choice names.
   */
  function Ronda(eleccion: string, maquina: Mano): (r: Option<Resultado>)
    ensures r.None? <==> Buscar(eleccion).None?
    ensures r.Some? ==> r.value == Clase(Buscar(eleccion).value, maquina)
  {
    if eleccion == Clave(maquina) then
      BuscarClave(maquina);
      Some(Empate)
    else
      match Buscar(eleccion)
      case None => None
      case Some(u) => if maquina in Info(u).venceA then Some(GanaUsuario) else Some(GanaMaquina)
  }

  /** Net balance change of a round. */
  function Neto(apuesta: int, res: Resultado): real
  {
    match res
    case Empate => 0.0
    case GanaUsuario => apuesta as real
    case GanaMaquina => -apuesta as real
  }

  /**
   * `jugar_piedra_papel_tijera`. The choice is validated lower-cased but
   * compared and looked up as sent, so a choice such as "Piedra" passes the
   * validation and then fails on the `OPCIONES[eleccion]` lookup (500, nothing
   * committed). `maquina` is the machine's random choice.
   */
  method JugarPiedraPapelTijera(db: Db, uid: int, apuesta: int, eleccion: string, maquina: Mano)
    returns (r: Result<Jugada>)
    modifies db`usuarios
    ensures uid !in old(db.usuarios) ==> r == Err(404)
    ensures uid in old(db.usuarios) && Buscar(Minusculas(eleccion)).None? ==> r == Err(400)
    ensures (uid in old(db.usuarios) && Buscar(Minusculas(eleccion)).Some?
             && (apuesta < APUESTA_MINIMA || old(db.usuarios[uid].saldo) < apuesta as real)) ==> r == Err(400)
    ensures (uid in old(db.usuarios) && Buscar(Minusculas(eleccion)).Some?
             && apuesta >= APUESTA_MINIMA && old(db.usuarios[uid].saldo) >= apuesta as real
             && Buscar(eleccion).None?) ==> r == Err(500)
    ensures r.Err? ==> db.usuarios == old(db.usuarios)
    ensures r.Ok? ==>
      && uid in old(db.usuarios) && Buscar(Minusculas(eleccion)).Some? && Buscar(eleccion).Some?
      && apuesta >= APUESTA_MINIMA && old(db.usuarios[uid].saldo) >= apuesta as real
      && var res := Clase(Buscar(eleccion).value, maquina);
         && db.usuarios == ConSaldo(old(db.usuarios), uid, Neto(apuesta, res))
         && r.value == Jugada(res, eleccion, Clave(maquina), if res == GanaUsuario then 2 * apuesta else 0, apuesta,
                              db.usuarios[uid].saldo)
  {
    if uid !in db.usuarios {
      return Err(404);
    }
    var fila := db.usuarios[uid];
    if Buscar(Minusculas(eleccion)).None? {
      return Err(400);
    }
    if apuesta < APUESTA_MINIMA {
      return Err(400);
    }
    if fila.saldo < apuesta as real {
      return Err(400);
    }
    var saldo := fila.saldo - apuesta as real;
    var ronda := Ronda(eleccion, maquina);
    if ronda.None? {
      // KeyError: the debit above is never committed.
      return Err(500);
    }
    var resultado := ronda.value;
    var ganancia := 0;
    if resultado == Empate {
      saldo := saldo + apuesta as real;
    } else if resultado == GanaUsuario {
      ganancia := apuesta * 2;
      saldo := saldo + ganancia as real;
    }
    db.usuarios := db.usuarios[uid := fila.(saldo := saldo)];
    r := Ok(Jugada(resultado, eleccion, Clave(maquina), ganancia, apuesta, saldo));
  }

  /** Number of the machine's choices CLAVES[..j] that give outcome `c` against `u`. */
  function CuentaFila(u: Mano, j: nat, c: Resultado): nat
    requires j <= |CLAVES|
  {
    if j == 0 then 0 else CuentaFila(u, j - 1, c) + (if Clase(u, CLAVES[j - 1]) == c then 1 else 0)
  }

  /** Against each choice of the player, one machine choice wins, one loses and one ties. */
  lemma FilaEquilibrada(u: Mano)
    ensures CuentaFila(u, 3, GanaUsuario) == 1 && CuentaFila(u, 3, GanaMaquina) == 1 && CuentaFila(u, 3, Empate) == 1
  {
  }

  /** The response: the percentages rounded to two decimals, then the counts. */
  datatype Probabilidades = Probabilidades(
    porcentajeUsuario: real, porcentajeMaquina: real, porcentajeEmpate: real,
    total: int, ganaUsuario: int, ganaMaquina: int, empate: int)

  /** The inner loop of `obtener_probabilidades`: the machine's three choices against `u`. */
  method ContarFila(u: Mano) returns (ganaUsuario: int, ganaMaquina: int, empates: int)
    ensures ganaUsuario == CuentaFila(u, 3, GanaUsuario) && ganaMaquina == CuentaFila(u, 3, GanaMaquina)
    ensures empates == CuentaFila(u, 3, Empate)
  {
    ganaUsuario, ganaMaquina, empates := 0, 0, 0;
    var j := 0;
    while j < |CLAVES|
      invariant 0 <= j <= |CLAVES|
      invariant ganaUsuario == CuentaFila(u, j, GanaUsuario) && ganaMaquina == CuentaFila(u, j, GanaMaquina)
      invariant empates == CuentaFila(u, j, Empate)
    {
      var m := CLAVES[j];
      if u == m {
        empates := empates + 1;
      } else if m in Info(u).venceA {
        ganaUsuario := ganaUsuario + 1;
      } else {
        ganaMaquina := ganaMaquina + 1;
      }
      j := j + 1;
    }
  }

  /**
   * `obtener_probabilidades`: the nine pairs of choices, three of each
   * outcome, so each outcome is 33.33 percent once rounded.
   */
  method ObtenerProbabilidades() returns (p: Probabilidades)
    ensures p == Probabilidades(33.33, 33.33, 33.33, 9, 3, 3, 3)
  {
    var totalOpciones := |CLAVES|;
    var total := totalOpciones * totalOpciones;
    var ganaUsuario, ganaMaquina, empates := 0, 0, 0;
    var i := 0;
    while i < |CLAVES|
      invariant 0 <= i <= |CLAVES|
      invariant ganaUsuario == i && ganaMaquina == i && empates == i
    {
      var g, m, e := ContarFila(CLAVES[i]);
      FilaEquilibrada(CLAVES[i]);
      ganaUsuario, ganaMaquina, empates := ganaUsuario + g, ganaMaquina + m, empates + e;
      i := i + 1;
    }
    PorcentajeExacto(3, 9, 3333);
    p := Probabilidades(Porcentaje(ganaUsuario, total), Porcentaje(ganaMaquina, total), Porcentaje(empates, total),
                        total, ganaUsuario, ganaMaquina, empates);
  }
}
