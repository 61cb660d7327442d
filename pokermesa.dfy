/**
 * The heads-up table of app/services/juegos/poker.py: the player and the
 * bank (`JugadorPoker`), the table (`MesaPoker`), the session that deals and
 * posts the blind (`SesionPoker`), the betting streets, the bank's play, the
 * showdown and the endpoints that start, play and abandon a hand.
 *
 * The objects are classes whose methods change their fields as the source
 * does. Each method is specified by a function over `Vista`, a snapshot of
 * every mutable field of a session; the rules of the game are proved on
 * those functions: the pot is what both sides have paid, `current_bet` is
 * the larger street contribution, no card is lost or duplicated, and the
 * street advances only when both sides have acted with equal bets.
 */
module PokerMesa {
  import opened Wrappers
  import opened Modelos
  import opened Poker

  // ---------------------------------------------------------------- enumerations

  /** `EstadoPartida` without `TERMINADA`, which a table never takes (the session's `estado` says it). */
  datatype Ronda = PreFlop | Flop | Turn | River | Showdown

  /** `AccionJugador`; also the values `ultima_accion` takes. */
  datatype Accion = Pasar | Igualar | Subir | Retirarse

  /** `SesionPoker.estado`: "activa" or "terminada". */
  datatype EstadoSesion = Activa | Terminada

  /** `AccionJugador(accion)`: the action named by the query string, if any. */
  function AccionDe(s: string): (a: Option<Accion>)
    ensures a.Some? <==> s in {"pasar", "igualar", "subir", "retirarse"}
  {
    if s == "pasar" then Some(Pasar)
    else if s == "igualar" then Some(Igualar)
    else if s == "subir" then Some(Subir)
    else if s == "retirarse" then Some(Retirarse)
    else None
  }

  function Min(a: int, b: int): int
  {
    if a <= b then a else b
  }

  function Max(a: int, b: int): int
  {
    if a >= b then a else b
  }

  // ---------------------------------------------------------------- snapshots

  /** The fields of a `JugadorPoker`. */
  datatype Lado = Lado(cartas: seq<Carta>, fichas: int, iniciales: int, enJuego: bool, ultima: Option<Accion>)

  /** Every field of a session that play reads: its deck, both sides, and the table. */
  datatype Vista = Vista(
    baraja: seq<Carta>,
    jugador: Lado,
    banca: Lado,
    comunitarias: seq<Carta>,
    bote: int,
    ronda: Ronda,
    smallBlind: int,
    bigBlind: int,
    currentBet: int,
    bets: seq<int>,
    jugadorActuo: bool,
    bancaActuo: bool,
    estado: EstadoSesion)

  /** `total_apostado()`: what a side has paid out of its starting chips. */
  function Total(l: Lado): int
  {
    l.iniciales - l.fichas
  }

  /** `pagar(cantidad)`: refused (no change) for a negative amount or one above the chips. */
  function Pagado(l: Lado, cantidad: int): (r: Lado)
    ensures 0 <= cantidad <= l.fichas ==> r.fichas == l.fichas - cantidad && Total(r) == Total(l) + cantidad
    ensures !(0 <= cantidad <= l.fichas) ==> r == l
    ensures r.cartas == l.cartas && r.iniciales == l.iniciales && r.enJuego == l.enJuego && r.ultima == l.ultima
  {
    if cantidad < 0 || cantidad > l.fichas then l else l.(fichas := l.fichas - cantidad)
  }

  /** `max(0, current_bet - bet)`: what a side must add to match the street's bet, never negative. */
  function Falta(currentBet: int, bet: int): (t: int)
    ensures t >= 0 && t >= currentBet - bet
    ensures t == 0 || t == currentBet - bet
  {
    Max(0, currentBet - bet)
  }

  /** `to_call(idx)` on a snapshot. */
  function ToCall(v: Vista, idx: int): int
    requires |v.bets| == 2 && 0 <= idx <= 1
  {
    Falta(v.currentBet, v.bets[idx])
  }

  /** The reverse of `s`: what `n` pops off the end of a list yield, in order. */
  function Invertida(s: seq<Carta>): (r: seq<Carta>)
    ensures |r| == |s| && multiset(r) == multiset(s)
  {
    if s == [] then [] else
      assert s == [s[0]] + s[1..];
      Invertida(s[1..]) + [s[0]]
  }

  /** Popping one card more appends it to the reversed tail. */
  lemma InvertidaPaso(b: seq<Carta>, i: nat)
    requires i < |b|
    ensures Invertida(b[|b| - i - 1..]) == Invertida(b[|b| - i..]) + [b[|b| - i - 1]]
  {
    assert b[|b| - i - 1..][1..] == b[|b| - i..];
  }

  /** `repartir_comunitarias(n)`: `n` cards popped from the deck onto the board. */
  function Repartida(v: Vista, n: nat): (r: Vista)
    requires n <= |v.baraja|
    ensures |r.baraja| == |v.baraja| - n && |r.comunitarias| == |v.comunitarias| + n
    ensures multiset(r.baraja) + multiset(r.comunitarias) == multiset(v.baraja) + multiset(v.comunitarias)
    ensures r.comunitarias[..|v.comunitarias|] == v.comunitarias
    ensures r == v.(baraja := r.baraja, comunitarias := r.comunitarias)
  {
    var m := |v.baraja|;
    assert v.baraja == v.baraja[..m - n] + v.baraja[m - n..];
    v.(comunitarias := v.comunitarias + Invertida(v.baraja[m - n..]), baraja := v.baraja[..m - n])
  }

  lemma RepartidaEs(v: Vista, n: nat)
    requires n <= |v.baraja|
    ensures Repartida(v, n) == v.(comunitarias := v.comunitarias + Invertida(v.baraja[|v.baraja| - n..]), baraja := v.baraja[..|v.baraja| - n])
  {
  }

  /** `reset_calle()`. */
  function Reset(v: Vista): Vista
  {
    v.(currentBet := 0, bets := [0, 0], jugadorActuo := false, bancaActuo := false)
  }

  // ---------------------------------------------------------------- a new hand

  /** `repartir_cartas_privadas()`: two cards popped for the player, then two for the bank. */
  function Privadas(v: Vista): (r: Vista)
    requires |v.baraja| >= 4
    ensures |r.jugador.cartas| == 2 && |r.banca.cartas| == 2 && |r.baraja| == |v.baraja| - 4
  {
    var b := v.baraja;
    var n := |b|;
    v.(jugador := v.jugador.(cartas := [b[n - 1], b[n - 2]]),
       banca := v.banca.(cartas := [b[n - 3], b[n - 4]]),
       baraja := b[..n - 4])
  }

  /** Dealing the private cards moves four cards of the deck into the hands: none is lost or made up. */
  lemma PrivadasConserva(v: Vista)
    requires |v.baraja| >= 4
    ensures var r := Privadas(v);
            multiset(r.baraja) + multiset(r.jugador.cartas) + multiset(r.banca.cartas) == multiset(v.baraja)
  {
    var b := v.baraja;
    var n := |b|;
    assert b == b[..n - 4] + [b[n - 4], b[n - 3]] + [b[n - 2], b[n - 1]];
    assert multiset(b) == multiset(b[..n - 4]) + multiset([b[n - 4], b[n - 3]]) + multiset([b[n - 2], b[n - 1]]);
  }

  /**
   * `procesar_blinds()`: the bank posts `min(big_blind, fichas)` (nothing if
   * `pagar` refuses it) and that is the bet to match; the player posts no
   * small blind.
   */
  function Blinds(v: Vista): (r: Vista)
    requires |v.bets| == 2
  {
    var bb := Min(v.bigBlind, v.banca.fichas);
    var puesto := if 0 <= bb <= v.banca.fichas then bb else 0;
    v.(banca := Pagado(v.banca, bb), bets := v.bets[1 := v.bets[1] + puesto],
       bote := v.bote + puesto, currentBet := puesto)
  }

  /** A new session: buy-in `apuesta` for the player, twice that for the bank, small blind `blind`, deck `mezcla`. */
  function Inicial(apuesta: int, blind: int, mezcla: seq<Carta>): Vista
    requires |mezcla| >= 4
  {
    var v := Vista(mezcla, Lado([], apuesta, apuesta, true, None), Lado([], apuesta * 2, apuesta * 2, true, None),
                   [], 0, PreFlop, blind, blind * 2, 0, [0, 0], false, false, Activa);
    Blinds(Privadas(v))
  }

  // ---------------------------------------------------------------- the invariant of a live hand

  /** The board holds 0 cards before the flop, 3 on the flop, 4 on the turn and 5 from the river on. */
  function Repartidas(r: Ronda): nat
  {
    match r
    case PreFlop => 0
    case Flop => 3
    case Turn => 4
    case River => 5
    case Showdown => 5
  }

  /**
   * What holds while a hand is live: the street bets are two non-negative
   * amounts and `current_bet` is the larger; both sides' chips lie between
   * nothing and their starting stack (the bank never folds); the pot is exactly what both have paid;
   * the big blind is twice the small one; each side holds two cards, the
   * board as many as the street has dealt, and deck, hands and board are the
   * 52 cards of one deck.
   */
  predicate Correcta(v: Vista)
  {
    && |v.bets| == 2 && v.bets[0] >= 0 && v.bets[1] >= 0
    && v.currentBet == Max(v.bets[0], v.bets[1])
    && v.smallBlind > 0 && v.bigBlind == 2 * v.smallBlind
    && 0 <= v.jugador.fichas <= v.jugador.iniciales
    && 0 <= v.banca.fichas <= v.banca.iniciales && v.banca.enJuego
    && v.bote == Total(v.jugador) + Total(v.banca)
    && |v.jugador.cartas| == 2 && |v.banca.cartas| == 2
    && |v.comunitarias| == Repartidas(v.ronda)
    && multiset(v.baraja) + multiset(v.jugador.cartas) + multiset(v.banca.cartas) + multiset(v.comunitarias)
       == multiset(Baraja())
  }

  /** The deck keeps the 48 cards not in a hand or on the board. */
  lemma Restantes(v: Vista)
    requires Correcta(v)
    ensures |v.baraja| == 48 - Repartidas(v.ronda)
  {
    var ms := multiset(v.baraja) + multiset(v.jugador.cartas) + multiset(v.banca.cartas) + multiset(v.comunitarias);
    assert |ms| == |v.baraja| + 2 + 2 + Repartidas(v.ronda);
    assert |multiset(Baraja())| == 52;
  }

  /** A new session is a live hand: the bank has posted its blind, the player nothing. */
  lemma InicialCorrecta(apuesta: int, blind: int, mezcla: seq<Carta>)
    requires apuesta >= 1 && blind >= 1 && multiset(mezcla) == multiset(Baraja())
    ensures |mezcla| == 52
    ensures Correcta(Inicial(apuesta, blind, mezcla))
    ensures var v := Inicial(apuesta, blind, mezcla);
            && v.bets == [0, Min(2 * blind, 2 * apuesta)] && v.currentBet == v.bets[1]
            && v.bote == v.bets[1] && Total(v.jugador) == 0
            && ToCall(v, 0) == v.bets[1]
  {
    assert |mezcla| == |multiset(mezcla)| == 52;
    PrivadasConserva(Vista(mezcla, Lado([], apuesta, apuesta, true, None), Lado([], apuesta * 2, apuesta * 2, true, None),
                           [], 0, PreFlop, blind, blind * 2, 0, [0, 0], false, false, Activa));
  }

  // ---------------------------------------------------------------- the player's action

  /** What `subir` must add at least: `to_call + big_blind`, or `big_blind` when nothing is owed. */
  function MinimaSubida(v: Vista): int
    requires |v.bets| == 2
  {
    if ToCall(v, 0) > 0 then ToCall(v, 0) + v.bigBlind else v.bigBlind
  }

  /** Side `idx` pays `c` (the result of `pagar` is not looked at), adds it to its street bet and to the pot; a raise lifts `current_bet`. */
  function Aportar(v: Vista, idx: int, c: int, subir: bool): (r: Vista)
    requires |v.bets| == 2 && 0 <= idx <= 1
    ensures |r.bets| == 2 && r.bets[idx] == v.bets[idx] + c && r.bets[1 - idx] == v.bets[1 - idx]
    ensures r.bote == v.bote + c
  {
    var b := v.bets[idx := v.bets[idx] + c];
    var w := if idx == 0 then v.(jugador := Pagado(v.jugador, c)) else v.(banca := Pagado(v.banca, c));
    w.(bets := b, bote := v.bote + c, currentBet := if subir then Max(v.currentBet, b[idx]) else v.currentBet)
  }

  /** `pasar`, or `igualar` with nothing owed. */
  function Paso(v: Vista): Vista
  {
    v.(jugador := v.jugador.(ultima := Some(Pasar)), jugadorActuo := true)
  }

  /**
   * The player's part of `realizar_accion` for `pasar`, `igualar` and `subir`:
   * each refused with 400 when its rule is broken, which changes nothing.
   */
  function TrasJugador(v: Vista, a: Accion, cantidad: int): (r: Result<Vista>)
    requires |v.bets| == 2 && a != Retirarse
    ensures a == Pasar ==> (r.Ok? <==> ToCall(v, 0) == 0)
    ensures a == Igualar ==> (r.Ok? <==> ToCall(v, 0) == 0 || ToCall(v, 0) <= v.jugador.fichas)
    ensures a == Subir ==> (r.Ok? <==> MinimaSubida(v) <= cantidad <= v.jugador.fichas)
    ensures r.Err? ==> r.code == 400
    ensures r.Ok? ==> r.value.jugadorActuo && r.value.bancaActuo == v.bancaActuo && r.value.ronda == v.ronda
  {
    var toCall := ToCall(v, 0);
    match a
    case Pasar =>
      if toCall != 0 then Err(400) else Ok(Paso(v))
    case Igualar =>
      if toCall <= 0 then Ok(Paso(v))
      else
        var pago := Min(toCall, v.jugador.fichas);
        if pago != toCall then Err(400)
        else
          var w := Aportar(v, 0, pago, false);
          Ok(w.(jugador := w.jugador.(ultima := Some(Igualar)), jugadorActuo := true))
    case Subir =>
      if cantidad < MinimaSubida(v) || cantidad > v.jugador.fichas then Err(400)
      else
        var w := Aportar(v, 0, cantidad, true);
        Ok(w.(jugador := w.jugador.(ultima := Some(Subir)), jugadorActuo := true))
  }

  /** An allowed action keeps the hand live and correct; a call matches the bet; a raise sets it. */
  lemma JugadorCorrecta(v: Vista, a: Accion, cantidad: int)
    requires Correcta(v) && a != Retirarse && TrasJugador(v, a, cantidad).Ok?
    ensures var w := TrasJugador(v, a, cantidad).value;
            && Correcta(w)
            && w.bets[1] == v.bets[1] && w.banca == v.banca
            && (a == Igualar ==> w.bets[0] == v.currentBet)
            && (a == Subir ==> w.currentBet == w.bets[0] && w.bets[0] >= v.currentBet + v.bigBlind)
  {
  }

  // ---------------------------------------------------------------- the bank's action

  /** What `_accion_banca` chooses and how much it adds. */
  datatype Decision = Decision(accion: Accion, cantidad: int)

  /**
   * The bank's choice from what it owes (`toCall`), the category of its
   * cards (`fuerza`, `ManoPoker.value`) and the draw `azar` of
   * `random.random()`: with a pair or better it bets when nothing is owed
   * (45%) or raises when something is (35%); otherwise it checks or calls.
   * It never folds.
   */
  function Decidir(toCall: int, fuerza: int, azar: real, bigBlind: int, fichas: int): (d: Decision)
    requires toCall >= 0 && fichas >= 0
    ensures d.accion != Retirarse
    ensures 0 <= d.cantidad <= fichas
    ensures d.accion == Subir ==> d.cantidad > 0
    ensures toCall == 0 ==> d.accion != Igualar
    ensures toCall > 0 ==> d.accion != Pasar
    ensures d.accion == Pasar ==> d.cantidad == 0
    ensures d.accion != Subir ==> d.cantidad <= toCall
    ensures fuerza < 2 ==> d.accion != Subir
  {
    if toCall == 0 then
      if fuerza >= 2 && azar < 0.45 then
        var subida := Min(Max(bigBlind, 10), fichas);
        if subida > 0 then Decision(Subir, subida) else Decision(Pasar, 0)
      else Decision(Pasar, 0)
    else if fuerza >= 2 && azar < 0.35 then
      var total := Min(toCall + Max(bigBlind, toCall), fichas);
      if total > 0 then Decision(Subir, total) else Decision(Igualar, 0)
    else Decision(Igualar, Min(toCall, fichas))
  }

  /** `ManoPoker.value` of what `evaluar_mano` makes of `cs`; it fails only on four cards. */
  function FuerzaDe(cs: seq<Carta>): (f: int)
    requires |cs| != 4
    ensures 1 <= f <= 10
  {
    EvaluacionSinError(cs);
    Fuerza(Evaluacion(cs).value.mano)
  }

  /** What a player's request leaves: the new state, and the bank's action (`None` for "espera") and amount. */
  datatype Jugada = Jugada(v: Vista, accionBanca: Option<Accion>, cantidadBanca: int)

  /**
   * `_accion_banca`: nothing once the bank has acted on this street; else it
   * decides, pays what it decided and marks itself as having acted.
   */
  function TrasBanca(v: Vista, azar: real): (j: Jugada)
    requires |v.bets| == 2 && |v.banca.cartas + v.comunitarias| != 4 && v.banca.fichas >= 0
  {
    if v.bancaActuo || !v.banca.enJuego then Jugada(v, None, 0)
    else
      var d := Decidir(ToCall(v, 1), FuerzaDe(v.banca.cartas + v.comunitarias), azar, v.bigBlind, v.banca.fichas);
      var w := if d.accion == Subir then Aportar(v, 1, d.cantidad, true)
               else if d.cantidad > 0 then Aportar(v, 1, d.cantidad, false)
               else v;
      Jugada(w.(banca := w.banca.(ultima := Some(d.accion)), bancaActuo := true), Some(d.accion), d.cantidad)
  }

  /** The bank's action keeps the hand correct, leaves the player alone and marks the bank as having acted. */
  lemma BancaCorrecta(v: Vista, azar: real)
    requires Correcta(v)
    ensures |v.banca.cartas + v.comunitarias| != 4
    ensures var j := TrasBanca(v, azar);
            && Correcta(j.v)
            && j.v.bancaActuo
            && j.v.jugador == v.jugador && j.v.bets[0] == v.bets[0] && j.v.jugadorActuo == v.jugadorActuo
            && j.v.ronda == v.ronda && j.v.baraja == v.baraja && j.v.comunitarias == v.comunitarias
            && (j.accionBanca.Some? ==> j.accionBanca.value != Retirarse)
  {
    assert |v.banca.cartas + v.comunitarias| == 2 + Repartidas(v.ronda);
    var j := TrasBanca(v, azar);
    if !v.bancaActuo {
      var d := Decidir(ToCall(v, 1), FuerzaDe(v.banca.cartas + v.comunitarias), azar, v.bigBlind, v.banca.fichas);
      var w := if d.accion == Subir then Aportar(v, 1, d.cantidad, true)
               else if d.cantidad > 0 then Aportar(v, 1, d.cantidad, false)
               else v;
      assert |w.bets| == 2 && w.bets[0] >= 0 && w.bets[1] >= 0;
      assert w.currentBet == Max(w.bets[0], w.bets[1]);
      assert 0 <= w.banca.fichas <= w.banca.iniciales && w.banca.enJuego;
      assert w.bote == Total(w.jugador) + Total(w.banca);
      assert |w.jugador.cartas| == 2 && |w.banca.cartas| == 2;
    }
  }

  // ---------------------------------------------------------------- streets

  /** `_avanzar_calle`'s order of streets; the showdown stays where it is. */
  function Siguiente(r: Ronda): Ronda
  {
    match r
    case PreFlop => Flop
    case Flop => Turn
    case Turn => River
    case River => Showdown
    case Showdown => Showdown
  }

  /** The cards `_avanzar_calle` deals: 3 for the flop, 1 for the turn and 1 for the river. */
  function Nuevas(r: Ronda): nat
  {
    match r
    case PreFlop => 3
    case Flop => 1
    case Turn => 1
    case River => 0
    case Showdown => 0
  }

  /** `_avanzar_calle`: the next street, its cards, and a fresh street (`reset_calle`). */
  function Avanzada(v: Vista): (r: Vista)
    requires Nuevas(v.ronda) <= |v.baraja|
  {
    Reset(Repartida(v.(ronda := Siguiente(v.ronda)), Nuevas(v.ronda)))
  }

  /** Moving on keeps the hand correct: the board gains the street's cards from the deck, and the street bets start from zero. */
  lemma AvanzadaCorrecta(v: Vista)
    requires Correcta(v)
    ensures Nuevas(v.ronda) <= |v.baraja|
    ensures var w := Avanzada(v);
            && Correcta(w)
            && w.ronda == Siguiente(v.ronda)
            && |w.comunitarias| == |v.comunitarias| + Nuevas(v.ronda) && w.comunitarias[..|v.comunitarias|] == v.comunitarias
            && w.bets == [0, 0] && w.currentBet == 0 && !w.jugadorActuo && !w.bancaActuo
            && w.bote == v.bote && w.jugador == v.jugador && w.banca == v.banca
  {
    Restantes(v);
    var r := Repartida(v.(ronda := Siguiente(v.ronda)), Nuevas(v.ronda));
    MazoIgual(multiset(v.baraja), multiset(r.baraja), multiset(v.comunitarias), multiset(r.comunitarias),
              multiset(v.jugador.cartas), multiset(v.banca.cartas));
  }

  /** Cards moved between the deck and the board leave the whole unchanged. */
  lemma MazoIgual(b: multiset<Carta>, b2: multiset<Carta>, c: multiset<Carta>, c2: multiset<Carta>, j: multiset<Carta>, k: multiset<Carta>)
    requires b2 + c2 == b + c
    ensures b2 + j + k + c2 == b + j + k + c
  {
    forall x
      ensures (b2 + j + k + c2)[x] == (b + j + k + c)[x]
    {
      assert (b2 + c2)[x] == (b + c)[x];
    }
  }

  /** After both sides' actions: the street advances when both have acted and put in the same. */
  function Cierre(v: Vista): Vista
    requires |v.bets| == 2 && Nuevas(v.ronda) <= |v.baraja|
  {
    if v.jugadorActuo && v.bancaActuo && v.bets[0] == v.bets[1] then Avanzada(v) else v
  }

  /** The whole of a `pasar`, `igualar` or `subir` request: the player's action, the bank's, and perhaps a new street. */
  function Jugar(v: Vista, a: Accion, cantidad: int, azar: real): (r: Result<Jugada>)
    requires Correcta(v) && a != Retirarse
  {
    var t := TrasJugador(v, a, cantidad);
    if t.Err? then Err(t.code)
    else
      JugadorCorrecta(v, a, cantidad);
      var j := TrasBanca(t.value, azar);
      BancaCorrecta(t.value, azar);
      Restantes(j.v);
      Ok(j.(v := Cierre(j.v)))
  }

  /**
   * One action per street: after a request the hand is still correct, and
   * either the street moved on (fresh bets, neither side has acted) or it did
   * not, and then the player has acted on it, so the next request until the
   * street changes is refused. The street moves on exactly when both sides'
   * bets ended equal.
   */
  lemma JugarCorrecta(v: Vista, a: Accion, cantidad: int, azar: real)
    requires Correcta(v) && a != Retirarse && Jugar(v, a, cantidad, azar).Ok?
    ensures var w := Jugar(v, a, cantidad, azar).value.v;
            var j := TrasBanca(TrasJugador(v, a, cantidad).value, azar).v;
            && Correcta(w)
            && j.jugadorActuo && j.bancaActuo
            && (j.bets[0] == j.bets[1] ==>
                  w.ronda == Siguiente(v.ronda) && w.bets == [0, 0] && !w.jugadorActuo && !w.bancaActuo)
            && (j.bets[0] != j.bets[1] ==> w == j && w.ronda == v.ronda)
            && w.jugador.iniciales == v.jugador.iniciales && w.banca.iniciales == v.banca.iniciales
            && w.estado == v.estado
  {
    var t := TrasJugador(v, a, cantidad).value;
    JugadorCorrecta(v, a, cantidad);
    BancaCorrecta(t, azar);
    CierreCorrecta(TrasBanca(t, azar).v);
  }

  /** Closing a street both sides have acted on keeps the hand correct; it moves on exactly when the bets are equal. */
  lemma CierreCorrecta(j: Vista)
    requires Correcta(j) && j.jugadorActuo && j.bancaActuo
    ensures Nuevas(j.ronda) <= |j.baraja|
    ensures var w := Cierre(j);
            && Correcta(w)
            && (j.bets[0] == j.bets[1] ==>
                  w.ronda == Siguiente(j.ronda) && w.bets == [0, 0] && !w.jugadorActuo && !w.bancaActuo)
            && (j.bets[0] != j.bets[1] ==> w == j)
            && w.jugador.iniciales == j.jugador.iniciales && w.banca.iniciales == j.banca.iniciales
            && w.estado == j.estado
  {
    Restantes(j);
    if j.bets[0] == j.bets[1] {
      AvanzadaCorrecta(j);
    }
  }

  // ---------------------------------------------------------------- the end of a hand

  /** What `evaluar_mano` returns for `cs`; on distinct cards its category is the standard one. */
  function ValoracionDe(cs: seq<Carta>): (r: Valoracion)
    requires |cs| != 4
    ensures UnaMano(cs) ==> r.mano == Categoria(cs)
  {
    EvaluacionSinError(cs);
    if UnaMano(cs) then
      EvaluacionCategoria(cs);
      Evaluacion(cs).value
    else
      Evaluacion(cs).value
  }

  /** In a correct hand each side sees 2, 5, 6 or 7 cards, never the 4 that `evaluar_mano` rejects. */
  lemma Manos(v: Vista)
    requires Correcta(v)
    ensures |v.jugador.cartas + v.comunitarias| != 4 && |v.banca.cartas + v.comunitarias| != 4
  {
  }

  /** Who wins the showdown: the player's seven cards against the bank's. */
  function GanadorShowdown(v: Vista): Vencedor
    requires Correcta(v)
  {
    Manos(v);
    Veredicto(ValoracionDe(v.jugador.cartas + v.comunitarias), ValoracionDe(v.banca.cartas + v.comunitarias))
  }

  /** The player's share of the pot: all of it, nothing, or `bote // 2` on a split. */
  function Parte(g: Vencedor, bote: int): int
  {
    match g
    case GanaJugador => bote
    case GanaBanca => 0
    case Empate => bote / 2
  }

  /** The `ganancia` the showdown reports: the share minus what the player paid in. */
  function GananciaShowdown(g: Vencedor, bote: int, total: int): int
  {
    Parte(g, bote) - total
  }

  /**
   * The player's net result over the whole hand is what the showdown
   * reports: the winner nets what the other side paid in and the loser loses
   * what it paid in.
   */
  lemma GananciaReparto(v: Vista, g: Vencedor)
    requires Correcta(v)
    ensures g == GanaJugador ==> GananciaShowdown(g, v.bote, Total(v.jugador)) == Total(v.banca)
    ensures g == GanaBanca ==> GananciaShowdown(g, v.bote, Total(v.jugador)) == -Total(v.jugador)
    ensures g == Empate ==> GananciaShowdown(g, v.bote, Total(v.jugador)) == (Total(v.jugador) + Total(v.banca)) / 2 - Total(v.jugador)
    ensures -Total(v.jugador) <= GananciaShowdown(g, v.bote, Total(v.jugador)) <= Total(v.banca)
  {
  }

  /** The credit `_resolver_showdown` makes as written: the gain when positive, else nothing. */
  function AbonoShowdownTalCual(g: Vencedor, bote: int, total: int): int
  {
    var ganancia := GananciaShowdown(g, bote, total);
    if ganancia > 0 then ganancia else 0
  }

  /** The credit that settles the hand: the chips the player did not bet, and its share of the pot. */
  function AbonoShowdown(g: Vencedor, bote: int, fichas: int): int
  {
    fichas + Parte(g, bote)
  }

  /** With the buy-in debited up front, the corrected credit moves the balance by exactly the reported gain. */
  lemma ShowdownCuadra(v: Vista, g: Vencedor)
    requires Correcta(v)
    ensures AbonoShowdown(g, v.bote, v.jugador.fichas) - v.jugador.iniciales == GananciaShowdown(g, v.bote, Total(v.jugador))
    ensures AbonoShowdown(g, v.bote, v.jugador.fichas) >= 0
  {
  }

  /**
   * As written, a player who bought in for 200, bet 20 and won a pot of 40
   * is credited 20: its balance ends 180 below where it started, although
   * the reported gain is +20.
   */
  lemma ShowdownDescuadra()
    ensures GananciaShowdown(GanaJugador, 40, 20) == 20
    ensures AbonoShowdownTalCual(GanaJugador, 40, 20) - 200 == -180
    ensures AbonoShowdown(GanaJugador, 40, 180) - 200 == 20
  {
  }

  /** `retirarse`: the player folds, the session ends and the pot is emptied. */
  function Retirada(v: Vista): Vista
  {
    v.(jugador := v.jugador.(enJuego := false, ultima := Some(Retirarse)), estado := Terminada, bote := 0)
  }

  /** As written a fold credits nothing; the corrected credit returns the chips not bet. */
  function AbonoRetiroTalCual(fichas: int): int
  {
    0
  }

  function AbonoRetiro(fichas: int): int
  {
    fichas
  }

  /** A fold costs exactly what was bet, the `ganancia` it reports, once the unbet chips come back. */
  lemma RetiroCuadra(v: Vista)
    requires Correcta(v)
    ensures AbonoRetiro(v.jugador.fichas) - v.jugador.iniciales == -Total(v.jugador)
    ensures Total(v.jugador) < v.jugador.iniciales ==> AbonoRetiroTalCual(v.jugador.fichas) - v.jugador.iniciales < -Total(v.jugador)
  {
  }

  /** A buy-in of 200 folded before any bet: as written the balance ends 200 down, though the reported gain is 0. */
  lemma RetiroDescuadra()
    ensures AbonoRetiroTalCual(200) - 200 == -200
    ensures AbonoRetiro(200) - 200 == 0
  {
  }

  /** The `ganancia` of `rendirse`: nothing when nothing was bet, else the half of the bets kept. */
  function GananciaRendicion(total: int): int
  {
    if total == 0 then 0 else total / 2 - total
  }

  /** `devolucion` as written: the whole buy-in when nothing was bet, else half of what was bet (`//`, the same as `/` for a positive divisor). */
  function DevolucionTalCual(total: int, apuestaInicial: int): int
  {
    if total == 0 then apuestaInicial else total / 2
  }

  /** The corrected refund: the unbet chips and half of what was bet. */
  function Devolucion(total: int, fichas: int): int
  {
    fichas + total / 2
  }

  /**
   * The corrected refund agrees with the source when nothing was bet, and
   * always moves the balance by exactly the reported gain; as written, any
   * bet below the whole buy-in loses the unbet chips as well.
   */
  lemma RendicionCuadra(total: int, fichas: int, apuestaInicial: int)
    requires total >= 0 && fichas >= 0 && fichas + total == apuestaInicial
    ensures total == 0 ==> Devolucion(total, fichas) == DevolucionTalCual(total, apuestaInicial)
    ensures Devolucion(total, fichas) - apuestaInicial == GananciaRendicion(total)
    ensures total > 0 && fichas > 0 ==> DevolucionTalCual(total, apuestaInicial) - apuestaInicial < GananciaRendicion(total)
  {
  }

  /** A buy-in of 200 with 20 bet: as written the surrender refunds 10, leaving the balance 190 down, not the reported 10. */
  lemma RendicionDescuadra()
    ensures GananciaRendicion(20) == -10
    ensures DevolucionTalCual(20, 200) - 200 == -190
    ensures Devolucion(20, 180) - 200 == -10
  {
  }

  /**
   * Which credits settle a hand: the ones the handlers make as written
   * (`AbonoShowdownTalCual`, `AbonoRetiroTalCual`, `DevolucionTalCual`), or
   * the corrected ones that also return the chips not bet.
   */
  datatype Liquidacion = TalCual | Corregida

  /** The showdown credit under either settlement. */
  function AbonoShowdownDe(l: Liquidacion, g: Vencedor, bote: int, total: int, fichas: int): int
  {
    if l == TalCual then AbonoShowdownTalCual(g, bote, total) else AbonoShowdown(g, bote, fichas)
  }

  /** The fold credit under either settlement. */
  function AbonoRetiroDe(l: Liquidacion, fichas: int): int
  {
    if l == TalCual then AbonoRetiroTalCual(fichas) else AbonoRetiro(fichas)
  }

  /** The surrender refund under either settlement. */
  function DevolucionDe(l: Liquidacion, total: int, fichas: int, apuestaInicial: int): int
  {
    if l == TalCual then DevolucionTalCual(total, apuestaInicial) else Devolucion(total, fichas)
  }

  // ---------------------------------------------------------------- the objects

  /** `JugadorPoker`: one side of the table, the player or the bank. */
  class Jugador {
    const usuarioId: int
    var cartas: seq<Carta>
    var fichas: int
    const fichasIniciales: int
    var enJuego: bool
    var ultimaAccion: Option<Accion>

    /** Every field but the id, as a snapshot. */
    function Foto(): Lado
      reads this
    {
      Lado(cartas, fichas, fichasIniciales, enJuego, ultimaAccion)
    }

    /** A side with no cards, its whole stack, still in the hand. */
    constructor (usuarioId: int, fichasIniciales: int)
      ensures this.usuarioId == usuarioId
      ensures Foto() == Lado([], fichasIniciales, fichasIniciales, true, None)
    {
      this.usuarioId := usuarioId;
      cartas := [];
      fichas := fichasIniciales;
      this.fichasIniciales := fichasIniciales;
      enJuego := true;
      ultimaAccion := None;
    }

    /** `recibir_cartas`: the hand is replaced. */
    method RecibirCartas(cs: seq<Carta>)
      modifies this`cartas
      ensures Foto() == old(Foto()).(cartas := cs)
    {
      cartas := cs;
    }

    /** `retirar`: out of the hand, with "retirarse" as its last action. */
    method Retirar()
      modifies this`enJuego, this`ultimaAccion
      ensures Foto() == old(Foto()).(enJuego := false, ultima := Some(Retirarse))
    {
      enJuego := false;
      ultimaAccion := Some(Retirarse);
    }

    /** `puede_jugar`. */
    function PuedeJugar(): (b: bool)
      reads this`enJuego
      ensures b <==> enJuego
    {
      enJuego
    }

    /** `pagar`: accepted exactly when the amount is between nothing and the chips left, which then drop by it. */
    method Pagar(cantidad: int) returns (ok: bool)
      modifies this`fichas
      ensures ok <==> 0 <= cantidad <= old(fichas)
      ensures Foto() == Pagado(old(Foto()), cantidad)
      ensures ok ==> TotalApostado() == old(TotalApostado()) + cantidad
    {
      if cantidad < 0 {
        return false;
      }
      if cantidad > fichas {
        return false;
      }
      fichas := fichas - cantidad;
      return true;
    }

    /** `total_apostado`: the chips gone from the starting stack. */
    function TotalApostado(): (t: int)
      reads this
      ensures t == Total(Foto())
      ensures fichas == fichasIniciales ==> t == 0
    {
      fichasIniciales - fichas
    }
  }

  /** `MesaPoker`: the board, the pot and the current street's betting. */
  class Mesa {
    var comunitarias: seq<Carta>
    var bote: int
    var ronda: Ronda
    const smallBlind: int
    const bigBlind: int
    var currentBet: int
    var bets: seq<int>
    var jugadorActuo: bool
    var bancaActuo: bool

    /** An empty table before the flop; the big blind is twice the small one. */
    constructor (smallBlind: int)
      ensures this.smallBlind == smallBlind && bigBlind == smallBlind * 2
      ensures comunitarias == [] && bote == 0 && ronda == PreFlop
      ensures currentBet == 0 && bets == [0, 0] && !jugadorActuo && !bancaActuo
    {
      comunitarias := [];
      bote := 0;
      ronda := PreFlop;
      this.smallBlind := smallBlind;
      bigBlind := smallBlind * 2;
      currentBet := 0;
      bets := [0, 0];
      jugadorActuo := false;
      bancaActuo := false;
    }

    /** `reset_calle`: a new street with no bets and nobody having acted. */
    method ResetCalle()
      modifies this`currentBet, this`bets, this`jugadorActuo, this`bancaActuo
      ensures currentBet == 0 && bets == [0, 0] && !jugadorActuo && !bancaActuo
    {
      currentBet := 0;
      bets := [0, 0];
      jugadorActuo := false;
      bancaActuo := false;
    }

    /** `to_call(idx)`. */
    function ToCall(idx: int): (t: int)
      reads this`currentBet, this`bets
      requires |bets| == 2 && 0 <= idx <= 1
      ensures t == Falta(currentBet, bets[idx])
      ensures t == 0 <==> bets[idx] >= currentBet
    {
      Falta(currentBet, bets[idx])
    }

    /** `meter_al_bote`. */
    method MeterAlBote(cantidad: int)
      modifies this`bote
      ensures bote == old(bote) + cantidad
    {
      bote := bote + cantidad;
    }
  }

  /** `SesionPoker`: one hand of heads-up hold'em between a user and the bank. */
  class Sesion {
    const sessionId: string
    const usuarioId: int
    const apuestaInicial: int
    const createdAt: real
    var estado: EstadoSesion
    const bancaId: int
    const mesa: Mesa
    var baraja: seq<Carta>
    const jugador: Jugador
    const banca: Jugador

    /** The snapshot of every field play reads. */
    function Foto(): Vista
      reads this, mesa, jugador, banca
    {
      Vista(baraja, jugador.Foto(), banca.Foto(), mesa.comunitarias, mesa.bote, mesa.ronda, mesa.smallBlind,
            mesa.bigBlind, mesa.currentBet, mesa.bets, mesa.jugadorActuo, mesa.bancaActuo, estado)
    }

    /** Two distinct sides, the player's stack is the buy-in, and the hand is correct. */
    predicate Valid()
      reads this, mesa, jugador, banca
    {
      && jugador != banca
      && jugador.usuarioId == usuarioId && jugador.fichasIniciales == apuestaInicial
      && Correcta(Foto())
    }

    /**
     * A new hand over the shuffled deck `mezcla`, created at `ahora`: the
     * player has the buy-in, the bank twice it, the private cards are dealt
     * and the bank has posted its blind.
     */
    constructor (sessionId: string, usuarioId: int, apuesta: int, blind: int, mezcla: seq<Carta>, ahora: real, bancaId: int)
      requires |mezcla| >= 4
      ensures this.sessionId == sessionId && this.usuarioId == usuarioId && apuestaInicial == apuesta
      ensures createdAt == ahora && this.bancaId == bancaId
      ensures fresh(mesa) && fresh(jugador) && fresh(banca) && jugador != banca
      ensures jugador.usuarioId == usuarioId && jugador.fichasIniciales == apuesta
      ensures Foto() == Inicial(apuesta, blind, mezcla)
    {
      this.sessionId := sessionId;
      this.usuarioId := usuarioId;
      apuestaInicial := apuesta;
      createdAt := ahora;
      estado := Activa;
      this.bancaId := bancaId;
      mesa := new Mesa(blind);
      baraja := mezcla;
      jugador := new Jugador(usuarioId, apuesta);
      banca := new Jugador(bancaId, apuesta * 2);
      new;
      ghost var v := Foto();
      assert v == Vista(mezcla, Lado([], apuesta, apuesta, true, None), Lado([], apuesta * 2, apuesta * 2, true, None),
                        [], 0, PreFlop, blind, blind * 2, 0, [0, 0], false, false, Activa);
      RepartirCartasPrivadas();
      ghost var w := Foto();
      assert w == Privadas(v);
      ProcesarBlinds();
      assert Foto() == Blinds(w);
    }

    /** `baraja.pop()`: the last card of the deck. */
    method Robar() returns (c: Carta)
      requires |baraja| > 0
      modifies this`baraja
      ensures c == old(baraja[|baraja| - 1]) && baraja == old(baraja[..|baraja| - 1])
    {
      c := baraja[|baraja| - 1];
      baraja := baraja[..|baraja| - 1];
    }

    /** `repartir_cartas_privadas`. */
    method RepartirCartasPrivadas()
      requires |baraja| >= 4 && jugador != banca
      modifies this`baraja, jugador`cartas, banca`cartas
      ensures Foto() == Privadas(old(Foto()))
    {
      ghost var v := Foto();
      ghost var n := |baraja|;
      var a := Robar();
      var b := Robar();
      jugador.RecibirCartas([a, b]);
      var c := Robar();
      var d := Robar();
      banca.RecibirCartas([c, d]);
      assert [a, b] == [v.baraja[n - 1], v.baraja[n - 2]] && [c, d] == [v.baraja[n - 3], v.baraja[n - 4]];
      assert baraja == v.baraja[..n - 4];
      assert Foto() == v.(jugador := v.jugador.(cartas := [a, b]), banca := v.banca.(cartas := [c, d]), baraja := baraja);
    }

    /** `procesar_blinds`. */
    method ProcesarBlinds()
      requires |mesa.bets| == 2 && jugador != banca
      modifies banca`fichas, mesa`bets, mesa`bote, mesa`currentBet
      ensures Foto() == Blinds(old(Foto()))
    {
      var bb := Min(mesa.bigBlind, banca.fichas);
      var ok := banca.Pagar(bb);
      if !ok {
        bb := 0;
      }
      mesa.bets := mesa.bets[1 := mesa.bets[1] + bb];
      mesa.MeterAlBote(bb);
      mesa.currentBet := bb;
    }

    /** `repartir_comunitarias(n)`: `n` cards popped from the deck onto the board. */
    method RepartirComunitarias(n: nat)
      requires n <= |baraja|
      modifies this`baraja, mesa`comunitarias
      ensures Foto() == Repartida(old(Foto()), n)
    {
      ghost var v := Foto();
      ghost var b := v.baraja[..|v.baraja| - n];
      ghost var c := v.comunitarias + Invertida(v.baraja[|v.baraja| - n..]);
      Sacar(n);
      assert baraja == b && mesa.comunitarias == c;
      assert jugador.Foto() == v.jugador && banca.Foto() == v.banca;
      RepartidaEs(v, n);
      assert Foto() == v.(comunitarias := v.comunitarias + Invertida(v.baraja[|v.baraja| - n..]),
                          baraja := v.baraja[..|v.baraja| - n]);
      assert Foto() == Repartida(v, n);
    }

    /** The loop of `repartir_comunitarias`: each of `n` pops is appended to the board. */
    method Sacar(n: nat)
      requires n <= |baraja|
      modifies this`baraja, mesa`comunitarias
      ensures baraja == old(baraja[..|baraja| - n])
      ensures mesa.comunitarias == old(mesa.comunitarias + Invertida(baraja[|baraja| - n..]))
    {
      ghost var b0 := baraja;
      ghost var c0 := mesa.comunitarias;
      ghost var m := |b0|;
      for i := 0 to n
        invariant baraja == b0[..m - i]
        invariant mesa.comunitarias == c0 + Invertida(b0[m - i..])
      {
        var c := Robar();
        InvertidaPaso(b0, i);
        mesa.comunitarias := mesa.comunitarias + [c];
      }
    }
  }

  // ---------------------------------------------------------------- play on a session

  /** `_avanzar_calle`: the next street and its cards, then a fresh street. */
  method AvanzarCalle(s: Sesion)
    requires Nuevas(s.mesa.ronda) <= |s.baraja|
    modifies s`baraja, s.mesa`ronda, s.mesa`comunitarias, s.mesa`currentBet, s.mesa`bets, s.mesa`jugadorActuo, s.mesa`bancaActuo
    ensures s.Foto() == Avanzada(old(s.Foto()))
  {
    CambiarCalle(s);
    ghost var w := s.Foto();
    s.mesa.ResetCalle();
    assert s.Foto() == Reset(w);
  }

  /** The street chain of `_avanzar_calle`: 3 cards for the flop, 1 for the turn and the river, none for the showdown. */
  method CambiarCalle(s: Sesion)
    requires Nuevas(s.mesa.ronda) <= |s.baraja|
    modifies s`baraja, s.mesa`ronda, s.mesa`comunitarias
    ensures s.Foto() == Repartida(old(s.Foto()).(ronda := Siguiente(old(s.mesa.ronda))), Nuevas(old(s.mesa.ronda)))
  {
    ghost var v := s.Foto();
    if s.mesa.ronda == PreFlop {
      AbrirCalle(s, Flop, 3);
    } else if s.mesa.ronda == Flop {
      AbrirCalle(s, Turn, 1);
    } else if s.mesa.ronda == Turn {
      AbrirCalle(s, River, 1);
    } else if s.mesa.ronda == River {
      s.mesa.ronda := Showdown;
      RepartidaEs(v.(ronda := Showdown), 0);
      assert s.Foto() == v.(ronda := Showdown);
    } else {
      RepartidaEs(v, 0);
    }
  }

  /** Street `r` begins and `n` cards are turned onto the board. */
  method AbrirCalle(s: Sesion, r: Ronda, n: nat)
    requires n <= |s.baraja|
    modifies s`baraja, s.mesa`ronda, s.mesa`comunitarias
    ensures s.Foto() == Repartida(old(s.Foto()).(ronda := r), n)
  {
    ghost var v := s.Foto();
    s.mesa.ronda := r;
    assert s.Foto() == v.(ronda := r);
    s.RepartirComunitarias(n);
  }

  /** Side `idx` of session `s` pays `c` toward its street bet and the pot; a raise lifts `current_bet`. */
  method Poner(s: Sesion, idx: int, c: int, subir: bool)
    requires |s.mesa.bets| == 2 && 0 <= idx <= 1 && s.jugador != s.banca
    modifies s.jugador`fichas, s.banca`fichas, s.mesa`bets, s.mesa`bote, s.mesa`currentBet
    ensures s.Foto() == Aportar(old(s.Foto()), idx, c, subir)
  {
    ghost var v := s.Foto();
    var lado := if idx == 0 then s.jugador else s.banca;
    var _ := lado.Pagar(c);
    s.mesa.bets := s.mesa.bets[idx := s.mesa.bets[idx] + c];
    if subir {
      s.mesa.currentBet := Max(s.mesa.currentBet, s.mesa.bets[idx]);
    }
    s.mesa.MeterAlBote(c);
    assert s.Foto() == Aportar(v, idx, c, subir);
  }

  /**
   * The player's part of `realizar_accion` for `pasar`, `igualar` and
   * `subir`: `ok` is false for the 400 answers, which change nothing.
   */
  method AccionJugador(s: Sesion, a: Accion, cantidad: int) returns (ok: bool)
    requires |s.mesa.bets| == 2 && a != Retirarse && s.jugador != s.banca
    modifies s.jugador`fichas, s.jugador`ultimaAccion, s.banca`fichas, s.mesa`bets, s.mesa`bote, s.mesa`currentBet, s.mesa`jugadorActuo
    ensures var r := TrasJugador(old(s.Foto()), a, cantidad);
            && (ok <==> r.Ok?)
            && s.Foto() == (if ok then r.value else old(s.Foto()))
  {
    ghost var v := s.Foto();
    var toCall := s.mesa.ToCall(0);
    if a == Pasar {
      if toCall != 0 {
        return false;
      }
      s.jugador.ultimaAccion := Some(Pasar);
      s.mesa.jugadorActuo := true;
      assert s.Foto() == Paso(v);
    } else if a == Igualar {
      if toCall <= 0 {
        s.jugador.ultimaAccion := Some(Pasar);
        s.mesa.jugadorActuo := true;
        assert s.Foto() == Paso(v);
      } else {
        var pago := Min(toCall, s.jugador.fichas);
        if pago != toCall {
          return false;
        }
        Poner(s, 0, pago, false);
        ghost var w := s.Foto();
        s.jugador.ultimaAccion := Some(Igualar);
        s.mesa.jugadorActuo := true;
        assert s.Foto() == w.(jugador := w.jugador.(ultima := Some(Igualar)), jugadorActuo := true);
      }
    } else {
      var minima := if toCall > 0 then toCall + s.mesa.bigBlind else s.mesa.bigBlind;
      if cantidad < minima {
        return false;
      }
      if cantidad > s.jugador.fichas {
        return false;
      }
      Poner(s, 0, cantidad, true);
      ghost var w := s.Foto();
      s.jugador.ultimaAccion := Some(Subir);
      s.mesa.jugadorActuo := true;
      assert s.Foto() == w.(jugador := w.jugador.(ultima := Some(Subir)), jugadorActuo := true);
    }
    return true;
  }

  /**
   * `_accion_banca`: `accion` is `None` for "espera"; otherwise the bank
   * decides as `Decidir` says from its hand's category and the draw `azar`,
   * pays, and is marked as having acted.
   */
  method AccionBanca(s: Sesion, azar: real) returns (accion: Option<Accion>, cantidad: int)
    requires |s.mesa.bets| == 2 && |s.banca.cartas + s.mesa.comunitarias| != 4 && s.banca.fichas >= 0 && s.jugador != s.banca
    modifies s.jugador`fichas, s.banca`fichas, s.banca`ultimaAccion, s.mesa`bets, s.mesa`bote, s.mesa`currentBet, s.mesa`bancaActuo
    ensures var j := TrasBanca(old(s.Foto()), azar);
            s.Foto() == j.v && accion == j.accionBanca && cantidad == j.cantidadBanca
  {
    ghost var v := s.Foto();
    if s.mesa.bancaActuo || !s.banca.PuedeJugar() {
      return None, 0;
    }
    var toCall := s.mesa.ToCall(1);
    var mano := EvaluarMano(s.banca.cartas + s.mesa.comunitarias);
    EvaluacionSinError(s.banca.cartas + s.mesa.comunitarias);
    var fuerza := Fuerza(mano.value.mano);
    var d := Elegir(toCall, fuerza, azar, s.mesa.bigBlind, s.banca.fichas);
    if d.accion == Subir {
      Poner(s, 1, d.cantidad, true);
    } else if d.cantidad > 0 {
      Poner(s, 1, d.cantidad, false);
    }
    ghost var w := s.Foto();
    s.mesa.bancaActuo := true;
    s.banca.ultimaAccion := Some(d.accion);
    assert s.Foto() == w.(banca := w.banca.(ultima := Some(d.accion)), bancaActuo := true);
    return Some(d.accion), d.cantidad;
  }

  /** The branches of `_accion_banca` that choose the action and the amount. */
  method Elegir(toCall: int, fuerza: int, azar: real, bigBlind: int, fichas: int) returns (d: Decision)
    requires toCall >= 0 && fichas >= 0
    ensures d == Decidir(toCall, fuerza, azar, bigBlind, fichas)
  {
    var accion := Pasar;
    var aporte := 0;
    if toCall == 0 {
      if fuerza >= 2 && azar < 0.45 {
        var subida := Max(bigBlind, 10);
        subida := Min(subida, fichas);
        if subida > 0 {
          accion := Subir;
          aporte := subida;
        } else {
          accion := Pasar;
        }
      } else {
        accion := Pasar;
      }
    } else {
      if fuerza >= 2 && azar < 0.35 {
        var extra := Max(bigBlind, toCall);
        var total := toCall + extra;
        total := Min(total, fichas);
        if total > 0 {
          accion := Subir;
          aporte := total;
        } else {
          accion := Igualar;
        }
      } else {
        var pago := Min(toCall, fichas);
        accion := Igualar;
        aporte := pago;
      }
    }
    return Decision(accion, aporte);
  }

  // ---------------------------------------------------------------- a whole request

  /** How a hand ended: the reported gain, what is credited to the balance, the pot, and the winner (`None` for a fold). */
  datatype Fin = Fin(ganancia: int, abono: int, boteFinal: int, ganador: Option<Vencedor>)

  /** What a `realizar_accion` request leaves: the session's state, the bank's action, and the end of the hand if it ended. */
  datatype Salida = Salida(w: Vista, accionBanca: Option<Accion>, cantidadBanca: int, fin: Option<Fin>)

  /**
   * `realizar_accion` once its guards have passed: a fold ends the hand
   * with the pot lost; any other action is played with the bank's reply,
   * and when that brings the showdown the hand is settled, with the credits
   * of settlement `l`.
   */
  function Desenlace(l: Liquidacion, v: Vista, a: Accion, cantidad: int, azar: real): Result<Salida>
    requires Correcta(v)
  {
    if a == Retirarse then
      Ok(Salida(Retirada(v), None, 0, Some(Fin(-Total(v.jugador), AbonoRetiroDe(l, v.jugador.fichas), v.bote, None))))
    else
      var j := Jugar(v, a, cantidad, azar);
      if j.Err? then Err(400)
      else
        JugarCorrecta(v, a, cantidad, azar);
        var w := j.value.v;
        if w.ronda == Showdown then
          var g := GanadorShowdown(w);
          Ok(Salida(w.(bote := 0, estado := Terminada), j.value.accionBanca, j.value.cantidadBanca,
                    Some(Fin(GananciaShowdown(g, w.bote, Total(w.jugador)), AbonoShowdownDe(l, g, w.bote, Total(w.jugador), w.jugador.fichas), w.bote, Some(g)))))
        else Ok(Salida(w, j.value.accionBanca, j.value.cantidadBanca, None))
  }

  /**
   * Every request keeps the books: a hand that goes on is still correct and
   * the session still active; a hand that ends is finished with an empty
   * pot and a non-negative credit, and reports a gain between losing the
   * whole buy-in and winning the bank's whole stack. With the balance
   * debited by the buy-in at the start, the corrected credit moves it by
   * exactly the reported gain; as written a fold credits nothing and a
   * showdown only a positive gain, so the balance never ends above the
   * reported gain.
   */
  lemma DesenlaceCuadra(l: Liquidacion, v: Vista, a: Accion, cantidad: int, azar: real)
    requires Correcta(v) && Desenlace(l, v, a, cantidad, azar).Ok?
    ensures var d := Desenlace(l, v, a, cantidad, azar).value;
            && (d.fin.None? ==> Correcta(d.w) && d.w.estado == v.estado && d.w.ronda != Showdown)
            && (d.fin.Some? ==>
                  && d.w.estado == Terminada && d.w.bote == 0
                  && d.fin.value.abono >= 0
                  && -v.jugador.iniciales <= d.fin.value.ganancia <= v.banca.iniciales
                  && (l == Corregida ==> d.fin.value.abono - v.jugador.iniciales == d.fin.value.ganancia)
                  && (l == TalCual ==>
                        && d.fin.value.abono == (if d.fin.value.ganador.None? then 0 else Max(d.fin.value.ganancia, 0))
                        && d.fin.value.abono - v.jugador.iniciales <= d.fin.value.ganancia))
  {
    if a == Retirarse {
      RetiroCuadra(v);
    } else {
      JugarCorrecta(v, a, cantidad, azar);
      var w := Jugar(v, a, cantidad, azar).value.v;
      if w.ronda == Showdown {
        FinCuadra(w, v.jugador.iniciales, v.banca.iniciales);
      }
    }
  }

  /**
   * At the showdown of a correct hand the corrected credit is what the
   * player nets and the credit as written is never more than that; the gain
   * lies between losing the buy-in and winning the bank's stake.
   */
  lemma FinCuadra(w: Vista, inicialesJugador: int, inicialesBanca: int)
    requires Correcta(w) && w.jugador.iniciales == inicialesJugador && w.banca.iniciales == inicialesBanca
    ensures var g := GanadorShowdown(w);
            && AbonoShowdown(g, w.bote, w.jugador.fichas) >= 0
            && AbonoShowdown(g, w.bote, w.jugador.fichas) - inicialesJugador == GananciaShowdown(g, w.bote, Total(w.jugador))
            && AbonoShowdownTalCual(g, w.bote, Total(w.jugador)) - inicialesJugador <= GananciaShowdown(g, w.bote, Total(w.jugador))
            && -inicialesJugador <= GananciaShowdown(g, w.bote, Total(w.jugador)) <= inicialesBanca
  {
    var g := GanadorShowdown(w);
    ShowdownCuadra(w, g);
    GananciaReparto(w, g);
  }

  // ---------------------------------------------------------------- the sessions table

  /** An entry of `game_sessions`: a poker session, or another game's dictionary with its optional `created_at`. */
  datatype Entrada = DePoker(sesion: Sesion) | Ajena(creadoEn: Option<real>)

  /** The in-memory `game_sessions` dictionary shared by the games, keyed by session id. */
  class Sesiones {
    var tabla: map<string, Entrada>

    constructor ()
      ensures tabla == map[]
    {
      tabla := map[];
    }
  }

  /** Expired at `ahora`: older than two hours; a foreign entry without `created_at` counts as created now. */
  predicate Expirada(e: Entrada, ahora: real)
  {
    match e
    case DePoker(s) => ahora - s.createdAt > VIDA_SESION
    case Ajena(c) => c.Some? && ahora - c.value > VIDA_SESION
  }

  /** The entries that survive a sweep at `ahora`. */
  function Vigentes(t: map<string, Entrada>, ahora: real): (v: map<string, Entrada>)
    ensures forall k :: k in v <==> k in t && !Expirada(t[k], ahora)
    ensures forall k :: k in v ==> v[k] == t[k]
  {
    map k | k in t && !Expirada(t[k], ahora) :: t[k]
  }

  /** `limpiar_sesiones_expiradas`: collect the expired ids, then delete them. */
  method LimpiarSesionesExpiradas(t: Sesiones, ahora: real)
    modifies t`tabla
    ensures t.tabla == Vigentes(old(t.tabla), ahora)
  {
    var expiradas: set<string> := {};
    var pendientes := t.tabla.Keys;
    while pendientes != {}
      invariant pendientes <= t.tabla.Keys && t.tabla == old(t.tabla)
      invariant forall k :: k in expiradas <==> k in t.tabla && k !in pendientes && Expirada(t.tabla[k], ahora)
      decreases pendientes
    {
      var sid :| sid in pendientes;
      var caduca := false;
      match t.tabla[sid] {
        case DePoker(s) =>
          caduca := ahora - s.createdAt > VIDA_SESION;
        case Ajena(c) =>
          var creado := if c.Some? then c.value else ahora;
          caduca := ahora - creado > VIDA_SESION;
      }
      if caduca {
        expiradas := expiradas + {sid};
      }
      pendientes := pendientes - {sid};
    }
    var restantes := expiradas;
    while restantes != {}
      invariant restantes <= expiradas
      invariant t.tabla == old(t.tabla) - (expiradas - restantes)
      decreases restantes
    {
      var sid :| sid in restantes;
      t.tabla := t.tabla - {sid};
      restantes := restantes - {sid};
    }
    assert t.tabla == Vigentes(old(t.tabla), ahora);
  }

  /** `obtener_sesion_poker`: 404 for an unknown id, 400 for another game's entry, 403 for another user's hand. */
  method ObtenerSesionPoker(t: Sesiones, sid: string, uid: int) returns (r: Result<Sesion>)
    ensures sid !in t.tabla ==> r == Err(404)
    ensures sid in t.tabla && t.tabla[sid].Ajena? ==> r == Err(400)
    ensures sid in t.tabla && t.tabla[sid].DePoker? && t.tabla[sid].sesion.usuarioId != uid ==> r == Err(403)
    ensures r.Ok? <==> sid in t.tabla && t.tabla[sid].DePoker? && t.tabla[sid].sesion.usuarioId == uid
    ensures r.Ok? ==> r.value == t.tabla[sid].sesion
  {
    if sid !in t.tabla {
      return Err(404);
    }
    var e := t.tabla[sid];
    if !e.DePoker? {
      return Err(400);
    }
    if e.sesion.usuarioId != uid {
      return Err(403);
    }
    return Ok(e.sesion);
  }

  /** The objects of the poker session stored under `sid`, if any. */
  function Partes(t: Sesiones, sid: string): set<object>
    reads t
  {
    if sid in t.tabla && t.tabla[sid].DePoker? then
      var s := t.tabla[sid].sesion;
      {s, s.mesa, s.jugador, s.banca}
    else {}
  }

  /** The poker session stored under `sid`, if any, is stored under its own id and is a correct hand. */
  predicate Jugable(t: Sesiones, sid: string)
    reads t, Partes(t, sid)
  {
    sid in t.tabla && t.tabla[sid].DePoker? ==>
      var s := t.tabla[sid].sesion;
      s.sessionId == sid && s.Valid()
  }

  // ---------------------------------------------------------------- the endpoints

  /** The response of `iniciar_poker`. */
  datatype Inicio = Inicio(
    sessionId: string,
    cartasJugador: seq<Carta>,
    fichasJugador: int,
    fichasBanca: int,
    bote: int,
    apuestaMinima: int,
    ronda: Ronda,
    smallBlind: int,
    bigBlind: int,
    nuevoSaldo: real)

  /**
   * `iniciar_poker`. A buy-in below 1 is refused by the query validation
   * (422) before the handler runs; otherwise expired sessions are swept, the
   * buy-in and the blind must be permitted amounts (400), the user must exist
   * (404) and cover the buy-in (400); then it is debited and a new hand over
   * the shuffled deck `mezcla` is stored under the fresh id `sid`.
   */
  method IniciarPoker(db: Db, t: Sesiones, uid: int, apuesta: int, blind: int, mezcla: seq<Carta>, sid: string, ahora: real)
    returns (res: Result<Inicio>)
    requires multiset(mezcla) == multiset(Baraja())
    modifies db`usuarios, t`tabla
    ensures apuesta < 1 ==> res == Err(422) && t.tabla == old(t.tabla)
    ensures apuesta >= 1 && apuesta !in APUESTAS_PERMITIDAS ==> res == Err(400)
    ensures apuesta in APUESTAS_PERMITIDAS && blind !in BLINDS ==> res == Err(400)
    ensures apuesta in APUESTAS_PERMITIDAS && blind in BLINDS && uid !in old(db.usuarios) ==> res == Err(404)
    ensures (apuesta in APUESTAS_PERMITIDAS && blind in BLINDS && uid in old(db.usuarios)
             && old(db.usuarios[uid].saldo) < apuesta as real) ==> res == Err(400)
    ensures res.Ok? <==> apuesta in APUESTAS_PERMITIDAS && blind in BLINDS && uid in old(db.usuarios)
                         && old(db.usuarios[uid].saldo) >= apuesta as real
    ensures res.Err? ==> db.usuarios == old(db.usuarios)
    ensures res.Err? && apuesta >= 1 ==> t.tabla == Vigentes(old(t.tabla), ahora)
    ensures res.Ok? ==> db.usuarios == ConSaldo(old(db.usuarios), uid, -(apuesta as real))
    ensures res.Ok? ==> Abierta(Vigentes(old(t.tabla), ahora), uid, apuesta, blind, mezcla, sid, ahora, t,
                                db.usuarios[uid].saldo, res.value)
    ensures res.Ok? ==> sid in t.tabla && t.tabla[sid].DePoker?
                        && var s := t.tabla[sid].sesion; fresh(s) && fresh(s.mesa) && fresh(s.jugador) && fresh(s.banca)
  {
    if apuesta < 1 {
      return Err(422);
    }
    LimpiarSesionesExpiradas(t, ahora);
    if apuesta !in APUESTAS_PERMITIDAS {
      return Err(400);
    }
    if blind !in BLINDS {
      return Err(400);
    }
    if uid !in db.usuarios {
      return Err(404);
    }
    var usuario := db.usuarios[uid];
    if usuario.saldo < apuesta as real {
      return Err(400);
    }
    var inicio := Abrir(db, t, uid, apuesta, blind, mezcla, sid, ahora);
    res := Ok(inicio);
  }

  /** Debit the buy-in, deal a new hand and store it under `sid`: the successful end of `iniciar_poker`. */
  method Abrir(db: Db, t: Sesiones, uid: int, apuesta: int, blind: int, mezcla: seq<Carta>, sid: string, ahora: real)
    returns (inicio: Inicio)
    requires multiset(mezcla) == multiset(Baraja()) && apuesta >= 1 && blind >= 1
    requires uid in db.usuarios
    modifies db`usuarios, t`tabla
    ensures db.usuarios == ConSaldo(old(db.usuarios), uid, -(apuesta as real))
    ensures Abierta(old(t.tabla), uid, apuesta, blind, mezcla, sid, ahora, t, db.usuarios[uid].saldo, inicio)
    ensures sid in t.tabla && t.tabla[sid].DePoker?
    ensures var s := t.tabla[sid].sesion; fresh(s) && fresh(s.mesa) && fresh(s.jugador) && fresh(s.banca)
  {
    Abonar(db, uid, -apuesta);
    inicio := Crear(t, uid, apuesta, blind, mezcla, sid, ahora, db.usuarios[uid].saldo);
  }

  /** Deal a new hand and store it under `sid`, answering with the new balance `saldo`. */
  method Crear(t: Sesiones, uid: int, apuesta: int, blind: int, mezcla: seq<Carta>, sid: string, ahora: real, saldo: real)
    returns (inicio: Inicio)
    requires multiset(mezcla) == multiset(Baraja()) && apuesta >= 1 && blind >= 1
    modifies t`tabla
    ensures Abierta(old(t.tabla), uid, apuesta, blind, mezcla, sid, ahora, t, saldo, inicio)
    ensures sid in t.tabla && t.tabla[sid].DePoker?
    ensures var s := t.tabla[sid].sesion; fresh(s) && fresh(s.mesa) && fresh(s.jugador) && fresh(s.banca)
  {
    var sesion;
    sesion, inicio := NuevaSesion(sid, uid, apuesta, blind, mezcla, ahora, saldo);
    ghost var foto := sesion.Foto();
    Guardar(t, sid, sesion);
    assert sesion.Foto() == foto;
    assert t.tabla[sid].sesion == sesion;
  }

  /**
   * What a successful start leaves: a new correct hand over `mezcla`, owned
   * by the user and stored under `sid`, whose response shows the player's
   * cards, its stack, the bank's blind as the amount to call, and the new
   * balance `saldo`.
   */
  ghost predicate Abierta(tabla: map<string, Entrada>, uid: int, apuesta: int, blind: int,
                          mezcla: seq<Carta>, sid: string, ahora: real, t: Sesiones, saldo: real, inicio: Inicio)
    reads t, Partes(t, sid)
  {
    && |mezcla| == 52
    && sid in t.tabla && t.tabla[sid].DePoker?
    && var s := t.tabla[sid].sesion;
       && t.tabla == tabla[sid := DePoker(s)]
       && Jugable(t, sid) && s.usuarioId == uid && s.createdAt == ahora
       && s.Foto() == Inicial(apuesta, blind, mezcla)
       && inicio == Inicio(sid, s.jugador.cartas, apuesta, 2 * apuesta - Min(2 * blind, 2 * apuesta),
                           Min(2 * blind, 2 * apuesta), Min(2 * blind, 2 * apuesta), PreFlop, blind, 2 * blind,
                           saldo)
  }

  /** `game_sessions[session_id] = sesion`. */
  method Guardar(t: Sesiones, sid: string, sesion: Sesion)
    requires sesion.sessionId == sid && sesion.Valid()
    modifies t`tabla
    ensures t.tabla == old(t.tabla)[sid := DePoker(sesion)]
    ensures Partes(t, sid) == {sesion, sesion.mesa, sesion.jugador, sesion.banca} && Jugable(t, sid)
  {
    t.tabla := t.tabla[sid := DePoker(sesion)];
  }

  /** `user.saldo += Decimal(monto)`, committed. */
  method Abonar(db: Db, uid: int, monto: int)
    requires uid in db.usuarios
    modifies db`usuarios
    ensures db.usuarios == ConSaldo(old(db.usuarios), uid, monto as real)
  {
    var usuario := db.usuarios[uid];
    usuario := usuario.(saldo := usuario.saldo + monto as real);
    db.usuarios := db.usuarios[uid := usuario];
  }

  /** `SesionPoker(session_id, user.id, apuesta, blind=blind)` over the shuffled deck `mezcla`: a correct new hand. */
  method NuevaSesion(sid: string, uid: int, apuesta: int, blind: int, mezcla: seq<Carta>, ahora: real, saldo: real)
    returns (s: Sesion, inicio: Inicio)
    requires multiset(mezcla) == multiset(Baraja()) && apuesta >= 1 && blind >= 1
    ensures |mezcla| == 52
    ensures fresh(s) && fresh(s.mesa) && fresh(s.jugador) && fresh(s.banca)
    ensures s.sessionId == sid && s.usuarioId == uid && s.createdAt == ahora && s.Valid()
    ensures s.Foto() == Inicial(apuesta, blind, mezcla)
    ensures inicio == Inicio(sid, s.jugador.cartas, apuesta, 2 * apuesta - Min(2 * blind, 2 * apuesta),
                             Min(2 * blind, 2 * apuesta), Min(2 * blind, 2 * apuesta), PreFlop, blind, 2 * blind, saldo)
  {
    InicialCorrecta(apuesta, blind, mezcla);
    s := new Sesion(sid, uid, apuesta, blind, mezcla, ahora, 0);
    var minima := s.mesa.ToCall(0);
    inicio := Inicio(sid, s.jugador.cartas, s.jugador.fichas, s.banca.fichas, s.mesa.bote, minima,
                     s.mesa.ronda, s.mesa.smallBlind, s.mesa.bigBlind, saldo);
  }

  /** What `realizar_accion` answers: the state of a hand that goes on, or the end of the hand. */
  datatype Respuesta =
    | Sigue(fichasJugador: int, fichasBanca: int, bote: int, apuestaMinima: int, ronda: Ronda,
            comunitarias: seq<Carta>, accionBanca: Option<Accion>, cantidadBanca: int)
    | Final(ganancia: int, nuevoSaldo: real, boteFinal: int, ganador: Option<Vencedor>)

  /**
   * `realizar_accion`. Expired sessions are swept; then 404, 400 or 403 from
   * `obtener_sesion_poker`, 404 for an unknown user, and 400 for a finished
   * session, a player who has folded, a player who has already acted on this
   * street, or an unknown action. What the request then does is `Desenlace`,
   * with the credits of settlement `l`.
   */
  method RealizarAccion(l: Liquidacion, db: Db, t: Sesiones, uid: int, sid: string, accion: string, cantidad: int, azar: real, ahora: real)
    returns (res: Result<Respuesta>)
    requires Jugable(t, sid)
    modifies db`usuarios, t`tabla, Partes(t, sid)
    ensures var vig := Vigentes(old(t.tabla), ahora);
            && (sid !in vig ==> res == Err(404))
            && (sid in vig && vig[sid].Ajena? ==> res == Err(400))
            && (sid in vig && vig[sid].DePoker? && vig[sid].sesion.usuarioId != uid ==> res == Err(403))
            && (res.Err? ==> db.usuarios == old(db.usuarios) && t.tabla == vig)
    ensures var vig := Vigentes(old(t.tabla), ahora);
            sid in vig && vig[sid].DePoker? && vig[sid].sesion.usuarioId == uid ==>
              var s := vig[sid].sesion;
              var v := old(s.Foto());
              && (uid !in old(db.usuarios) ==> res == Err(404))
              && ((uid in old(db.usuarios) && (v.estado == Terminada || !v.jugador.enJuego || v.jugadorActuo || AccionDe(accion).None?))
                    ==> res == Err(400))
              && (res.Err? ==> s.Foto() == v)
              && (uid in old(db.usuarios) && v.estado == Activa && v.jugador.enJuego && !v.jugadorActuo && AccionDe(accion).Some? ==>
                    Resultado(l, old(db.usuarios), vig, uid, sid, v, AccionDe(accion).value, cantidad, azar, res, db.usuarios, t.tabla, s.Foto()))
  {
    LimpiarSesionesExpiradas(t, ahora);
    var r := ObtenerSesionPoker(t, sid, uid);
    if r.Err? {
      return Err(r.code);
    }
    var s := r.value;
    if uid !in db.usuarios {
      return Err(404);
    }
    if s.estado == Terminada {
      return Err(400);
    }
    if !s.jugador.PuedeJugar() {
      return Err(400);
    }
    if s.mesa.jugadorActuo {
      return Err(400);
    }
    var a := AccionDe(accion);
    if a.None? {
      return Err(400);
    }
    res := Actuar(l, db, t, s, uid, sid, a.value, cantidad, azar);
  }

  /**
   * How the state after an admitted request relates to the one before:
   * refused with 400 and nothing changed, a hand that goes on, or a hand
   * settled — its session deleted and the user credited `abono`.
   */
  ghost predicate Resultado(l: Liquidacion, us: map<int, Usuario>, tabla: map<string, Entrada>, uid: int, sid: string, v: Vista,
                            a: Accion, cantidad: int, azar: real,
                            res: Result<Respuesta>, us2: map<int, Usuario>, tabla2: map<string, Entrada>, v2: Vista)
    requires Correcta(v) && uid in us
  {
    var d := Desenlace(l, v, a, cantidad, azar);
    match d
    case Err(_) => res == Err(400) && us2 == us && tabla2 == tabla && v2 == v
    case Ok(o) =>
      v2 == o.w &&
      match o.fin
      case None =>
        && us2 == us && tabla2 == tabla
        && res == Ok(Sigue(o.w.jugador.fichas, o.w.banca.fichas, o.w.bote, ToCall(o.w, 0), o.w.ronda, o.w.comunitarias,
                           o.accionBanca, o.cantidadBanca))
      case Some(f) =>
        && us2 == ConSaldo(us, uid, f.abono as real) && tabla2 == tabla - {sid}
        && res == Ok(Final(f.ganancia, us2[uid].saldo, f.boteFinal, f.ganador))
  }

  /** An admitted request on session `s`: the player's action, the bank's, perhaps a new street, perhaps the showdown. */
  method Actuar(l: Liquidacion, db: Db, t: Sesiones, s: Sesion, uid: int, sid: string, a: Accion, cantidad: int, azar: real)
    returns (res: Result<Respuesta>)
    requires sid in t.tabla && t.tabla[sid] == DePoker(s) && s.sessionId == sid && s.Valid() && uid in db.usuarios
    modifies db`usuarios, t`tabla, s, s.mesa, s.jugador, s.banca
    ensures Resultado(l, old(db.usuarios), old(t.tabla), uid, sid, old(s.Foto()), a, cantidad, azar, res, db.usuarios, t.tabla, s.Foto())
  {
    if a == Retirarse {
      res := Retiro(l, db, t, s, uid, sid);
      return;
    }
    ghost var v := s.Foto();
    var ok, accionBanca, cantidadBanca := Turno(s, a, cantidad, azar);
    if !ok {
      return Err(400);
    }
    JugarCorrecta(v, a, cantidad, azar);
    if s.mesa.ronda == Showdown {
      var fin := ResolverShowdown(l, db, t, s, uid);
      return Ok(Final(fin.ganancia, db.usuarios[uid].saldo, fin.boteFinal, fin.ganador));
    }
    var minima := s.mesa.ToCall(0);
    return Ok(Sigue(s.jugador.fichas, s.banca.fichas, s.mesa.bote, minima, s.mesa.ronda, s.mesa.comunitarias,
                    accionBanca, cantidadBanca));
  }

  /** The player's action, the bank's reply, and the next street if both have acted with equal bets: `Jugar`. */
  method Turno(s: Sesion, a: Accion, cantidad: int, azar: real) returns (ok: bool, accionBanca: Option<Accion>, cantidadBanca: int)
    requires Correcta(s.Foto()) && a != Retirarse && s.jugador != s.banca
    modifies s`baraja, s.mesa, s.jugador, s.banca
    ensures var j := Jugar(old(s.Foto()), a, cantidad, azar);
            && (ok <==> j.Ok?)
            && (!ok ==> s.Foto() == old(s.Foto()))
            && (ok ==> s.Foto() == j.value.v && accionBanca == j.value.accionBanca && cantidadBanca == j.value.cantidadBanca)
  {
    ghost var v := s.Foto();
    ok := AccionJugador(s, a, cantidad);
    if !ok {
      return false, None, 0;
    }
    JugadorCorrecta(v, a, cantidad);
    ghost var v1 := s.Foto();
    BancaCorrecta(v1, azar);
    accionBanca, cantidadBanca := AccionBanca(s, azar);
    ghost var v2 := s.Foto();
    Restantes(v2);
    if s.mesa.jugadorActuo && s.mesa.bancaActuo && s.mesa.bets[0] == s.mesa.bets[1] {
      AvanzarCalle(s);
    }
    assert s.Foto() == Cierre(v2);
  }

  /**
   * The `retirarse` branch of `realizar_accion`: the player folds, the
   * session ends with the pot emptied and is deleted; the gain reported is
   * minus what the player bet, and the credit is that of settlement `l`:
   * nothing as written, the chips not bet once corrected.
   */
  method Retiro(l: Liquidacion, db: Db, t: Sesiones, s: Sesion, uid: int, sid: string) returns (res: Result<Respuesta>)
    requires uid in db.usuarios && s.jugador != s.banca
    modifies db`usuarios, t`tabla, s`estado, s.mesa`bote, s.jugador`enJuego, s.jugador`ultimaAccion
    ensures var v := old(s.Foto());
            && s.Foto() == Retirada(v)
            && db.usuarios == ConSaldo(old(db.usuarios), uid, AbonoRetiroDe(l, v.jugador.fichas) as real)
            && t.tabla == old(t.tabla) - {sid}
            && res == Ok(Final(-Total(v.jugador), db.usuarios[uid].saldo, v.bote, None))
  {
    ghost var v := s.Foto();
    s.jugador.Retirar();
    s.estado := Terminada;
    var boteFinal := s.mesa.bote;
    s.mesa.bote := 0;
    assert s.Foto() == Retirada(v);
    var ganancia := -s.jugador.TotalApostado();
    var abono := if l == TalCual then 0 else s.jugador.fichas;
    Abonar(db, uid, abono);
    t.tabla := t.tabla - {sid};
    return Ok(Final(ganancia, db.usuarios[uid].saldo, boteFinal, None));
  }

  /**
   * `_resolver_showdown`: both seven-card hands are evaluated, the higher
   * category wins and equal categories go to the kickers; the credit is
   * that of settlement `l` (as written the gain when positive, corrected the
   * unbet chips and the player's share of the pot), the pot is emptied and
   * the session finished and deleted.
   */
  method ResolverShowdown(l: Liquidacion, db: Db, t: Sesiones, s: Sesion, uid: int) returns (fin: Fin)
    requires Correcta(s.Foto()) && uid in db.usuarios
    modifies db`usuarios, t`tabla, s`estado, s.mesa`bote
    ensures var v := old(s.Foto());
            var g := GanadorShowdown(v);
            && fin == Fin(GananciaShowdown(g, v.bote, Total(v.jugador)), AbonoShowdownDe(l, g, v.bote, Total(v.jugador), v.jugador.fichas), v.bote, Some(g))
            && s.Foto() == v.(bote := 0, estado := Terminada)
            && db.usuarios == ConSaldo(old(db.usuarios), uid, fin.abono as real)
            && t.tabla == old(t.tabla) - {s.sessionId}
  {
    ghost var v := s.Foto();
    Manos(v);
    var g := Comparar(s.jugador.cartas + s.mesa.comunitarias, s.banca.cartas + s.mesa.comunitarias);
    var total := s.jugador.TotalApostado();
    var ganancia := GananciaShowdown(g, s.mesa.bote, total);
    var abono := AbonoShowdownDe(l, g, s.mesa.bote, total, s.jugador.fichas);
    Abonar(db, uid, abono);
    var boteFinal := s.mesa.bote;
    s.mesa.bote := 0;
    s.estado := Terminada;
    t.tabla := t.tabla - {s.sessionId};
    assert s.Foto() == v.(bote := 0, estado := Terminada);
    fin := Fin(ganancia, abono, boteFinal, Some(g));
  }

  /** The comparison of `_resolver_showdown`: the higher category wins; equal categories go to the kickers. */
  method Comparar(cj: seq<Carta>, cb: seq<Carta>) returns (g: Vencedor)
    requires |cj| != 4 && |cb| != 4
    ensures g == Veredicto(ValoracionDe(cj), ValoracionDe(cb))
  {
    var rj := EvaluarMano(cj);
    var rb := EvaluarMano(cb);
    EvaluacionSinError(cj);
    EvaluacionSinError(cb);
    var mj := rj.value;
    var mb := rb.value;
    if Fuerza(mj.mano) > Fuerza(mb.mano) {
      g := GanaJugador;
    } else if Fuerza(mb.mano) > Fuerza(mj.mano) {
      g := GanaBanca;
    } else {
      g := Desempatar(mj.desempate, mb.desempate);
    }
  }

  /** The response of `rendirse`. */
  datatype Rendicion = Rendicion(devolucion: int, ganancia: int, nuevoSaldo: real)

  /**
   * `rendirse`: after the sweep, 404, 400 or 403 from `obtener_sesion_poker`
   * and 404 for an unknown user; then the player is refunded by settlement
   * `l` (as written the buy-in when nothing was bet, else half of what was
   * bet; corrected the chips not bet and half of what was bet), and the
   * session is deleted.
   */
  method Rendirse(l: Liquidacion, db: Db, t: Sesiones, uid: int, sid: string, ahora: real) returns (res: Result<Rendicion>)
    modifies db`usuarios, t`tabla
    ensures var vig := Vigentes(old(t.tabla), ahora);
            && (sid !in vig ==> res == Err(404))
            && (sid in vig && vig[sid].Ajena? ==> res == Err(400))
            && (sid in vig && vig[sid].DePoker? && vig[sid].sesion.usuarioId != uid ==> res == Err(403))
            && (sid in vig && vig[sid].DePoker? && vig[sid].sesion.usuarioId == uid && uid !in old(db.usuarios) ==> res == Err(404))
            && (res.Err? ==> db.usuarios == old(db.usuarios) && t.tabla == vig)
            && (res.Ok? <==> sid in vig && vig[sid].DePoker? && vig[sid].sesion.usuarioId == uid && uid in old(db.usuarios))
    ensures res.Ok? ==>
              var vig := Vigentes(old(t.tabla), ahora);
              var j := vig[sid].sesion.jugador;
              var total := j.fichasIniciales - j.fichas;
              && res.value.devolucion == DevolucionDe(l, total, j.fichas, vig[sid].sesion.apuestaInicial)
              && res.value.ganancia == GananciaRendicion(total)
              && db.usuarios == ConSaldo(old(db.usuarios), uid, res.value.devolucion as real)
              && res.value.nuevoSaldo == db.usuarios[uid].saldo
              && t.tabla == vig - {sid}
  {
    LimpiarSesionesExpiradas(t, ahora);
    var r := ObtenerSesionPoker(t, sid, uid);
    if r.Err? {
      return Err(r.code);
    }
    var s := r.value;
    if uid !in db.usuarios {
      return Err(404);
    }
    var total := s.jugador.TotalApostado();
    var devolucion: int;
    var ganancia: int;
    if total == 0 {
      devolucion := if l == TalCual then s.apuestaInicial else s.jugador.fichas;
      ganancia := 0;
    } else {
      devolucion := if l == TalCual then total / 2 else s.jugador.fichas + total / 2;
      ganancia := total / 2 - total;
    }
    Abonar(db, uid, devolucion);
    t.tabla := t.tabla - {sid};
    return Ok(Rendicion(devolucion, ganancia, db.usuarios[uid].saldo));
  }
}
