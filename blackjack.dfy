/**
 * Blackjack of app/services/juegos/blackjack.py: one 52-card deck, ace
 * scoring, an in-memory session per hand (start, hit, stand) and the payout
 * table. The shuffle, the session id (`uuid4`) and the clock are parameters.
 */
module Blackjack {
  import opened Wrappers
  import opened Modelos

  const APUESTAS_PERMITIDAS: set<int> := {100, 500, 1000, 2000, 5000}
  /** `MAX_HORAS_SESION`, in seconds. */
  const VIDA_SESION: real := 3600.0

  // ---------------------------------------------------------------- cards

  datatype Carta = Carta(nombre: string, palo: string, valor: int)

  const PALOS: seq<string> := ["\U{2660}\U{FE0F}", "\U{2665}\U{FE0F}", "\U{2666}\U{FE0F}", "\U{2663}\U{FE0F}"]
  const NOMBRES: seq<string> := ["A", "2", "3", "4", "5", "6", "7", "8", "9", "10", "J", "Q", "K"]
  const VALORES: seq<int> := [11, 2, 3, 4, 5, 6, 7, 8, 9, 10, 10, 10, 10]

  /** The deck `crear_baraja` builds before shuffling: suit by suit, A to K within a suit. */
  function BarajaOrdenada(): (b: seq<Carta>)
    ensures |b| == 52
  {
    seq(52, i requires 0 <= i < 52 => Carta(NOMBRES[i % 13], PALOS[i / 13], VALORES[i % 13]))
  }

  predicate EsAs(c: Carta)
  {
    c.nombre == "A"
  }

  /** A card as the deck makes it: an ace worth 11, or another card worth 2 to 10. */
  predicate CartaValida(c: Carta)
  {
    (EsAs(c) && c.valor == 11) || (!EsAs(c) && 2 <= c.valor <= 10)
  }

  /** The deck holds 52 distinct cards. */
  lemma BarajaDistinta()
    ensures forall i, j :: 0 <= i < j < 52 ==> BarajaOrdenada()[i] != BarajaOrdenada()[j]
  {
    var b := BarajaOrdenada();
    forall i, j | 0 <= i < j < 52
      ensures b[i] != b[j]
    {
      if i % 13 == j % 13 {
        assert PALOS[i / 13] != PALOS[j / 13];
      } else {
        assert NOMBRES[i % 13] != NOMBRES[j % 13];
      }
    }
  }

  /** Every suit appears with every name at that name's value. */
  lemma BarajaCubre()
    ensures forall p, n :: 0 <= p < 4 && 0 <= n < 13 ==> Carta(NOMBRES[n], PALOS[p], VALORES[n]) in BarajaOrdenada()
  {
    var b := BarajaOrdenada();
    forall p, n | 0 <= p < 4 && 0 <= n < 13
      ensures Carta(NOMBRES[n], PALOS[p], VALORES[n]) in b
    {
      var i := 13 * p + n;
      assert i / 13 == p && i % 13 == n;
      assert b[i] == Carta(NOMBRES[n], PALOS[p], VALORES[n]);
    }
  }

  /** Nothing else is in the deck: aces are worth 11 and every other card 2 to 10. */
  lemma BarajaValida()
    ensures forall c :: c in BarajaOrdenada() ==> c.palo in PALOS && CartaValida(c)
  {
    var b := BarajaOrdenada();
    forall c | c in b
      ensures c.palo in PALOS && CartaValida(c)
    {
      var i :| 0 <= i < 52 && b[i] == c;
      assert NOMBRES[i % 13] == "A" <==> i % 13 == 0;
    }
  }

  // ---------------------------------------------------------------- scoring

  /** The hand's total with every ace counted as 11. */
  function SumaAlta(mano: seq<Carta>): int
  {
    if mano == [] then 0
    else SumaAlta(mano[..|mano| - 1]) + (if EsAs(mano[|mano| - 1]) then 11 else mano[|mano| - 1].valor)
  }

  function Ases(mano: seq<Carta>): nat
  {
    if mano == [] then 0
    else Ases(mano[..|mano| - 1]) + (if EsAs(mano[|mano| - 1]) then 1 else 0)
  }

  /** The total when `j` of the aces count as 1. */
  function Valoracion(mano: seq<Carta>, j: int): int
  {
    SumaAlta(mano) - 10 * j
  }

  /** The hard total: every ace counted as 1. */
  function Duro(mano: seq<Carta>): int
  {
    Valoracion(mano, Ases(mano))
  }

  function Min(a: int, b: int): int
  {
    if a <= b then a else b
  }

  /** How many aces drop to 1: the fewest that reach 21 or less, or all of them. */
  function Rebajas(alta: int, ases: nat): (k: nat)
    ensures k <= ases
  {
    if alta <= 21 then 0 else Min(ases, (alta - 21 + 9) / 10)
  }

  /** The blackjack score of a hand. */
  function Puntaje(mano: seq<Carta>): int
  {
    Valoracion(mano, Rebajas(SumaAlta(mano), Ases(mano)))
  }

  /**
   * The score is one of the hand's valuations, between the hard total and
   * the all-aces-high total; when any valuation reaches 21 or less the score
   * is the largest of those, and otherwise it is the hard total.
   */
  lemma PuntajeOptimo(mano: seq<Carta>)
    ensures exists j :: 0 <= j <= Ases(mano) && Puntaje(mano) == Valoracion(mano, j)
    ensures Duro(mano) <= Puntaje(mano) <= SumaAlta(mano)
    ensures Duro(mano) <= 21 ==> Puntaje(mano) <= 21
    ensures Puntaje(mano) > 21 ==> Puntaje(mano) == Duro(mano)
    ensures forall j :: 0 <= j <= Ases(mano) && Valoracion(mano, j) <= 21 ==> Valoracion(mano, j) <= Puntaje(mano)
  {
    var k := Rebajas(SumaAlta(mano), Ases(mano));
    assert Puntaje(mano) == Valoracion(mano, k);
  }

  /**
   * `calcular_puntaje`: add every card with aces at 11, then take 10 off
   * per ace while the total is over 21.
   */
  method CalcularPuntaje(mano: seq<Carta>) returns (puntaje: int)
    ensures puntaje == Puntaje(mano)
  {
    puntaje := 0;
    var ases := 0;
    for i := 0 to |mano|
      invariant puntaje == SumaAlta(mano[..i]) && ases == Ases(mano[..i])
    {
      assert mano[..i + 1][..i] == mano[..i];
      if mano[i].nombre == "A" {
        ases := ases + 1;
        puntaje := puntaje + 11;
      } else {
        puntaje := puntaje + mano[i].valor;
      }
    }
    assert mano[..|mano|] == mano;
    ghost var alta := puntaje;
    ghost var todos := ases;
    while puntaje > 21 && ases > 0
      invariant 0 <= ases <= todos && puntaje == alta - 10 * (todos - ases)
      invariant todos - ases <= Rebajas(alta, todos)
      decreases ases
    {
      puntaje := puntaje - 10;
      ases := ases - 1;
    }
  }

  /** `tiene_blackjack`: exactly two cards scoring 21. */
  predicate TieneBlackjack(mano: seq<Carta>)
  {
    |mano| == 2 && Puntaje(mano) == 21
  }

  /** Two cards from the deck make a blackjack exactly when one is an ace and the other is worth 10. */
  lemma BlackjackEsAsYDiez(a: Carta, b: Carta)
    requires CartaValida(a) && CartaValida(b)
    ensures TieneBlackjack([a, b]) <==> (EsAs(a) && b.valor == 10) || (EsAs(b) && a.valor == 10)
    ensures Puntaje([a, b]) <= 21
  {
    assert [a, b][..1] == [a];
    assert [a][..0] == [];
    assert SumaAlta([a]) == (if EsAs(a) then 11 else a.valor);
    assert Ases([a]) == (if EsAs(a) then 1 else 0);
    assert SumaAlta([a, b]) == SumaAlta([a]) + (if EsAs(b) then 11 else b.valor);
    assert Ases([a, b]) == Ases([a]) + (if EsAs(b) then 1 else 0);
  }

  // ---------------------------------------------------------------- dealer

  /**
   * The dealer's turn: draw from the top of the deck (its end) while the
   * score is below 17 and cards remain; the final hand and the rest of the deck.
   */
  function TurnoBanca(mano: seq<Carta>, baraja: seq<Carta>): (seq<Carta>, seq<Carta>)
    decreases |baraja|
  {
    if Puntaje(mano) >= 17 || baraja == [] then (mano, baraja)
    else TurnoBanca(mano + [baraja[|baraja| - 1]], baraja[..|baraja| - 1])
  }

  /**
   * The hand only grows, by the cards taken from the top of the deck; no
   * card is lost; play stops at 17 or more or with an empty deck; and every
   * hand the dealer drew to scored below 17.
   */
  lemma {:induction false} TurnoBancaPropiedades(mano: seq<Carta>, baraja: seq<Carta>)
    ensures var r := TurnoBanca(mano, baraja);
      && |mano| <= |r.0| && r.0[..|mano|] == mano
      && |r.1| <= |baraja| && r.1 == baraja[..|r.1|]
      && |r.0| - |mano| == |baraja| - |r.1|
      && multiset(r.0) + multiset(r.1) == multiset(mano) + multiset(baraja)
      && (Puntaje(r.0) >= 17 || r.1 == [])
      && (forall k :: |mano| <= k < |r.0| ==> Puntaje(r.0[..k]) < 17)
    decreases |baraja|
  {
    if !(Puntaje(mano) >= 17 || baraja == []) {
      var mano2, baraja2 := mano + [baraja[|baraja| - 1]], baraja[..|baraja| - 1];
      TurnoBancaPropiedades(mano2, baraja2);
      var r := TurnoBanca(mano2, baraja2);
      assert baraja == baraja2 + [baraja[|baraja| - 1]];
      assert r.0[..|mano| + 1] == mano2;
      assert r.0[..|mano| + 1][..|mano|] == mano;
    }
  }

  /** `plantarse`'s loop over the session's deck and the dealer's hand. */
  method JugarBanca(mano: seq<Carta>, baraja: seq<Carta>) returns (manoFinal: seq<Carta>, barajaFinal: seq<Carta>)
    ensures (manoFinal, barajaFinal) == TurnoBanca(mano, baraja)
  {
    manoFinal, barajaFinal := mano, baraja;
    var puntaje := CalcularPuntaje(manoFinal);
    while puntaje < 17
      invariant TurnoBanca(manoFinal, barajaFinal) == TurnoBanca(mano, baraja)
      invariant puntaje == Puntaje(manoFinal)
      decreases |barajaFinal|
    {
      if barajaFinal == [] {
        break;
      }
      manoFinal := manoFinal + [barajaFinal[|barajaFinal| - 1]];
      barajaFinal := barajaFinal[..|barajaFinal| - 1];
      puntaje := CalcularPuntaje(manoFinal);
    }
  }

  // ---------------------------------------------------------------- payout

  /** The eight outcomes `plantarse` tells apart, in the order it checks them. */
  datatype Desenlace =
    | BancaSePasaConBlackjack | BancaSePasa | EmpateBlackjack | Blackjack
    | BancaBlackjack | Gana | Empate | Pierde

  function DesenlaceDe(puntajeJugador: int, puntajeBanca: int, jugadorBj: bool, bancaBjInicial: bool): Desenlace
  {
    if puntajeBanca > 21 then (if jugadorBj then BancaSePasaConBlackjack else BancaSePasa)
    else if jugadorBj && bancaBjInicial then EmpateBlackjack
    else if jugadorBj then Blackjack
    else if bancaBjInicial then BancaBlackjack
    else if puntajeJugador > puntajeBanca then Gana
    else if puntajeJugador == puntajeBanca then Empate
    else Pierde
  }

  /** `int(apuesta * 2.5)` for a non-negative stake. */
  function PagoBlackjack(apuesta: int): int
  {
    apuesta * 5 / 2
  }

  /** What the outcome pays back: 2.5x on a blackjack, 2x on a win, the stake on a tie. */
  function Pago(d: Desenlace, apuesta: int): int
  {
    match d
    case BancaSePasaConBlackjack => PagoBlackjack(apuesta)
    case BancaSePasa => apuesta * 2
    case EmpateBlackjack => apuesta
    case Blackjack => PagoBlackjack(apuesta)
    case BancaBlackjack => 0
    case Gana => apuesta * 2
    case Empate => apuesta
    case Pierde => 0
  }

  /** The outcome of standing with `jugador` against the dealer's two cards and the deck. */
  function Resolver(jugador: seq<Carta>, banca: seq<Carta>, baraja: seq<Carta>): Desenlace
  {
    DesenlaceDe(Puntaje(jugador), Puntaje(TurnoBanca(banca, baraja).0), TieneBlackjack(jugador), TieneBlackjack(banca))
  }

  /**
   * The payout table as the hands decide it: a player blackjack against no
   * dealer blackjack always pays 2.5x, two blackjacks return the stake, a
   * dealer blackjack alone pays nothing (the dealer stands on it), and a
   * hand without blackjacks pays 2x exactly when the dealer busts or scores
   * less, 1x on equal scores and 0 otherwise.
   */
  lemma TablaDePagos(jugador: seq<Carta>, banca: seq<Carta>, baraja: seq<Carta>, apuesta: int)
    requires apuesta > 0
    ensures var d, bf := Resolver(jugador, banca, baraja), Puntaje(TurnoBanca(banca, baraja).0);
      && (TieneBlackjack(jugador) && !TieneBlackjack(banca) ==> Pago(d, apuesta) == PagoBlackjack(apuesta))
      && (TieneBlackjack(jugador) && TieneBlackjack(banca) ==> Pago(d, apuesta) == apuesta)
      && (!TieneBlackjack(jugador) && TieneBlackjack(banca) ==> Pago(d, apuesta) == 0)
      && (!TieneBlackjack(jugador) && !TieneBlackjack(banca) ==>
            && (Pago(d, apuesta) == apuesta * 2 <==> (bf > 21 || Puntaje(jugador) > bf))
            && (Pago(d, apuesta) == apuesta <==> bf <= 21 && Puntaje(jugador) == bf)
            && (Pago(d, apuesta) == 0 <==> bf <= 21 && Puntaje(jugador) < bf))
      && 0 <= Pago(d, apuesta) <= PagoBlackjack(apuesta)
  {
    if TieneBlackjack(banca) {
      assert TurnoBanca(banca, baraja).0 == banca;
    }
  }

  // ---------------------------------------------------------------- sessions

  datatype EstadoJuego = Jugando | Terminado

  /** The `SesionBlackjack` dictionary. */
  datatype Sesion = Sesion(
    userId: int,
    baraja: seq<Carta>,
    manoJugador: seq<Carta>,
    manoBanca: seq<Carta>,
    apuesta: int,
    createdAt: real,
    estado: EstadoJuego)

  /** The blackjack entries of the in-memory `game_sessions` dictionary, keyed by session id. */
  class Sesiones {
    var tabla: map<string, Sesion>

    constructor ()
      ensures tabla == map[]
    {
      tabla := map[];
    }
  }

  /**
   * What every stored session satisfies: its deck and both hands are the
   * 52 cards of one deck, and a hand still in play has not gone over 21.
   */
  predicate SesionValida(s: Sesion)
  {
    && multiset(s.baraja) + multiset(s.manoJugador) + multiset(s.manoBanca) == multiset(BarajaOrdenada())
    && (s.estado == Jugando ==> Puntaje(s.manoJugador) <= 21)
  }

  predicate TablaValida(t: map<string, Sesion>)
  {
    forall k :: k in t ==> SesionValida(t[k])
  }

  /** The sessions that survive a sweep at time `ahora`: those at most one hour old. */
  function Vigentes(t: map<string, Sesion>, ahora: real): (v: map<string, Sesion>)
    ensures forall k :: k in v <==> k in t && ahora - t[k].createdAt <= VIDA_SESION
    ensures forall k :: k in v ==> v[k] == t[k]
  {
    map k | k in t && !(ahora - t[k].createdAt > VIDA_SESION) :: t[k]
  }

  /** `limpiar_sesiones_expiradas`: collect the expired ids, then delete them. */
  method LimpiarSesionesExpiradas(s: Sesiones, ahora: real)
    modifies s
    ensures s.tabla == Vigentes(old(s.tabla), ahora)
  {
    var expiradas: set<string> := {};
    var pendientes := s.tabla.Keys;
    while pendientes != {}
      invariant pendientes <= s.tabla.Keys && s.tabla == old(s.tabla)
      invariant forall k :: k in expiradas <==>
                  k in s.tabla && k !in pendientes && ahora - s.tabla[k].createdAt > VIDA_SESION
      decreases pendientes
    {
      var sid :| sid in pendientes;
      if ahora - s.tabla[sid].createdAt > VIDA_SESION {
        expiradas := expiradas + {sid};
      }
      pendientes := pendientes - {sid};
    }
    var restantes := expiradas;
    while restantes != {}
      invariant restantes <= expiradas
      invariant s.tabla == old(s.tabla) - (expiradas - restantes)
      decreases restantes
    {
      var sid :| sid in restantes;
      s.tabla := s.tabla - {sid};
      restantes := restantes - {sid};
    }
    assert s.tabla == Vigentes(old(s.tabla), ahora);
  }

  /** `obtener_sesion_asegurada`: 404 for an unknown id, 403 for another user's session, 400 for a finished one. */
  method ObtenerSesionAsegurada(s: Sesiones, sid: string, uid: int) returns (r: Result<Sesion>)
    ensures sid !in s.tabla ==> r == Err(404)
    ensures sid in s.tabla && s.tabla[sid].userId != uid ==> r == Err(403)
    ensures sid in s.tabla && s.tabla[sid].userId == uid && s.tabla[sid].estado != Jugando ==> r == Err(400)
    ensures r.Ok? <==> sid in s.tabla && s.tabla[sid].userId == uid && s.tabla[sid].estado == Jugando
    ensures r.Ok? ==> r.value == s.tabla[sid]
  {
    if sid !in s.tabla {
      return Err(404);
    }
    var sesion := s.tabla[sid];
    if sesion.userId != uid {
      return Err(403);
    }
    if sesion.estado != Jugando {
      return Err(400);
    }
    r := Ok(sesion);
  }

  /** The response of `iniciar_blackjack`. */
  datatype Inicio = Inicio(
    sessionId: string,
    manoJugador: seq<Carta>,
    manoBanca: seq<Carta>,
    puntajeJugador: int,
    puntajeBancaVisible: int,
    nuevoSaldo: real,
    jugadorBlackjack: bool)

  /** The session a start stores: two cards popped for the player, then two for the dealer. */
  function SesionInicial(uid: int, mezcla: seq<Carta>, apuesta: int, ahora: real): Sesion
    requires |mezcla| == 52
  {
    Sesion(uid, mezcla[..48], [mezcla[51], mezcla[50]], [mezcla[49], mezcla[48]], apuesta, ahora, Jugando)
  }

  /**
   * A start keeps every stored session valid: the four dealt cards and the
   * rest are the whole deck, and two cards never pass 21.
   */
  lemma IniciarConserva(t: map<string, Sesion>, ahora: real, sid: string, uid: int, mezcla: seq<Carta>, apuesta: int)
    requires TablaValida(t) && multiset(mezcla) == multiset(BarajaOrdenada())
    ensures |mezcla| == 52 && TablaValida(Vigentes(t, ahora)[sid := SesionInicial(uid, mezcla, apuesta, ahora)])
  {
    assert |mezcla| == |multiset(mezcla)| == 52;
    SesionInicialValida(uid, mezcla, apuesta, ahora);
  }

  lemma SesionInicialValida(uid: int, mezcla: seq<Carta>, apuesta: int, ahora: real)
    requires multiset(mezcla) == multiset(BarajaOrdenada())
    ensures |mezcla| == 52 && SesionValida(SesionInicial(uid, mezcla, apuesta, ahora))
  {
    assert |mezcla| == |multiset(mezcla)| == 52;
    RepartoConserva(mezcla);
    DelMazo(mezcla, 51);
    DelMazo(mezcla, 50);
    BlackjackEsAsYDiez(mezcla[51], mezcla[50]);
  }

  /** Dealing the top four cards loses none. */
  lemma RepartoConserva(mezcla: seq<Carta>)
    requires |mezcla| == 52
    ensures multiset(mezcla[..48]) + multiset([mezcla[51], mezcla[50]]) + multiset([mezcla[49], mezcla[48]]) == multiset(mezcla)
  {
    assert mezcla == mezcla[..48] + [mezcla[48], mezcla[49]] + [mezcla[50], mezcla[51]];
    assert multiset(mezcla) == multiset(mezcla[..48]) + multiset([mezcla[48], mezcla[49]]) + multiset([mezcla[50], mezcla[51]]);
  }

  /** Every card of a shuffled deck is a card of the deck. */
  lemma DelMazo(mezcla: seq<Carta>, i: int)
    requires multiset(mezcla) == multiset(BarajaOrdenada()) && 0 <= i < |mezcla|
    ensures CartaValida(mezcla[i])
  {
    assert mezcla[i] in multiset(mezcla);
    BarajaValida();
  }

  /**
   * `iniciar_blackjack`. A stake below 1 is refused by the query validation
   * (422) before the handler runs; otherwise expired sessions are swept, the
   * stake must be a permitted amount (400), the user must exist (404) and
   * cover it (400); then it is debited and the shuffled deck `mezcla` is dealt
   * into a new session stored under `sid`.
   */
  method IniciarBlackjack(db: Db, s: Sesiones, uid: int, apuesta: int, mezcla: seq<Carta>, sid: string, ahora: real)
    returns (res: Result<Inicio>)
    requires multiset(mezcla) == multiset(BarajaOrdenada())
    modifies db`usuarios, s
    ensures apuesta < 1 ==> res == Err(422) && s.tabla == old(s.tabla)
    ensures apuesta >= 1 && apuesta !in APUESTAS_PERMITIDAS ==> res == Err(400)
    ensures apuesta in APUESTAS_PERMITIDAS && uid !in old(db.usuarios) ==> res == Err(404)
    ensures apuesta in APUESTAS_PERMITIDAS && uid in old(db.usuarios) && old(db.usuarios[uid].saldo) < apuesta as real ==> res == Err(400)
    ensures res.Ok? <==> apuesta in APUESTAS_PERMITIDAS && uid in old(db.usuarios) && old(db.usuarios[uid].saldo) >= apuesta as real
    ensures res.Err? ==> db.usuarios == old(db.usuarios)
    ensures res.Err? && apuesta >= 1 ==> s.tabla == Vigentes(old(s.tabla), ahora)
    ensures res.Ok? ==>
      && |mezcla| == 52
      && db.usuarios == ConSaldo(old(db.usuarios), uid, -(apuesta as real))
      && s.tabla == Vigentes(old(s.tabla), ahora)[sid := SesionInicial(uid, mezcla, apuesta, ahora)]
      && res.value.sessionId == sid
      && res.value.manoJugador == [mezcla[51], mezcla[50]] && res.value.manoBanca == [mezcla[49], mezcla[48]]
      && res.value.puntajeJugador == Puntaje(res.value.manoJugador)
      && res.value.puntajeBancaVisible == (if EsAs(mezcla[49]) then 11 else mezcla[49].valor)
      && res.value.nuevoSaldo == db.usuarios[uid].saldo
      && res.value.jugadorBlackjack == TieneBlackjack(res.value.manoJugador)
  {
    if apuesta < 1 {
      return Err(422);
    }
    LimpiarSesionesExpiradas(s, ahora);
    if apuesta !in APUESTAS_PERMITIDAS {
      return Err(400);
    }
    if uid !in db.usuarios {
      return Err(404);
    }
    var usuario := db.usuarios[uid];
    if usuario.saldo < apuesta as real {
      return Err(400);
    }
    assert |mezcla| == |multiset(mezcla)| == 52;
    var baraja := mezcla;
    var manoJugador := [baraja[|baraja| - 1], baraja[|baraja| - 2]];
    baraja := baraja[..|baraja| - 2];
    var manoBanca := [baraja[|baraja| - 1], baraja[|baraja| - 2]];
    baraja := baraja[..|baraja| - 2];
    assert baraja == mezcla[..48];
    var puntajeJugador := CalcularPuntaje(manoJugador);
    usuario := usuario.(saldo := usuario.saldo - apuesta as real);
    db.usuarios := db.usuarios[uid := usuario];
    s.tabla := s.tabla[sid := Sesion(uid, baraja, manoJugador, manoBanca, apuesta, ahora, Jugando)];
    var visible := if manoBanca[0].nombre != "A" then manoBanca[0].valor else 11;
    res := Ok(Inicio(sid, manoJugador, manoBanca, puntajeJugador, visible, usuario.saldo, TieneBlackjack(manoJugador)));
  }

  /** The part of a hit's response sent when the player busts. */
  datatype Cierre = Cierre(nuevoSaldo: real, puntajeBancaFinal: int, manoBancaFinal: seq<Carta>)

  /** The response of `pedir_carta_blackjack`. */
  datatype Pedido = Pedido(manoJugador: seq<Carta>, puntajeJugador: int, jugadorSePaso: bool, cierre: Option<Cierre>)

  /** The session after popping the top card into the player's hand. */
  function ConCarta(ses: Sesion): Sesion
    requires ses.baraja != []
  {
    ses.(baraja := ses.baraja[..|ses.baraja| - 1], manoJugador := ses.manoJugador + [ses.baraja[|ses.baraja| - 1]])
  }

  /**
   * A hit keeps every stored session valid: the drawn card moves from the
   * deck to the hand, a hand over 21 is marked finished or deleted, and the
   * sweep and a deletion (also the end of a stand) only drop sessions.
   */
  lemma PedirConserva(t: map<string, Sesion>, ahora: real, sid: string)
    requires TablaValida(t)
    ensures var v := Vigentes(t, ahora);
      && TablaValida(v) && TablaValida(v - {sid})
      && (sid in v && v[sid].baraja != [] ==>
            && (Puntaje(ConCarta(v[sid]).manoJugador) <= 21 ==> TablaValida(v[sid := ConCarta(v[sid])]))
            && TablaValida(v[sid := ConCarta(v[sid]).(estado := Terminado)]))
  {
    var v := Vigentes(t, ahora);
    if sid in v && v[sid].baraja != [] {
      var ses := v[sid];
      var nueva := ConCarta(ses);
      assert ses.baraja == nueva.baraja + [ses.baraja[|ses.baraja| - 1]];
      assert multiset(nueva.baraja) + multiset(nueva.manoJugador) == multiset(ses.baraja) + multiset(ses.manoJugador);
      assert SesionValida(nueva.(estado := Terminado));
      if Puntaje(nueva.manoJugador) <= 21 {
        assert SesionValida(nueva);
      }
    }
  }

  /**
   * `pedir_carta_blackjack`. After the sweep and the session checks (404,
   * 403, 400) an empty deck is refused (400); otherwise the top card joins
   * the player's hand in the stored session. At 21 or less play goes on. Over
   * 21 the hand is lost with nothing credited and the session is deleted; if
   * the user no longer exists the handler fails with 404 and leaves the session
   * stored, marked finished, with the card drawn.
   */
  method PedirCarta(db: Db, s: Sesiones, uid: int, sid: string, ahora: real) returns (res: Result<Pedido>)
    modifies s
    ensures var t := Vigentes(old(s.tabla), ahora);
      && (sid !in t ==> res == Err(404))
      && (sid in t && t[sid].userId != uid ==> res == Err(403))
      && (sid in t && t[sid].userId == uid && t[sid].estado != Jugando ==> res == Err(400))
      && (sid in t && t[sid].userId == uid && t[sid].estado == Jugando && t[sid].baraja == [] ==> res == Err(400))
      && (!(sid in t && t[sid].userId == uid && t[sid].estado == Jugando && t[sid].baraja != []) ==> s.tabla == t)
      && (sid in t && t[sid].userId == uid && t[sid].estado == Jugando && t[sid].baraja != [] ==>
            var nueva := ConCarta(t[sid]);
            var puntaje := Puntaje(nueva.manoJugador);
            && (puntaje <= 21 ==>
                  s.tabla == t[sid := nueva] && res == Ok(Pedido(nueva.manoJugador, puntaje, false, None)))
            && (puntaje > 21 && uid in db.usuarios ==>
                  && s.tabla == t - {sid}
                  && res == Ok(Pedido(nueva.manoJugador, puntaje, true,
                                      Some(Cierre(db.usuarios[uid].saldo, Puntaje(nueva.manoBanca), nueva.manoBanca)))))
            && (puntaje > 21 && uid !in db.usuarios ==>
                  s.tabla == t[sid := nueva.(estado := Terminado)] && res == Err(404)))
  {
    LimpiarSesionesExpiradas(s, ahora);
    var consulta := ObtenerSesionAsegurada(s, sid, uid);
    if consulta.Err? {
      return Err(consulta.code);
    }
    var sesion := consulta.value;
    if sesion.baraja == [] {
      return Err(400);
    }
    res := Robar(db, s, uid, sid, sesion);
  }

  /** The part of `pedir_carta_blackjack` after the checks: draw, then continue, finish or fail. */
  method Robar(db: Db, s: Sesiones, uid: int, sid: string, sesion: Sesion) returns (res: Result<Pedido>)
    requires sid in s.tabla && s.tabla[sid] == sesion && sesion.baraja != []
    modifies s
    ensures var nueva := ConCarta(sesion);
      var puntaje := Puntaje(nueva.manoJugador);
      && (puntaje <= 21 ==>
            s.tabla == old(s.tabla)[sid := nueva] && res == Ok(Pedido(nueva.manoJugador, puntaje, false, None)))
      && (puntaje > 21 && uid in db.usuarios ==>
            && s.tabla == old(s.tabla) - {sid}
            && res == Ok(Pedido(nueva.manoJugador, puntaje, true,
                                Some(Cierre(db.usuarios[uid].saldo, Puntaje(nueva.manoBanca), nueva.manoBanca)))))
      && (puntaje > 21 && uid !in db.usuarios ==>
            s.tabla == old(s.tabla)[sid := nueva.(estado := Terminado)] && res == Err(404))
  {
    var sesion := sesion;
    var nuevaCarta := sesion.baraja[|sesion.baraja| - 1];
    sesion := sesion.(baraja := sesion.baraja[..|sesion.baraja| - 1], manoJugador := sesion.manoJugador + [nuevaCarta]);
    s.tabla := s.tabla[sid := sesion];
    var puntajeJugador := CalcularPuntaje(sesion.manoJugador);
    var jugadorSePaso := puntajeJugador > 21;
    if !jugadorSePaso {
      return Ok(Pedido(sesion.manoJugador, puntajeJugador, false, None));
    }
    sesion := sesion.(estado := Terminado);
    s.tabla := s.tabla[sid := sesion];
    if uid !in db.usuarios {
      return Err(404);
    }
    var puntajeBancaFinal := CalcularPuntaje(sesion.manoBanca);
    res := Ok(Pedido(sesion.manoJugador, puntajeJugador, true,
                     Some(Cierre(db.usuarios[uid].saldo, puntajeBancaFinal, sesion.manoBanca))));
    s.tabla := s.tabla - {sid};
  }

  /** The response of `plantarse_blackjack`. */
  datatype Plante = Plante(
    desenlace: Desenlace,
    ganancia: int,
    nuevoSaldo: real,
    manoBancaInicial: seq<Carta>,
    puntajeBancaInicial: int,
    manoBancaFinal: seq<Carta>,
    puntajeBancaFinal: int,
    puntajeJugadorFinal: int)

  /** Everything standing decides about a session, except the new balance. */
  function Plantarse(ses: Sesion, nuevoSaldo: real): Plante
  {
    var final := TurnoBanca(ses.manoBanca, ses.baraja).0;
    var d := Resolver(ses.manoJugador, ses.manoBanca, ses.baraja);
    Plante(d, Pago(d, ses.apuesta), nuevoSaldo, ses.manoBanca, Puntaje(ses.manoBanca), final, Puntaje(final),
           Puntaje(ses.manoJugador))
  }

  /** Computes `Plantarse` as the handler does: dealer's loop, then the outcome checks in order. */
  method Resolucion(ses: Sesion, nuevoSaldo: real) returns (p: Plante)
    ensures p == Plantarse(ses, nuevoSaldo)
  {
    var puntajeJugador := CalcularPuntaje(ses.manoJugador);
    var puntajeBanca := CalcularPuntaje(ses.manoBanca);
    var manoBancaInicial := ses.manoBanca;
    var puntajeBancaInicial := puntajeBanca;
    var manoBanca, baraja := JugarBanca(ses.manoBanca, ses.baraja);
    puntajeBanca := CalcularPuntaje(manoBanca);
    var jugadorTieneBj := |ses.manoJugador| == 2 && puntajeJugador == 21;
    var bancaTeniaBj := |manoBancaInicial| == 2 && puntajeBancaInicial == 21;
    var d := DesenlaceDe(puntajeJugador, puntajeBanca, jugadorTieneBj, bancaTeniaBj);
    p := Plante(d, Pago(d, ses.apuesta), nuevoSaldo, manoBancaInicial, puntajeBancaInicial, manoBanca, puntajeBanca,
                puntajeJugador);
  }

  /**
   * `plantarse_blackjack`. After the sweep and the session checks (404, 403,
   * 400) and the user lookup (404), the dealer plays, the payout of the
   * outcome is credited and the session is deleted.
   */
  method PlantarseBlackjack(db: Db, s: Sesiones, uid: int, sid: string, ahora: real) returns (res: Result<Plante>)
    modifies db`usuarios, s
    ensures res.Err? ==> db.usuarios == old(db.usuarios)
    ensures var t := Vigentes(old(s.tabla), ahora);
      && (sid !in t ==> res == Err(404))
      && (sid in t && t[sid].userId != uid ==> res == Err(403))
      && (sid in t && t[sid].userId == uid && t[sid].estado != Jugando ==> res == Err(400))
      && (sid in t && t[sid].userId == uid && t[sid].estado == Jugando && uid !in old(db.usuarios) ==> res == Err(404))
      && (res.Ok? <==> sid in t && t[sid].userId == uid && t[sid].estado == Jugando && uid in old(db.usuarios))
      && (res.Err? ==> s.tabla == t)
      && (res.Ok? ==>
            var ganancia := Pago(Resolver(t[sid].manoJugador, t[sid].manoBanca, t[sid].baraja), t[sid].apuesta);
            && db.usuarios == ConSaldo(old(db.usuarios), uid, ganancia as real)
            && s.tabla == t - {sid}
            && res.value == Plantarse(t[sid], db.usuarios[uid].saldo))
  {
    LimpiarSesionesExpiradas(s, ahora);
    var consulta := ObtenerSesionAsegurada(s, sid, uid);
    if consulta.Err? {
      return Err(consulta.code);
    }
    var sesion := consulta.value;
    if uid !in db.usuarios {
      return Err(404);
    }
    var usuario := db.usuarios[uid];
    var p := Resolucion(sesion, usuario.saldo);
    usuario := usuario.(saldo := usuario.saldo + p.ganancia as real);
    db.usuarios := db.usuarios[uid := usuario];
    s.tabla := s.tabla[sid := sesion.(estado := Terminado)];
    res := Ok(p.(nuevoSaldo := usuario.saldo));
    s.tabla := s.tabla - {sid};
  }
}
