/**
 * The crash game of app/services/juegos/aviator.py: the player bets, a crash
 * multiplier is drawn, the multiplier shown grows with time along an easing
 * curve, and the player (or the auto-retire setting) cashes out before it
 * reaches the crash point or loses the stake.
 *
 * Decimal and float quantities are reals; `quantize` is rounding half to
 * even. Times are seconds; the clock, the uuid of a new session and the
 * random draws are parameters.
 */
module Aviator {
  import opened Wrappers
  import opened Modelos
  import opened Redondeo

  const APUESTAS_PERMITIDAS: seq<real> := [100.0, 500.0, 1000.0, 2000.0, 5000.0]
  const MIN_MULTIPLICADOR: real := 1.0
  const MAX_MULTIPLICADOR: real := 500.0
  const MIN_AUTO: real := 1.1
  /** `MAX_HORAS_SESION` hours, in seconds. */
  const VIDA_SESION: real := 3600.0
  const AUTO_INICIAL: real := 2.0

  // ---------------------------------------------------------------- animation

  function Max(a: real, b: real): real
  {
    if a >= b then a else b
  }

  /** Seconds of flight added per unit of multiplier above 1.5: from 1s at 1.5x to 60s at 500x. */
  const PENDIENTE: real := (60.0 - 1.0) / (500.0 - 1.5)

  function Rampa(m: real): real
  {
    1.0 + (m - 1.5) * PENDIENTE
  }

  /** `calcular_duracion_animacion`: seconds the flight lasts for crash multiplier `m`. */
  function DuracionAnimacion(m: real): (d: real)
    ensures 0.5 <= d <= 60.0
  {
    if m <= 1.0 then 0.5
    else if m <= 1.5 then 0.5 + (m - 1.0) * 1.0
    else if m <= 500.0 then
      CuantizarMonotono(Max(Rampa(m), 1.0), 60.0, 10);
      CuantizarExacto(60.0, 600, 10);
      CuantizarMonotono(0.5, Max(Rampa(m), 1.0), 10);
      CuantizarExacto(0.5, 5, 10);
      Cuantizar(Max(Rampa(m), 1.0), 10)
    else 60.0
  }

  /** A higher crash point never gives a shorter flight; the pieces of the curve meet at 1.5 and 500. */
  lemma DuracionMonotona(m1: real, m2: real)
    requires m1 <= m2
    ensures DuracionAnimacion(m1) <= DuracionAnimacion(m2)
  {
    if 1.5 < m1 <= 500.0 && m2 <= 500.0 {
      assert Rampa(m1) <= Rampa(m2);
      CuantizarMonotono(Max(Rampa(m1), 1.0), Max(Rampa(m2), 1.0), 10);
    } else if 1.0 < m1 <= 1.5 < m2 <= 500.0 {
      CuantizarMonotono(1.0, Max(Rampa(m2), 1.0), 10);
      CuantizarExacto(1.0, 10, 10);
    }
  }

  /** The easing curve of `calcular_multiplicador_actual`: fast growth for 70% of the time, then linear. */
  function Progreso(t: real): real
  {
    if t < 0.7 then 1.0 - (1.0 - t) * (1.0 - t)
    else
      var base := 1.0 - (1.0 - 0.7) * (1.0 - 0.7);
      base + ((t - 0.7) / 0.3) * (1.0 - base)
  }

  lemma CuadradoMonotono(u: real, v: real)
    requires 0.0 <= u <= v
    ensures u * u <= v * v
  {
    Escalar(u, u, v);
    Escalar(v, u, v);
  }

  lemma ProgresoMonotono(t1: real, t2: real)
    requires 0.0 <= t1 <= t2 <= 1.0
    ensures 0.0 <= Progreso(t1) <= Progreso(t2) <= 1.0
    ensures Progreso(1.0) == 1.0
  {
    if t2 < 0.7 {
      CuadradoMonotono(1.0 - t2, 1.0 - t1);
      CuadradoMonotono(1.0 - t1, 1.0);
    } else if t1 < 0.7 {
      CuadradoMonotono(0.3, 1.0 - t1);
      CuadradoMonotono(1.0 - t1, 1.0);
    }
  }

  function Min(a: real, b: real): real
  {
    if a <= b then a else b
  }

  /** `calcular_multiplicador_actual`: the multiplier `transcurrido` seconds into a flight. */
  function MultiplicadorActual(transcurrido: real, crash: real, duracion: real): real
  {
    if duracion <= 0.0 then 1.0
    else Cuantizar(Interpolar(crash, Progreso(Min(transcurrido / duracion, 1.0))), 100)
  }

  /** Dividing by a positive number keeps the order. */
  lemma Cociente(x: real, y: real, d: real)
    requires d > 0.0 && x <= y
    ensures x / d <= y / d
  {
    var a, b := x / d, y / d;
    assert d * a == x && d * b == y;
    if a > b {
      Escalar(d, b, a);
    }
  }

  /** The point a fraction `p` of the way from 1 to `crash`. */
  function Interpolar(crash: real, p: real): real
  {
    1.0 + (crash - 1.0) * p
  }

  /** The elapsed fraction of the flight, capped at 1, grows with the time. */
  lemma FraccionMonotona(t1: real, t2: real, duracion: real)
    requires 0.0 <= t1 <= t2 && duracion > 0.0
    ensures 0.0 <= Min(t1 / duracion, 1.0) <= Min(t2 / duracion, 1.0) <= 1.0
    ensures t2 >= duracion ==> Min(t2 / duracion, 1.0) == 1.0
  {
    Cociente(0.0, t1, duracion);
    Cociente(t1, t2, duracion);
    assert 0.0 / duracion == 0.0 && duracion / duracion == 1.0;
    if t2 >= duracion {
      Cociente(duracion, t2, duracion);
    }
  }

  lemma Escalar(c: real, p: real, q: real)
    requires c >= 0.0 && p <= q
    ensures c * p <= c * q
  {
    assert c * q - c * p == c * (q - p);
  }

  /** A fraction of a non-negative span lies between 0 and the span. */
  lemma Fracciones(c: real, p: real, q: real)
    requires c >= 0.0 && 0.0 <= p <= q <= 1.0
    ensures 0.0 <= c * p <= c * q <= c
    ensures q == 1.0 ==> c * q == c
  {
    Escalar(c, 0.0, p);
    Escalar(c, p, q);
    Escalar(c, q, 1.0);
  }

  /**
   * Moving from 1 towards `crash` by a fraction `p` of the way and quantizing
   * grows with `p`, never leaves [1, crash] and gives the quantized crash
   * point at `p = 1`.
   */
  lemma Interpolacion(crash: real, p: real, q: real)
    requires crash >= 1.0 && 0.0 <= p <= q <= 1.0
    ensures 1.0 <= Cuantizar(Interpolar(crash, p), 100) <= Cuantizar(Interpolar(crash, q), 100)
    ensures Cuantizar(Interpolar(crash, q), 100) <= Cuantizar(crash, 100)
    ensures q == 1.0 ==> Cuantizar(Interpolar(crash, q), 100) == Cuantizar(crash, 100)
  {
    Fracciones(crash - 1.0, p, q);
    assert 1.0 <= 1.0 + (crash - 1.0) * p;
    assert 1.0 + (crash - 1.0) * p <= 1.0 + (crash - 1.0) * q;
    assert 1.0 + (crash - 1.0) * q <= crash;
    CuantizarExacto(1.0, 100, 100);
    CuantizarCadena(1.0, Interpolar(crash, p), Interpolar(crash, q), crash, 100);
  }

  /**
   * During a flight the multiplier never decreases, stays between 1 and the
   * (quantized) crash point, and equals the crash point from the end of the
   * animation on; so a crash point with two decimals, as every drawn one has,
   * is always reached, and that is when a poll reports the explosion.
   */
  lemma CurvaDeVuelo(t1: real, t2: real, crash: real, duracion: real)
    requires 0.0 <= t1 <= t2 && crash >= 1.0 && duracion > 0.0
    ensures 1.0 <= MultiplicadorActual(t1, crash, duracion) <= MultiplicadorActual(t2, crash, duracion)
    ensures MultiplicadorActual(t2, crash, duracion) <= Cuantizar(crash, 100)
    ensures t2 >= duracion ==> MultiplicadorActual(t2, crash, duracion) == Cuantizar(crash, 100)
  {
    var a, b := Min(t1 / duracion, 1.0), Min(t2 / duracion, 1.0);
    FraccionMonotona(t1, t2, duracion);
    ProgresoMonotono(a, b);
    ProgresoMonotono(b, 1.0);
    Interpolacion(crash, Progreso(a), Progreso(b));
  }

  // ---------------------------------------------------------------- crash draw

  /**
   * One row of `PROBABILIDADES`: the top of a multiplier range, held in
   * hundredths as the two-decimal literal it is, and its percentage.
   */
  datatype Tramo = Tramo(topeCentesimas: int, prob: real)
  {
    function Tope(): real
    {
      topeCentesimas as real / 100.0
    }
  }

  const PROBABILIDADES: seq<Tramo> := [
    Tramo(100, 30.0), Tramo(150, 30.0), Tramo(1000, 20.0), Tramo(5000, 10.0), Tramo(10000, 5.0),
    Tramo(20000, 3.0), Tramo(25000, 1.0), Tramo(30000, 0.5), Tramo(40000, 0.4), Tramo(50000, 0.1)]

  /** Sum of the first `i` percentages. */
  function Acumulado(i: nat): real
    requires i <= |PROBABILIDADES|
  {
    if i == 0 then 0.0 else Acumulado(i - 1) + PROBABILIDADES[i - 1].prob
  }

  /** The percentages add up to 100 and the range tops increase from 1 to 500. */
  lemma TablaDeProbabilidades()
    ensures |PROBABILIDADES| == 10 && Acumulado(1) == 30.0 && Acumulado(10) == 100.0
    ensures forall i :: 0 <= i < |PROBABILIDADES| ==> PROBABILIDADES[i].prob > 0.0
    ensures forall i :: 0 <= i < |PROBABILIDADES| ==> 100 <= PROBABILIDADES[i].topeCentesimas <= 50000
    ensures forall i :: 0 < i < |PROBABILIDADES| ==>
              PROBABILIDADES[i - 1].topeCentesimas < PROBABILIDADES[i].topeCentesimas
    ensures PROBABILIDADES[0].Tope() == MIN_MULTIPLICADOR && PROBABILIDADES[9].Tope() == MAX_MULTIPLICADOR
  {
  }

  lemma {:induction false} AcumuladoCrece(i: nat, j: nat)
    requires i <= j <= |PROBABILIDADES|
    ensures Acumulado(i) <= Acumulado(j)
    decreases j
  {
    if i < j {
      AcumuladoCrece(i, j - 1);
    }
  }

  /** The first range, from `i` on, whose cumulative percentage exceeds `r`. */
  function PrimerTramo(r: real, i: nat): (k: Option<nat>)
    requires i <= |PROBABILIDADES|
    ensures k.Some? ==> i <= k.value < |PROBABILIDADES|
    decreases |PROBABILIDADES| - i
  {
    if i == |PROBABILIDADES| then None
    else if r < Acumulado(i + 1) then Some(i)
    else PrimerTramo(r, i + 1)
  }

  /**
   * A draw `r` of `random.random() * 100` falls in range `k` exactly when it
   * lies between the cumulative percentages before and through `k`, so each
   * range is chosen with its own percentage.
   */
  lemma {:induction false} TramoPorAcumulado(r: real, i: nat, k: nat)
    requires i <= k < |PROBABILIDADES| && r >= Acumulado(i)
    ensures PrimerTramo(r, i) == Some(k) <==> Acumulado(k) <= r < Acumulado(k + 1)
    decreases k - i
  {
    if r < Acumulado(i + 1) {
      if i < k {
        AcumuladoCrece(i + 1, k);
      }
    } else if i < k {
      TramoPorAcumulado(r, i + 1, k);
    }
  }

  /** The search only runs off the table when `r` is not below the total. */
  lemma {:induction false} TramoEncontrado(r: real, i: nat)
    requires i <= |PROBABILIDADES|
    ensures PrimerTramo(r, i).None? ==> i == |PROBABILIDADES| || r >= Acumulado(|PROBABILIDADES|)
    decreases |PROBABILIDADES| - i
  {
    if i < |PROBABILIDADES| && r >= Acumulado(i + 1) {
      TramoEncontrado(r, i + 1);
    }
  }

  /**
   * `generar_multiplicador_crash`: `r` is `random.random() * 100`, `factor`
   * is `u ** 2` for the second draw `u`, and `respaldo` the
   * `random.uniform(1.0, 500.0)` of the fallback. The first range crashes
   * at once; range `i` picks `min + (max - min) * factor` between the tops of
   * ranges `i - 1` and `i`, to two decimals.
   */
  function CrashDe(r: real, factor: real, respaldo: real): real
  {
    match PrimerTramo(r, 0)
    case None => Cuantizar(respaldo, 100)
    case Some(i) =>
      if i == 0 then 1.0
      else
        var minVal := PROBABILIDADES[i - 1].Tope();
        var maxVal := PROBABILIDADES[i].Tope();
        if minVal == maxVal then minVal else Cuantizar(Intermedio(minVal, maxVal, factor), 100)
  }

  /** The point a fraction `factor` of the way from `lo` to `hi`. */
  function Intermedio(lo: real, hi: real, factor: real): real
  {
    lo + (hi - lo) * factor
  }

  lemma IntermedioEntre(lo: real, hi: real, factor: real)
    requires lo <= hi && 0.0 <= factor <= 1.0
    ensures lo <= Intermedio(lo, hi, factor) <= hi
  {
    Escalar(hi - lo, 0.0, factor);
    Escalar(hi - lo, factor, 1.0);
    assert (hi - lo) * 0.0 == 0.0;
    assert (hi - lo) * 1.0 == hi - lo;
  }

  /** A point a fraction `factor` of the way between two two-decimal bounds, quantized, stays between them. */
  lemma Entre(lo: real, hi: real, a: int, b: int, factor: real)
    requires lo * 100.0 == a as real && hi * 100.0 == b as real && lo <= hi && 0.0 <= factor <= 1.0
    ensures var c := Cuantizar(Intermedio(lo, hi, factor), 100);
            lo <= c <= hi && Cuantizar(c, 100) == c
  {
    var x := Intermedio(lo, hi, factor);
    IntermedioEntre(lo, hi, factor);
    CuantizarExacto(lo, a, 100);
    CuantizarExacto(hi, b, 100);
    CuantizarMonotono(lo, x, 100);
    CuantizarMonotono(x, hi, 100);
    CuantizarIdempotente(x, 100);
  }

  /** Range `i > 0` yields a two-decimal value between its bounds, themselves within [1, 500]. */
  lemma CrashEnTramo(i: nat, factor: real)
    requires 0 < i < |PROBABILIDADES| && 0.0 <= factor <= 1.0
    ensures var lo, hi := PROBABILIDADES[i - 1].Tope(), PROBABILIDADES[i].Tope();
            var c := Cuantizar(Intermedio(lo, hi, factor), 100);
            && MIN_MULTIPLICADOR <= lo < hi <= MAX_MULTIPLICADOR
            && lo <= c <= hi && Cuantizar(c, 100) == c
  {
    TablaDeProbabilidades();
    var a, b := PROBABILIDADES[i - 1].topeCentesimas, PROBABILIDADES[i].topeCentesimas;
    Entre(PROBABILIDADES[i - 1].Tope(), PROBABILIDADES[i].Tope(), a, b, factor);
  }

  /**
   * Every crash point the draw can give lies between 1 and 500, within the
   * bounds of its range, and has two decimals; the first range is drawn
   * exactly when `r < 30`.
   */
  lemma CrashEnRango(r: real, factor: real, respaldo: real)
    requires 0.0 <= r < 100.0 && 0.0 <= factor <= 1.0
    ensures PrimerTramo(r, 0).Some?
    ensures var i := PrimerTramo(r, 0).value;
            && (i == 0 <==> r < 30.0)
            && (i > 0 ==> PROBABILIDADES[i - 1].Tope() <= CrashDe(r, factor, respaldo) <= PROBABILIDADES[i].Tope())
    ensures MIN_MULTIPLICADOR <= CrashDe(r, factor, respaldo) <= MAX_MULTIPLICADOR
    ensures Cuantizar(CrashDe(r, factor, respaldo), 100) == CrashDe(r, factor, respaldo)
  {
    TablaDeProbabilidades();
    TramoEncontrado(r, 0);
    var i := PrimerTramo(r, 0).value;
    TramoPorAcumulado(r, 0, i);
    if i == 0 {
      CuantizarExacto(1.0, 100, 100);
    } else {
      AcumuladoCrece(1, i);
      CrashEnTramo(i, factor);
    }
  }

  /** The loop of `generar_multiplicador_crash` over the cumulative percentages. */
  method GenerarMultiplicadorCrash(r: real, factor: real, respaldo: real) returns (c: real)
    ensures c == CrashDe(r, factor, respaldo)
  {
    var acumulado := 0.0;
    var i := 0;
    while i < |PROBABILIDADES|
      invariant 0 <= i <= |PROBABILIDADES|
      invariant acumulado == Acumulado(i)
      invariant PrimerTramo(r, 0) == PrimerTramo(r, i)
    {
      acumulado := acumulado + PROBABILIDADES[i].prob;
      if r < acumulado {
        if i == 0 {
          return 1.0;
        }
        var minVal := PROBABILIDADES[i - 1].Tope();
        var maxVal := PROBABILIDADES[i].Tope();
        if minVal == maxVal {
          return minVal;
        }
        return Cuantizar(Intermedio(minVal, maxVal, factor), 100);
      }
      i := i + 1;
    }
    c := Cuantizar(respaldo, 100);
  }

  // ---------------------------------------------------------------- sessions

  datatype Estado = Vuelo | Explosion | Cashout

  /** The `SesionAviator` dictionary. */
  datatype Sesion = Sesion(
    userId: int,
    apuesta: real,
    multiplicadorCrash: real,
    multiplicadorRetiro: Option<real>,
    retiroManual: bool,
    estado: Estado,
    multiplicadorActual: real,
    autoRetiroActivo: bool,
    multiplicadorAuto: real,
    duracionTotal: real,
    createdAt: real,
    tiempoInicio: real,
    tiempoExplosion: Option<real>)

  /** The aviator entries of the in-memory `game_sessions` dictionary, keyed by session id. */
  class Sesiones {
    var tabla: map<string, Sesion>

    constructor ()
      ensures tabla == map[]
    {
      tabla := map[];
    }
  }

  /** The sessions that survive a sweep at time `ahora`: those at most one hour old. */
  function Vigentes(t: map<string, Sesion>, ahora: real): (v: map<string, Sesion>)
    ensures forall k :: k in v <==> k in t && ahora - t[k].createdAt <= VIDA_SESION
    ensures forall k :: k in v ==> v[k] == t[k]
  {
    map k | k in t && !(ahora - t[k].createdAt > VIDA_SESION) :: t[k]
  }

  /** `limpiar_sesiones_expiradas`: collect the expired ids, then delete them. */
  method LimpiarSesionesExpiradas(s: Sesiones, ahora: real)
    modifies s
    ensures s.tabla == Vigentes(old(s.tabla), ahora)
  {
    var expiradas: set<string> := {};
    var pendientes := s.tabla.Keys;
    while pendientes != {}
      invariant pendientes <= s.tabla.Keys && s.tabla == old(s.tabla)
      invariant forall k :: k in expiradas <==>
                  k in s.tabla && k !in pendientes && ahora - s.tabla[k].createdAt > VIDA_SESION
      decreases pendientes
    {
      var sid :| sid in pendientes;
      if ahora - s.tabla[sid].createdAt > VIDA_SESION {
        expiradas := expiradas + {sid};
      }
      pendientes := pendientes - {sid};
    }
    var restantes := expiradas;
    while restantes != {}
      invariant restantes <= expiradas
      invariant s.tabla == old(s.tabla) - (expiradas - restantes)
      decreases restantes
    {
      var sid :| sid in restantes;
      s.tabla := s.tabla - {sid};
      restantes := restantes - {sid};
    }
    assert s.tabla == Vigentes(old(s.tabla), ahora);
  }

  /** `obtener_sesion_asegurada`: 404 for an unknown id, 403 for another user's session. */
  method ObtenerSesionAsegurada(s: Sesiones, sid: string, uid: int) returns (r: Result<Sesion>)
    ensures sid !in s.tabla ==> r == Err(404)
    ensures sid in s.tabla && s.tabla[sid].userId != uid ==> r == Err(403)
    ensures r.Ok? <==> sid in s.tabla && s.tabla[sid].userId == uid
    ensures r.Ok? ==> r.value == s.tabla[sid]
  {
    if sid !in s.tabla {
      return Err(404);
    }
    var sesion := s.tabla[sid];
    if sesion.userId != uid {
      return Err(403);
    }
    r := Ok(sesion);
  }

  datatype Inicio = Inicio(sessionId: string, apuesta: real, nuevoSaldo: real, tiempoInicio: real, duracionTotal: real)

  /** The session `iniciar_vuelo` stores. */
  function SesionNueva(uid: int, apuesta: real, crash: real, ahora: real): Sesion
  {
    Sesion(uid, apuesta, crash, None, false, Vuelo, 1.0, false, AUTO_INICIAL, DuracionAnimacion(crash), ahora, ahora, None)
  }

  /**
   * `iniciar_vuelo`. A stake below 1 is refused by the query validation (422)
   * before the handler runs; otherwise expired sessions are swept, the stake
   * must be one of the permitted amounts and covered by the balance, and it is
   * debited once a new flight is stored under `sid` with the drawn crash point.
   */
  method IniciarVuelo(db: Db, s: Sesiones, uid: int, apuesta: real, sid: string, ahora: real,
                      r: real, factor: real, respaldo: real) returns (res: Result<Inicio>)
    modifies db`usuarios, s
    ensures apuesta < 1.0 ==> res == Err(422) && s.tabla == old(s.tabla)
    ensures apuesta >= 1.0 && apuesta !in APUESTAS_PERMITIDAS ==> res == Err(400)
    ensures (apuesta in APUESTAS_PERMITIDAS && uid !in old(db.usuarios)) ==> res == Err(404)
    ensures (apuesta in APUESTAS_PERMITIDAS && uid in old(db.usuarios)
             && old(db.usuarios[uid].saldo) < apuesta) ==> res == Err(400)
    ensures res.Ok? <==> apuesta in APUESTAS_PERMITIDAS && uid in old(db.usuarios) && old(db.usuarios[uid].saldo) >= apuesta
    ensures res.Err? ==> db.usuarios == old(db.usuarios)
    ensures res.Err? && apuesta >= 1.0 ==> s.tabla == Vigentes(old(s.tabla), ahora)
    ensures res.Ok? ==>
      var crash := CrashDe(r, factor, respaldo);
      && db.usuarios == ConSaldo(old(db.usuarios), uid, -apuesta)
      && s.tabla == Vigentes(old(s.tabla), ahora)[sid := SesionNueva(uid, apuesta, crash, ahora)]
      && res.value == Inicio(sid, apuesta, db.usuarios[uid].saldo, ahora, DuracionAnimacion(crash))
  {
    if apuesta < 1.0 {
      return Err(422);
    }
    LimpiarSesionesExpiradas(s, ahora);
    if apuesta !in APUESTAS_PERMITIDAS {
      return Err(400);
    }
    if uid !in db.usuarios {
      return Err(404);
    }
    var usuario := db.usuarios[uid];
    if usuario.saldo < apuesta {
      return Err(400);
    }
    var crash := GenerarMultiplicadorCrash(r, factor, respaldo);
    var duracionTotal := DuracionAnimacion(crash);
    s.tabla := s.tabla[sid := Sesion(uid, apuesta, crash, None, false, Vuelo, 1.0, false, AUTO_INICIAL,
                                     duracionTotal, ahora, ahora, None)];
    usuario := usuario.(saldo := usuario.saldo - apuesta);
    db.usuarios := db.usuarios[uid := usuario];
    res := Ok(Inicio(sid, apuesta, usuario.saldo, ahora, duracionTotal));
  }

  datatype Cobro = Cobro(ganancia: real, multiplicadorCrash: real, multiplicadorRetiro: Option<real>, nuevoSaldo: real,
                         estado: Estado)

  /**
   * `hacer_cashout` at the multiplier `multiplicador` the client reports. A
   * multiplier at or past the crash point loses the flight: "explosion", no
   * retiro, nothing credited. Below it the flight ends in "cashout" and
   * `apuesta * multiplicador` is credited.
   */
  method HacerCashout(db: Db, s: Sesiones, uid: int, sid: string, multiplicador: real, ahora: real)
    returns (res: Result<Cobro>)
    modifies db`usuarios, s
    ensures !(MIN_MULTIPLICADOR <= multiplicador <= MAX_MULTIPLICADOR) ==> res == Err(422) && s.tabla == old(s.tabla)
    ensures res.Err? ==> db.usuarios == old(db.usuarios)
    ensures (MIN_MULTIPLICADOR <= multiplicador <= MAX_MULTIPLICADOR) ==>
      var t := Vigentes(old(s.tabla), ahora);
      && (sid !in t ==> res == Err(404))
      && (sid in t && t[sid].userId != uid ==> res == Err(403))
      && (sid in t && t[sid].userId == uid && t[sid].estado != Vuelo ==> res == Err(400))
      && (sid in t && t[sid].userId == uid && t[sid].estado == Vuelo && uid !in old(db.usuarios) ==> res == Err(404))
      && (res.Ok? <==> sid in t && t[sid].userId == uid && t[sid].estado == Vuelo && uid in old(db.usuarios))
      && (res.Err? ==> s.tabla == t)
      && (res.Ok? && multiplicador >= t[sid].multiplicadorCrash ==>
            && db.usuarios == old(db.usuarios)
            && s.tabla == t[sid := t[sid].(estado := Explosion, multiplicadorRetiro := None, retiroManual := false,
                                          tiempoExplosion := Some(ahora))]
            && res.value == Cobro(0.0, t[sid].multiplicadorCrash, None, old(db.usuarios[uid].saldo), Explosion))
      && (res.Ok? && multiplicador < t[sid].multiplicadorCrash ==>
            && db.usuarios == ConSaldo(old(db.usuarios), uid, t[sid].apuesta * multiplicador)
            && s.tabla == t[sid := t[sid].(estado := Cashout, multiplicadorRetiro := Some(multiplicador),
                                          retiroManual := true, multiplicadorActual := multiplicador,
                                          tiempoExplosion := Some(ahora))]
            && res.value == Cobro(t[sid].apuesta * multiplicador, t[sid].multiplicadorCrash, Some(multiplicador),
                                  db.usuarios[uid].saldo, Cashout))
  {
    if !(MIN_MULTIPLICADOR <= multiplicador <= MAX_MULTIPLICADOR) {
      return Err(422);
    }
    LimpiarSesionesExpiradas(s, ahora);
    var consulta := ObtenerSesionAsegurada(s, sid, uid);
    if consulta.Err? {
      return Err(consulta.code);
    }
    var sesion := consulta.value;
    if sesion.estado != Vuelo {
      return Err(400);
    }
    if uid !in db.usuarios {
      return Err(404);
    }
    var usuario := db.usuarios[uid];
    if multiplicador >= sesion.multiplicadorCrash {
      sesion := sesion.(estado := Explosion, multiplicadorRetiro := None, retiroManual := false,
                        tiempoExplosion := Some(ahora));
      s.tabla := s.tabla[sid := sesion];
      return Ok(Cobro(0.0, sesion.multiplicadorCrash, None, usuario.saldo, Explosion));
    }
    var ganancia := sesion.apuesta * multiplicador;
    assert ganancia == Vigentes(old(s.tabla), ahora)[sid].apuesta * multiplicador;
    sesion := sesion.(estado := Cashout, multiplicadorRetiro := Some(multiplicador), retiroManual := true,
                      multiplicadorActual := multiplicador, tiempoExplosion := Some(ahora));
    s.tabla := s.tabla[sid := sesion];
    usuario := usuario.(saldo := usuario.saldo + ganancia);
    db.usuarios := db.usuarios[uid := usuario];
    res := Ok(Cobro(ganancia, sesion.multiplicadorCrash, Some(multiplicador), usuario.saldo, Cashout));
  }

  /** What a status poll reports. */
  datatype Consulta = Consulta(
    estado: Estado,
    multiplicadorActual: real,
    multiplicadorCrash: Option<real>,
    multiplicadorRetiro: Option<real>,
    apuesta: real,
    tiempoTranscurrido: real,
    exploto: bool,
    autoRetiro: Option<(real, real)>)   // (ganancia, nuevo saldo) when the auto-retire fired

  /**
   * The session after a poll at `ahora` and whether the auto-retire fires:
   * the current multiplier is recorded, an explosion is applied first, and only
   * a flight still in "vuelo" whose multiplier reached the auto-retire mark is
   * cashed out at that mark (when the user exists).
   */
  datatype Sondeo = Sondeo(sesion: Sesion, multiplicador: real, exploto: bool, autoRetiro: bool)

  function SondeoDe(sesion: Sesion, ahora: real, usuarioExiste: bool): (p: Sondeo)
    ensures p.exploto == (p.multiplicador >= sesion.multiplicadorCrash)
    ensures p.autoRetiro ==> sesion.estado == Vuelo && !p.exploto && sesion.autoRetiroActivo
                             && p.multiplicador >= sesion.multiplicadorAuto && usuarioExiste
    ensures sesion.estado == Vuelo && p.exploto ==> p.sesion.estado == Explosion
    ensures sesion.estado != Vuelo ==> p.sesion.estado == sesion.estado && !p.autoRetiro
    ensures p.autoRetiro ==> p.sesion.estado == Cashout && p.sesion.multiplicadorRetiro == Some(sesion.multiplicadorAuto)
  {
    var m := MultiplicadorActual(ahora - sesion.tiempoInicio, sesion.multiplicadorCrash, sesion.duracionTotal);
    var exploto := m >= sesion.multiplicadorCrash;
    var s1 := if exploto && sesion.estado == Vuelo then sesion.(estado := Explosion, tiempoExplosion := Some(ahora))
              else sesion;
    var s2 := s1.(multiplicadorActual := m);
    if s2.estado == Vuelo && s2.autoRetiroActivo && m >= s2.multiplicadorAuto && usuarioExiste then
      Sondeo(s2.(estado := Cashout, multiplicadorRetiro := Some(s2.multiplicadorAuto), retiroManual := false,
                 tiempoExplosion := Some(ahora)), m, exploto, true)
    else Sondeo(s2, m, exploto, false)
  }

  /**
   * `verificar_estado`. After the sweep and the access checks the poll
   * recomputes the multiplier from the elapsed time and updates the session
   * as `SondeoDe` says; only a fired auto-retire credits
   * `apuesta * multiplicador_auto`.
   */
  method VerificarEstado(db: Db, s: Sesiones, uid: int, sid: string, ahora: real) returns (res: Result<Consulta>)
    modifies db`usuarios, s
    ensures var t := Vigentes(old(s.tabla), ahora);
      && (sid !in t ==> res == Err(404))
      && (sid in t && t[sid].userId != uid ==> res == Err(403))
      && (res.Ok? <==> sid in t && t[sid].userId == uid)
      && (res.Err? ==> s.tabla == t && db.usuarios == old(db.usuarios))
      && (res.Ok? ==>
            var p := SondeoDe(t[sid], ahora, uid in old(db.usuarios));
            && s.tabla == t[sid := p.sesion]
            && (p.autoRetiro ==>
                  && db.usuarios == ConSaldo(old(db.usuarios), uid, t[sid].apuesta * t[sid].multiplicadorAuto)
                  && res.value.autoRetiro == Some((t[sid].apuesta * t[sid].multiplicadorAuto, db.usuarios[uid].saldo)))
            && (!p.autoRetiro ==> db.usuarios == old(db.usuarios) && res.value.autoRetiro.None?)
            && res.value.estado == p.sesion.estado && res.value.multiplicadorActual == p.multiplicador
            && res.value.multiplicadorCrash == (if p.sesion.estado != Vuelo then Some(t[sid].multiplicadorCrash) else None)
            && res.value.multiplicadorRetiro == p.sesion.multiplicadorRetiro
            && res.value.apuesta == t[sid].apuesta
            && res.value.tiempoTranscurrido == ahora - t[sid].tiempoInicio
            && res.value.exploto == p.exploto)
  {
    LimpiarSesionesExpiradas(s, ahora);
    var consulta := ObtenerSesionAsegurada(s, sid, uid);
    if consulta.Err? {
      return Err(consulta.code);
    }
    var sesion := consulta.value;
    var tiempoTranscurrido := ahora - sesion.tiempoInicio;
    var multiplicadorActual := MultiplicadorActual(tiempoTranscurrido, sesion.multiplicadorCrash, sesion.duracionTotal);
    var exploto := multiplicadorActual >= sesion.multiplicadorCrash;
    if exploto && sesion.estado == Vuelo {
      sesion := sesion.(estado := Explosion, tiempoExplosion := Some(ahora));
    }
    sesion := sesion.(multiplicadorActual := multiplicadorActual);
    if sesion.estado == Vuelo && sesion.autoRetiroActivo && multiplicadorActual >= sesion.multiplicadorAuto {
      if uid in db.usuarios {
        var usuario := db.usuarios[uid];
        var ganancia := sesion.apuesta * sesion.multiplicadorAuto;
        assert ganancia == Vigentes(old(s.tabla), ahora)[sid].apuesta * Vigentes(old(s.tabla), ahora)[sid].multiplicadorAuto;
        usuario := usuario.(saldo := usuario.saldo + ganancia);
        db.usuarios := db.usuarios[uid := usuario];
        sesion := sesion.(estado := Cashout, multiplicadorRetiro := Some(sesion.multiplicadorAuto),
                          retiroManual := false, tiempoExplosion := Some(ahora));
        s.tabla := s.tabla[sid := sesion];
        return Ok(Consulta(Cashout, multiplicadorActual, Some(sesion.multiplicadorCrash), sesion.multiplicadorRetiro,
                           sesion.apuesta, tiempoTranscurrido, false, Some((ganancia, usuario.saldo))));
      }
    }
    s.tabla := s.tabla[sid := sesion];
    res := Ok(Consulta(sesion.estado, multiplicadorActual,
                       if sesion.estado != Vuelo then Some(sesion.multiplicadorCrash) else None,
                       sesion.multiplicadorRetiro, sesion.apuesta, tiempoTranscurrido, exploto, None));
  }

  /**
   * `configurar_autoretiro`: a mark outside [1.1, 500] is refused by the query
   * validation (422); otherwise only a flight still in "vuelo" can be
   * configured. No sweep runs here and no balance moves.
   */
  method ConfigurarAutoretiro(s: Sesiones, uid: int, sid: string, multiplicadorAuto: real, activar: bool)
    returns (res: Result<(real, bool)>)
    modifies s
    ensures !(MIN_AUTO <= multiplicadorAuto <= MAX_MULTIPLICADOR) ==> res == Err(422)
    ensures (MIN_AUTO <= multiplicadorAuto <= MAX_MULTIPLICADOR) ==>
      && (sid !in old(s.tabla) ==> res == Err(404))
      && (sid in old(s.tabla) && old(s.tabla[sid].userId) != uid ==> res == Err(403))
      && (sid in old(s.tabla) && old(s.tabla[sid].userId) == uid && old(s.tabla[sid].estado) != Vuelo ==> res == Err(400))
    ensures res.Ok? <==> MIN_AUTO <= multiplicadorAuto <= MAX_MULTIPLICADOR && sid in old(s.tabla)
                         && old(s.tabla[sid].userId) == uid && old(s.tabla[sid].estado) == Vuelo
    ensures res.Err? ==> s.tabla == old(s.tabla)
    ensures res.Ok? ==>
      && s.tabla == old(s.tabla)[sid := old(s.tabla[sid]).(autoRetiroActivo := activar, multiplicadorAuto := multiplicadorAuto)]
      && res.value == (multiplicadorAuto, activar)
  {
    if !(MIN_AUTO <= multiplicadorAuto <= MAX_MULTIPLICADOR) {
      return Err(422);
    }
    var consulta := ObtenerSesionAsegurada(s, sid, uid);
    if consulta.Err? {
      return Err(consulta.code);
    }
    var sesion := consulta.value;
    if sesion.estado != Vuelo {
      return Err(400);
    }
    s.tabla := s.tabla[sid := sesion.(autoRetiroActivo := activar, multiplicadorAuto := multiplicadorAuto)];
    res := Ok((multiplicadorAuto, activar));
  }

  /**
   * A flight pays at most once: once it leaves "vuelo" no cashout, auto-retire
   * or configuration applies to it, and a poll leaves its state as it is.
   */
  lemma VueloTerminado(sesion: Sesion, ahora: real, usuarioExiste: bool)
    requires sesion.estado != Vuelo
    ensures !SondeoDe(sesion, ahora, usuarioExiste).autoRetiro
    ensures SondeoDe(sesion, ahora, usuarioExiste).sesion.estado == sesion.estado
    ensures SondeoDe(sesion, ahora, usuarioExiste).sesion.multiplicadorRetiro == sesion.multiplicadorRetiro
  {
  }
}
