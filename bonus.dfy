/**
 * The daily bonus of app/services/juegos/bonus.py: once a day a user may
 * claim 500 (verified) or 100 (not verified).
 *
 * `ahora` is the local wall-clock time in seconds. The handler compares the
 * `ultima_recompensa` column, a Date, with `hoy`, a datetime five hours
 * behind `ahora`; in Python a date never equals a datetime, so the guard as
 * written never refuses a claim. `ReclamoTalCual` models that comparison and
 * `ReclamoRepetido` exhibits a second claim on the same day that succeeds.
 * `ReclamarBonusDiario` is the handler with that guard, and
 * `ReclamarBonusDiarioCorregido` the same handler with the intended
 * comparison of days (`Reclamo`).
 */
module Bonus {
  import opened Wrappers
  import opened Modelos

  const BONUS_VERIFICADO: int := 500
  const BONUS_NO_VERIFICADO: int := 100
  /** Seconds in a day. */
  const DIA: int := 86400
  /** `timedelta(hours=-5)`, in seconds. */
  const DESFASE: int := -5 * 3600

  /** `datetime.today() + timedelta(hours=-5)`, in seconds. */
  function Hoy(ahora: int): int
  {
    ahora + DESFASE
  }

  /** The date part of a datetime, that is the day number a Date column stores. */
  function DiaDe(segundos: int): (d: int)
    ensures d * DIA <= segundos < (d + 1) * DIA
  {
    segundos / DIA
  }

  /** A value Python compares: a `date` read from the column or a `datetime`. */
  datatype Fecha = Dia(numero: int) | Momento(segundos: int)

  /** Python's `==` on these values: a date and a datetime are never equal. */
  predicate IgualEnPython(a: Fecha, b: Fecha)
  {
    match (a, b)
    case (Dia(x), Dia(y)) => x == y
    case (Momento(x), Momento(y)) => x == y
    case _ => false
  }

  /** `user.ultima_recompensa == hoy` as written: the stored date against the datetime. */
  predicate YaReclamadoTalCual(ultima: Option<int>, ahora: int)
  {
    ultima.Some? && IgualEnPython(Dia(ultima.value), Momento(Hoy(ahora)))
  }

  /** The intended guard: the stored date is the date of `hoy`. */
  predicate YaReclamado(ultima: Option<int>, ahora: int)
  {
    ultima == Some(DiaDe(Hoy(ahora)))
  }

  /** The bonus amount; a verified user gets five times more. */
  function MontoBonus(verificado: bool): (m: int)
    ensures BONUS_NO_VERIFICADO <= m <= 5 * BONUS_NO_VERIFICADO
    ensures m == 5 * BONUS_NO_VERIFICADO <==> verificado
  {
    if verificado then BONUS_VERIFICADO else BONUS_NO_VERIFICADO
  }

  /** The user row after a claim: balance up by the bonus, the date of `hoy` stored. */
  function Acreditado(u: Usuario, ahora: int): Usuario
  {
    u.(saldo := u.saldo + MontoBonus(u.verificado) as real, ultimaRecompensa := Some(DiaDe(Hoy(ahora))))
  }

  /**
   * One claim with the guard as written. The stored date never equals the
   * datetime, so the claim never fails: it always credits the bonus and
   * records the date of `hoy` (`ReclamoRepetido` draws the consequence).
   */
  function ReclamoTalCual(u: Usuario, ahora: int): (r: Result<Usuario>)
    ensures r.Ok?
    ensures r.value.saldo == u.saldo + MontoBonus(u.verificado) as real
    ensures r.value == u.(saldo := u.saldo + MontoBonus(u.verificado) as real,
                          ultimaRecompensa := Some(DiaDe(Hoy(ahora))))
  {
    if YaReclamadoTalCual(u.ultimaRecompensa, ahora) then Err(400) else Ok(Acreditado(u, ahora))
  }

  /** One claim with the intended guard. */
  function Reclamo(u: Usuario, ahora: int): (r: Result<Usuario>)
    ensures r.Err? <==> u.ultimaRecompensa == Some(DiaDe(Hoy(ahora)))
    ensures r.Err? ==> r.code == 400
    ensures r.Ok? ==> r.value == u.(saldo := u.saldo + MontoBonus(u.verificado) as real,
                                    ultimaRecompensa := Some(DiaDe(Hoy(ahora))))
  {
    if YaReclamado(u.ultimaRecompensa, ahora) then Err(400) else Ok(Acreditado(u, ahora))
  }

  /**
   * As written the guard never fires: a user who has just claimed claims
   * again at the very same instant and is credited twice.
   */
  lemma ReclamoRepetido(u: Usuario, ahora: int)
    ensures ReclamoTalCual(u, ahora).Ok?
    ensures ReclamoTalCual(ReclamoTalCual(u, ahora).value, ahora).Ok?
    ensures ReclamoTalCual(ReclamoTalCual(u, ahora).value, ahora).value.saldo
            == u.saldo + 2.0 * MontoBonus(u.verificado) as real
  {
  }

  /**
   * With the intended guard a claim is refused for the rest of the day once
   * it succeeded, and accepted again on any later day.
   */
  lemma UnReclamoPorDia(u: Usuario, ahora: int, despues: int)
    requires Reclamo(u, ahora).Ok? && ahora <= despues
    ensures DiaDe(Hoy(despues)) == DiaDe(Hoy(ahora)) ==> Reclamo(Reclamo(u, ahora).value, despues) == Err(400)
    ensures DiaDe(Hoy(despues)) != DiaDe(Hoy(ahora)) ==> Reclamo(Reclamo(u, ahora).value, despues).Ok?
  {
  }

  /** A claim a full day (or more) after a successful one is always accepted. */
  lemma {:induction false} DiaSiguiente(u: Usuario, ahora: int, despues: int)
    requires Reclamo(u, ahora).Ok? && despues >= ahora + DIA
    ensures DiaDe(Hoy(despues)) > DiaDe(Hoy(ahora))
    ensures Reclamo(Reclamo(u, ahora).value, despues).Ok?
  {
    var a, b := DiaDe(Hoy(ahora)), DiaDe(Hoy(despues));
    assert (a + 1) * DIA <= Hoy(despues) < (b + 1) * DIA;
  }

  /** The response of `reclamar_bonus_diario`. */
  datatype Bono = Bono(monto: int, nuevoSaldo: real, verificado: bool)

  /**
   * `reclamar_bonus_diario` as written: 404 for a missing user; the 400 of
   * the guard `YaReclamadoTalCual` is never reached, so every existing user
   * is credited the bonus and today is recorded. Nothing else changes.
   */
  method ReclamarBonusDiario(db: Db, uid: int, ahora: int) returns (r: Result<Bono>)
    modifies db`usuarios
    ensures uid !in old(db.usuarios) ==> r == Err(404)
    ensures r.Ok? <==> uid in old(db.usuarios)
    ensures r.Err? ==> db.usuarios == old(db.usuarios)
    ensures r.Ok? ==>
      && db.usuarios == old(db.usuarios)[uid := ReclamoTalCual(old(db.usuarios[uid]), ahora).value]
      && db.usuarios[uid].saldo == old(db.usuarios[uid].saldo) + MontoBonus(old(db.usuarios[uid].verificado)) as real
      && r.value == Bono(MontoBonus(old(db.usuarios[uid].verificado)), db.usuarios[uid].saldo, db.usuarios[uid].verificado)
  {
    if uid !in db.usuarios {
      return Err(404);
    }
    var user := db.usuarios[uid];
    var hoy := Hoy(ahora);
    if user.ultimaRecompensa.Some? && IgualEnPython(Dia(user.ultimaRecompensa.value), Momento(hoy)) {
      return Err(400);
    }
    var montoBonus := if user.verificado then BONUS_VERIFICADO else BONUS_NO_VERIFICADO;
    user := user.(saldo := user.saldo + montoBonus as real, ultimaRecompensa := Some(DiaDe(hoy)));
    db.usuarios := db.usuarios[uid := user];
    r := Ok(Bono(montoBonus, user.saldo, user.verificado));
  }

  /**
   * `reclamar_bonus_diario` with the intended guard: 404 for a missing user,
   * 400 when today's bonus was already claimed, otherwise the balance grows
   * by the bonus and today is recorded. Nothing else changes.
   */
  method ReclamarBonusDiarioCorregido(db: Db, uid: int, ahora: int) returns (r: Result<Bono>)
    modifies db`usuarios
    ensures uid !in old(db.usuarios) ==> r == Err(404)
    ensures uid in old(db.usuarios) && old(db.usuarios[uid].ultimaRecompensa) == Some(DiaDe(Hoy(ahora))) ==> r == Err(400)
    ensures r.Ok? <==> uid in old(db.usuarios) && old(db.usuarios[uid].ultimaRecompensa) != Some(DiaDe(Hoy(ahora)))
    ensures r.Err? ==> db.usuarios == old(db.usuarios)
    ensures r.Ok? ==>
      && db.usuarios == old(db.usuarios)[uid := Reclamo(old(db.usuarios[uid]), ahora).value]
      && r.value == Bono(MontoBonus(old(db.usuarios[uid].verificado)), db.usuarios[uid].saldo, db.usuarios[uid].verificado)
  {
    if uid !in db.usuarios {
      return Err(404);
    }
    var user := db.usuarios[uid];
    if YaReclamado(user.ultimaRecompensa, ahora) {
      return Err(400);
    }
    var montoBonus := MontoBonus(user.verificado);
    user := Acreditado(user, ahora);
    db.usuarios := db.usuarios[uid := user];
    r := Ok(Bono(montoBonus, user.saldo, user.verificado));
  }
}
