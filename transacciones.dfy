/**
 * Deposits and withdrawals, app/services/transacciones.py. A user requests a
 * deposit or a withdrawal, which is stored PENDIENTE without touching the
 * balance; the administrator then approves it (the balance moves) or rejects
 * it (the balance stays).
 *
 * `actor` is the username of the authenticated caller, `uid` its id; the
 * clock (`ahora`), the generated reference code and the ids the database
 * assigns are parameters.
 */
module Transacciones {
  import opened Wrappers
  import opened Modelos
  import opened Texto

  const DEPOSITO_MINIMO: real := 10000.0
  const DEPOSITO_MAXIMO: real := 5000000.0
  const RETIRO_MINIMO: real := 50000.0
  const RETIRO_MAXIMO_VERIFICADO: real := 5000000.0
  const RETIRO_MAXIMO_SIN_VERIFICAR: real := 1000000.0
  const CUENTA_MINIMA: int := 8

  /**
   * The validation of `realizar_deposito`, in its order: the amount bounds,
   * then the receipt an unverified user must attach. None when the request
   * is accepted.
   */
  function ValidarDeposito(monto: real, verificado: bool, conComprobante: bool): (e: Option<int>)
    ensures e.None? <==> DEPOSITO_MINIMO <= monto <= DEPOSITO_MAXIMO && (verificado || conComprobante)
    ensures e.Some? ==> e.value == 400
  {
    if monto < DEPOSITO_MINIMO then Some(400)
    else if monto > DEPOSITO_MAXIMO then Some(400)
    else if !verificado && !conComprobante then Some(400)
    else None
  }

  /** The withdrawal cap: 5000000 for a verified user, 1000000 otherwise. */
  function RetiroMaximo(verificado: bool): (m: real)
    ensures RETIRO_MINIMO < m <= RETIRO_MAXIMO_VERIFICADO
    ensures !verificado ==> m == RETIRO_MAXIMO_SIN_VERIFICAR
  {
    if verificado then RETIRO_MAXIMO_VERIFICADO else RETIRO_MAXIMO_SIN_VERIFICAR
  }

  /**
   * The validation of `realizar_retiro`: minimum, cap, available balance and
   * a destination account of at least eight characters once stripped.
   */
  function ValidarRetiro(monto: real, saldo: real, verificado: bool, cuenta: string): (e: Option<int>)
    ensures e.None? <==> RETIRO_MINIMO <= monto <= RetiroMaximo(verificado) && monto <= saldo
                         && |Recortar(cuenta)| >= CUENTA_MINIMA
    ensures e.Some? ==> e.value == 400
  {
    if monto < RETIRO_MINIMO then Some(400)
    else if monto > RetiroMaximo(verificado) then Some(400)
    else if monto > saldo then Some(400)
    else if |Recortar(cuenta)| < CUENTA_MINIMA then Some(400)
    else None
  }

  /**
   * An accepted withdrawal request is positive, within the balance and within
   * the cap; an unverified user can never ask for more than 1000000, and a
   * verified one is allowed everything an unverified one is.
   */
  lemma RetiroAceptado(monto: real, saldo: real, verificado: bool, cuenta: string)
    ensures ValidarRetiro(monto, saldo, verificado, cuenta).None? ==>
              0.0 < monto <= saldo && monto <= RETIRO_MAXIMO_VERIFICADO
              && (!verificado ==> monto <= RETIRO_MAXIMO_SIN_VERIFICAR)
    ensures ValidarRetiro(monto, saldo, false, cuenta).None? ==> ValidarRetiro(monto, saldo, true, cuenta).None?
  {
  }

  /** `x if x else d` on an optional float: None and 0.0 are both falsy. */
  function SiNoVacio(x: Option<real>, d: real): (r: real)
    ensures (x.None? || x.value == 0.0) ==> r == d
    ensures x.Some? && x.value != 0.0 ==> r == x.value
  {
    match x
    case None => d
    case Some(v) => if v != 0.0 then v else d
  }

  datatype Solicitud = Solicitud(referencia: string, nuevoSaldo: real, estado: EstadoTx, monto: real, metodo: string, fecha: int)

  /**
   * `realizar_deposito`. `archivo` is the path the receipt is saved under
   * when one is attached (its name is built from the user id, the clock and
   * the upload's file name), `codigo` the eight characters taken from the
   * generated uuid. The balance is untouched until an administrator approves.
   */
  method RealizarDeposito(db: Db, uid: int, monto: real, metodoPago: string, archivo: Option<string>,
                          codigo: string, ahora: int, nuevoId: int) returns (r: Result<Solicitud>)
    requires nuevoId !in db.depositos
    modifies db`depositos
    ensures uid !in db.usuarios ==> r == Err(404)
    ensures uid in db.usuarios && ValidarDeposito(monto, db.usuarios[uid].verificado, archivo.Some?).Some? ==> r == Err(400)
    ensures r.Ok? <==> uid in db.usuarios && ValidarDeposito(monto, db.usuarios[uid].verificado, archivo.Some?).None?
    ensures r.Err? ==> db.depositos == old(db.depositos)
    ensures r.Ok? ==>
      && db.depositos == old(db.depositos)[nuevoId := Deposito(
           nuevoId, uid, monto, metodoPago, "DEP" + codigo, Pendiente,
           if archivo.Some? then Some("recibos/" + archivo.value) else None, ahora, Some(ahora))]
      && r.value == Solicitud("DEP" + codigo, db.usuarios[uid].saldo, Pendiente, monto, metodoPago, ahora)
  {
    if uid !in db.usuarios {
      return Err(404);
    }
    var usuario := db.usuarios[uid];
    var error := ValidarDeposito(monto, usuario.verificado, archivo.Some?);
    if error.Some? {
      return Err(error.value);
    }
    var comprobanteUrl: Option<string> := None;
    if archivo.Some? {
      comprobanteUrl := Some("recibos/" + archivo.value);
    }
    var referencia := "DEP" + codigo;
    // The source stamps `fecha_procesamiento` at creation too.
    db.depositos := db.depositos[nuevoId := Deposito(
      nuevoId, uid, monto, metodoPago, referencia, Pendiente, comprobanteUrl, ahora, Some(ahora))];
    r := Ok(Solicitud(referencia, usuario.saldo, Pendiente, monto, metodoPago, ahora));
  }

  /**
   * `realizar_retiro`. The request is stored PENDIENTE with the stripped
   * account and the balance is not debited; a missing or zero commission is
   * stored as 0 and a missing or zero total as the amount.
   */
  method RealizarRetiro(db: Db, uid: int, monto: real, metodoRetiro: string, cuentaDestino: string,
                        comision: Option<real>, total: Option<real>, codigo: string, ahora: int, nuevoId: int)
    returns (r: Result<Solicitud>)
    requires nuevoId !in db.retiros
    modifies db`retiros
    ensures uid !in db.usuarios ==> r == Err(404)
    ensures uid in db.usuarios
            && ValidarRetiro(monto, db.usuarios[uid].saldo, db.usuarios[uid].verificado, cuentaDestino).Some?
            ==> r == Err(400)
    ensures r.Ok? <==> uid in db.usuarios
                       && ValidarRetiro(monto, db.usuarios[uid].saldo, db.usuarios[uid].verificado, cuentaDestino).None?
    ensures r.Err? ==> r.code in {400, 404} && db.retiros == old(db.retiros)
    ensures r.Ok? ==>
      && db.retiros == old(db.retiros)[nuevoId := Retiro(
           nuevoId, uid, monto, metodoRetiro, Recortar(cuentaDestino), "ahorros", None,
           SiNoVacio(comision, 0.0), SiNoVacio(total, monto), "RET" + codigo, Pendiente, ahora, None)]
      && r.value == Solicitud("RET" + codigo, db.usuarios[uid].saldo, Pendiente, monto, metodoRetiro, ahora)
  {
    if uid !in db.usuarios {
      return Err(404);
    }
    var usuario := db.usuarios[uid];
    var error := ValidarRetiro(monto, usuario.saldo, usuario.verificado, cuentaDestino);
    if error.Some? {
      return Err(error.value);
    }
    var referencia := "RET" + codigo;
    db.retiros := db.retiros[nuevoId := Retiro(
      nuevoId, uid, monto, metodoRetiro, Recortar(cuentaDestino), "ahorros", None,
      SiNoVacio(comision, 0.0), SiNoVacio(total, monto), referencia, Pendiente, ahora, None)];
    r := Ok(Solicitud(referencia, usuario.saldo, Pendiente, monto, metodoRetiro, ahora));
  }

  datatype Aprobacion = Aprobacion(id: int, usuarioId: int, monto: real, nuevoSaldo: real)

  /**
   * `aprobar_deposito`: only a PENDIENTE deposit of an existing user can be
   * approved; its amount is added to the owner's balance once, since the
   * deposit then leaves PENDIENTE.
   */
  method AprobarDeposito(db: Db, actor: string, depositoId: int, ahora: int) returns (r: Result<Aprobacion>)
    modifies db`usuarios, db`depositos
    ensures !EsAdmin(actor) ==> r == Err(403)
    ensures EsAdmin(actor) && depositoId !in old(db.depositos) ==> r == Err(404)
    ensures (EsAdmin(actor) && depositoId in old(db.depositos)
             && old(db.depositos[depositoId].estado) != Pendiente) ==> r == Err(400)
    ensures (EsAdmin(actor) && depositoId in old(db.depositos) && old(db.depositos[depositoId].estado) == Pendiente
             && old(db.depositos[depositoId].usuarioId) !in old(db.usuarios)) ==> r == Err(404)
    ensures r.Ok? <==> EsAdmin(actor) && depositoId in old(db.depositos) && old(db.depositos[depositoId].estado) == Pendiente
                       && old(db.depositos[depositoId].usuarioId) in old(db.usuarios)
    ensures r.Err? ==> db.usuarios == old(db.usuarios) && db.depositos == old(db.depositos)
    ensures r.Ok? ==>
      var d := old(db.depositos[depositoId]);
      && EsAdmin(actor) && depositoId in old(db.depositos) && d.estado == Pendiente && d.usuarioId in old(db.usuarios)
      && db.usuarios == ConSaldo(old(db.usuarios), d.usuarioId, d.monto)
      && db.depositos == old(db.depositos)[depositoId := d.(estado := Aprobado, fechaProcesamiento := Some(ahora))]
      && r.value == Aprobacion(depositoId, d.usuarioId, d.monto, db.usuarios[d.usuarioId].saldo)
  {
    if !EsAdmin(actor) {
      return Err(403);
    }
    if depositoId !in db.depositos {
      return Err(404);
    }
    var deposito := db.depositos[depositoId];
    if deposito.estado != Pendiente {
      return Err(400);
    }
    if deposito.usuarioId !in db.usuarios {
      return Err(404);
    }
    var usuario := db.usuarios[deposito.usuarioId];
    usuario := usuario.(saldo := usuario.saldo + deposito.monto);
    deposito := deposito.(estado := Aprobado, fechaProcesamiento := Some(ahora));
    db.usuarios := db.usuarios[deposito.usuarioId := usuario];
    db.depositos := db.depositos[depositoId := deposito];
    r := Ok(Aprobacion(depositoId, deposito.usuarioId, deposito.monto, usuario.saldo));
  }

  /** `rechazar_deposito`: a PENDIENTE deposit becomes RECHAZADO; no balance moves. */
  method RechazarDeposito(db: Db, actor: string, depositoId: int, ahora: int) returns (r: Result<int>)
    modifies db`depositos
    ensures !EsAdmin(actor) ==> r == Err(403)
    ensures EsAdmin(actor) && depositoId !in old(db.depositos) ==> r == Err(404)
    ensures (EsAdmin(actor) && depositoId in old(db.depositos)
             && old(db.depositos[depositoId].estado) != Pendiente) ==> r == Err(400)
    ensures r.Ok? <==> EsAdmin(actor) && depositoId in old(db.depositos) && old(db.depositos[depositoId].estado) == Pendiente
    ensures r.Err? ==> r.code in {400, 403, 404} && db.depositos == old(db.depositos)
    ensures r.Ok? ==>
      && db.depositos == old(db.depositos)[depositoId := old(db.depositos[depositoId]).(
           estado := Rechazado, fechaProcesamiento := Some(ahora))]
      && r.value == depositoId
  {
    if !EsAdmin(actor) {
      return Err(403);
    }
    if depositoId !in db.depositos {
      return Err(404);
    }
    var deposito := db.depositos[depositoId];
    if deposito.estado != Pendiente {
      return Err(400);
    }
    db.depositos := db.depositos[depositoId := deposito.(estado := Rechazado, fechaProcesamiento := Some(ahora))];
    r := Ok(depositoId);
  }

  /** The two outcomes of `aprobar_retiro` that commit. */
  datatype ResolucionRetiro =
    | RetiroAprobado(id: int, usuarioId: int, monto: real, nuevoSaldo: real)
    | RechazadoPorSaldo(retiroId: int)

  /**
   * `aprobar_retiro`: a PENDIENTE withdrawal of an existing user is paid out
   * when the balance still covers it, and otherwise closed as RECHAZADO with
   * the balance untouched, so approving never makes a balance negative.
   */
  method AprobarRetiro(db: Db, actor: string, retiroId: int, ahora: int) returns (r: Result<ResolucionRetiro>)
    modifies db`usuarios, db`retiros
    ensures !EsAdmin(actor) ==> r == Err(403)
    ensures EsAdmin(actor) && retiroId !in old(db.retiros) ==> r == Err(404)
    ensures (EsAdmin(actor) && retiroId in old(db.retiros)
             && old(db.retiros[retiroId].estado) != Pendiente) ==> r == Err(400)
    ensures (EsAdmin(actor) && retiroId in old(db.retiros) && old(db.retiros[retiroId].estado) == Pendiente
             && old(db.retiros[retiroId].usuarioId) !in old(db.usuarios)) ==> r == Err(404)
    ensures r.Ok? <==> EsAdmin(actor) && retiroId in old(db.retiros) && old(db.retiros[retiroId].estado) == Pendiente
                       && old(db.retiros[retiroId].usuarioId) in old(db.usuarios)
    ensures r.Err? ==> db.usuarios == old(db.usuarios) && db.retiros == old(db.retiros)
    ensures r.Ok? ==>
      var w := old(db.retiros[retiroId]);
      var saldo := old(db.usuarios[w.usuarioId].saldo);
      && (w.monto > saldo ==>
            && r.value == RechazadoPorSaldo(retiroId)
            && db.usuarios == old(db.usuarios)
            && db.retiros == old(db.retiros)[retiroId := w.(estado := Rechazado, fechaProcesamiento := Some(ahora))])
      && (w.monto <= saldo ==>
            && r.value == RetiroAprobado(retiroId, w.usuarioId, w.monto, saldo - w.monto)
            && db.usuarios == ConSaldo(old(db.usuarios), w.usuarioId, -w.monto)
            && db.retiros == old(db.retiros)[retiroId := w.(estado := Aprobado, fechaProcesamiento := Some(ahora))])
    ensures r.Ok? && old(db.retiros[retiroId].usuarioId) in old(db.usuarios)
            && old(db.usuarios[db.retiros[retiroId].usuarioId].saldo) >= 0.0 ==>
              db.usuarios[old(db.retiros[retiroId].usuarioId)].saldo >= 0.0
  {
    if !EsAdmin(actor) {
      return Err(403);
    }
    if retiroId !in db.retiros {
      return Err(404);
    }
    var retiro := db.retiros[retiroId];
    if retiro.estado != Pendiente {
      return Err(400);
    }
    if retiro.usuarioId !in db.usuarios {
      return Err(404);
    }
    var usuario := db.usuarios[retiro.usuarioId];
    if retiro.monto > usuario.saldo {
      // The `observaciones` attribute set here is not a column and is not stored.
      db.retiros := db.retiros[retiroId := retiro.(estado := Rechazado, fechaProcesamiento := Some(ahora))];
      return Ok(RechazadoPorSaldo(retiroId));
    }
    usuario := usuario.(saldo := usuario.saldo - retiro.monto);
    retiro := retiro.(estado := Aprobado, fechaProcesamiento := Some(ahora));
    db.usuarios := db.usuarios[retiro.usuarioId := usuario];
    db.retiros := db.retiros[retiroId := retiro];
    r := Ok(RetiroAprobado(retiroId, retiro.usuarioId, retiro.monto, usuario.saldo));
  }

  /** `rechazar_retiro`: a PENDIENTE withdrawal becomes RECHAZADO; no balance moves. */
  method RechazarRetiro(db: Db, actor: string, retiroId: int, ahora: int) returns (r: Result<int>)
    modifies db`retiros
    ensures !EsAdmin(actor) ==> r == Err(403)
    ensures EsAdmin(actor) && retiroId !in old(db.retiros) ==> r == Err(404)
    ensures (EsAdmin(actor) && retiroId in old(db.retiros)
             && old(db.retiros[retiroId].estado) != Pendiente) ==> r == Err(400)
    ensures r.Ok? <==> EsAdmin(actor) && retiroId in old(db.retiros) && old(db.retiros[retiroId].estado) == Pendiente
    ensures r.Err? ==> r.code in {400, 403, 404} && db.retiros == old(db.retiros)
    ensures r.Ok? ==>
      && db.retiros == old(db.retiros)[retiroId := old(db.retiros[retiroId]).(
           estado := Rechazado, fechaProcesamiento := Some(ahora))]
      && r.value == retiroId
  {
    if !EsAdmin(actor) {
      return Err(403);
    }
    if retiroId !in db.retiros {
      return Err(404);
    }
    var retiro := db.retiros[retiroId];
    if retiro.estado != Pendiente {
      return Err(400);
    }
    db.retiros := db.retiros[retiroId := retiro.(estado := Rechazado, fechaProcesamiento := Some(ahora))];
    r := Ok(retiroId);
  }

  /**
   * `obtener_depositos_pendientes`: for the administrator only, the ids of
   * the deposits still PENDIENTE (the listing's order by date is not modelled).
   */
  method DepositosPendientes(db: Db, actor: string) returns (r: Result<set<int>>)
    ensures r.Err? <==> !EsAdmin(actor)
    ensures r.Err? ==> r.code == 403
    ensures r.Ok? ==> forall k :: k in r.value <==> k in db.depositos && db.depositos[k].estado == Pendiente
  {
    if !EsAdmin(actor) {
      return Err(403);
    }
    r := Ok(set k | k in db.depositos && db.depositos[k].estado == Pendiente);
  }

  /** `obtener_retiros_pendientes`: the same for withdrawals. */
  method RetirosPendientes(db: Db, actor: string) returns (r: Result<set<int>>)
    ensures r.Err? <==> !EsAdmin(actor)
    ensures r.Err? ==> r.code == 403
    ensures r.Ok? ==> forall k :: k in r.value <==> k in db.retiros && db.retiros[k].estado == Pendiente
  {
    if !EsAdmin(actor) {
      return Err(403);
    }
    r := Ok(set k | k in db.retiros && db.retiros[k].estado == Pendiente);
  }

  /** `obtener_mis_depositos` / `obtener_mis_retiros`: the caller's own records only. */
  method MisDepositos(db: Db, uid: int) returns (ids: set<int>)
    ensures forall k :: k in ids <==> k in db.depositos && db.depositos[k].usuarioId == uid
  {
    ids := set k | k in db.depositos && db.depositos[k].usuarioId == uid;
  }

  method MisRetiros(db: Db, uid: int) returns (ids: set<int>)
    ensures forall k :: k in ids <==> k in db.retiros && db.retiros[k].usuarioId == uid
  {
    ids := set k | k in db.retiros && db.retiros[k].usuarioId == uid;
  }

  /**
   * `obtener_detalle_deposito`: an unknown id is 404, and a deposit is shown
   * only to its owner or to the administrator (403 otherwise).
   */
  method DetalleDeposito(db: Db, uid: int, actor: string, depositoId: int) returns (r: Result<Deposito>)
    ensures depositoId !in db.depositos ==> r == Err(404)
    ensures r.Ok? <==> depositoId in db.depositos && (db.depositos[depositoId].usuarioId == uid || EsAdmin(actor))
    ensures depositoId in db.depositos && !r.Ok? ==> r == Err(403)
    ensures r.Ok? ==> r.value == db.depositos[depositoId]
  {
    if depositoId !in db.depositos {
      return Err(404);
    }
    var deposito := db.depositos[depositoId];
    if deposito.usuarioId != uid && !EsAdmin(actor) {
      return Err(403);
    }
    r := Ok(deposito);
  }
}
