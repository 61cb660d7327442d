/**
 * The administration panel of app/services/admin.py: manual verification of
 * a user (with the referral bonus chain), rejection of a verification
 * request, the listings, and the deletion of a user.
 *
 * Every endpoint first runs `verificar_admin`: a caller other than "admin"
 * gets 403 and nothing changes. The verification e-mail sent in the
 * background is not part of this model.
 */
module Admin {
  import opened Wrappers
  import opened Modelos
  import Crud

  const BONO_VERIFICACION: real := 10000.0
  const BONO_REFERIDOR: real := 2000.0
  const BONO_SUBREFERIDOR: real := 100.0
  const RECHAZADA: string := "rechazada"

  /** `x != 0` on the nullable `referido_por` column (None is not 0). */
  predicate DistintoDeCero(x: Option<int>)
  {
    x != Some(0)
  }

  /**
   * `admin_verificar_usuario` dereferences the referrer without checking
   * that it was found: a user whose `referido_por` is neither 0 nor an
   * existing id makes the handler fail with AttributeError (500).
   */
  predicate ReferidorPerdido(us: map<int, Usuario>, uid: int)
    requires uid in us
  {
    DistintoDeCero(us[uid].referidoPor) && (us[uid].referidoPor.None? || us[uid].referidoPor.value !in us)
  }

  /** The referrer that gains 2000, if any. */
  function Referidor(us: map<int, Usuario>, uid: int): (r: Option<int>)
    requires uid in us
    ensures r.Some? ==> r.value in us && us[uid].referidoPor == Some(r.value) && r.value != 0
  {
    if DistintoDeCero(us[uid].referidoPor) && us[uid].referidoPor.Some? && us[uid].referidoPor.value in us
    then us[uid].referidoPor else None
  }

  /** The referrer's own referrer, which gains 100, if any. */
  function SubReferidor(us: map<int, Usuario>, uid: int): (s: Option<int>)
    requires uid in us
    ensures s.Some? ==> Referidor(us, uid).Some? && s.value in us && s.value != 0
                        && us[Referidor(us, uid).value].referidoPor == Some(s.value)
  {
    match Referidor(us, uid)
    case None => None
    case Some(p) =>
      if DistintoDeCero(us[p].referidoPor) && us[p].referidoPor.Some? && us[p].referidoPor.value in us
      then us[p].referidoPor else None
  }

  /**
   * What user `k`'s balance gains when `uid` is verified: 10000 for the
   * user, 2000 for its referrer and 100 for the referrer's referrer, added
   * up when these are the same row.
   */
  function Ganancia(us: map<int, Usuario>, uid: int, k: int): real
    requires uid in us
  {
    (if k == uid then BONO_VERIFICACION else 0.0) + GananciaReferidos(us, uid, k)
  }

  /** The part of `Ganancia` paid to the referral chain. */
  function GananciaReferidos(us: map<int, Usuario>, uid: int, k: int): real
    requires uid in us
  {
    (if Referidor(us, uid) == Some(k) then BONO_REFERIDOR else 0.0)
    + (if SubReferidor(us, uid) == Some(k) then BONO_SUBREFERIDOR else 0.0)
  }

  /** The referral chain's bonuses, applied one after the other as the handler does. */
  method BonificarReferidos(us: map<int, Usuario>, uid: int) returns (us2: map<int, Usuario>)
    requires uid in us && !ReferidorPerdido(us, uid)
    ensures us2.Keys == us.Keys
    ensures forall k :: k in us2 ==> us2[k] == us[k].(saldo := us[k].saldo + GananciaReferidos(us, uid, k))
  {
    us2 := us;
    var usuario := us[uid];
    if usuario.referidoPor != Some(0) {
      var p := usuario.referidoPor.value;
      us2 := us2[p := us2[p].(saldo := us2[p].saldo + 2000.0)];
      var referidor := us2[p];
      if referidor.referidoPor != Some(0) {
        if referidor.referidoPor.Some? && referidor.referidoPor.value in us2 {
          var q := referidor.referidoPor.value;
          us2 := us2[q := us2[q].(saldo := us2[q].saldo + 100.0)];
        }
      }
    }
  }

  /** At most three rows gain, 12100 in all, and the verified user always gains. */
  lemma GananciaAcotada(us: map<int, Usuario>, uid: int, k: int)
    requires uid in us
    ensures 0.0 <= Ganancia(us, uid, k) <= BONO_VERIFICACION + BONO_REFERIDOR + BONO_SUBREFERIDOR
    ensures Ganancia(us, uid, uid) >= BONO_VERIFICACION
    ensures Ganancia(us, uid, k) > 0.0 <==> k == uid || Referidor(us, uid) == Some(k) || SubReferidor(us, uid) == Some(k)
  {
  }

  datatype Verificado = Verificado(username: string, email: string, saldo: real)

  /**
   * `admin_verificar_usuario`: 403, then 404 for an unknown user, 400 for
   * one already verified or without e-mail, 500 when the named referrer is
   * missing; otherwise the user becomes verified and no longer pending and
   * every balance grows by exactly `Ganancia`. Nothing else changes.
   */
  method AdminVerificarUsuario(db: Db, actor: string, uid: int) returns (r: Result<Verificado>)
    modifies db`usuarios
    ensures !EsAdmin(actor) ==> r == Err(403)
    ensures EsAdmin(actor) && uid !in old(db.usuarios) ==> r == Err(404)
    ensures EsAdmin(actor) && uid in old(db.usuarios) && (old(db.usuarios[uid].verificado) || old(db.usuarios[uid].email) == [])
            ==> r == Err(400)
    ensures EsAdmin(actor) && uid in old(db.usuarios) && !old(db.usuarios[uid].verificado) && old(db.usuarios[uid].email) != []
            && ReferidorPerdido(old(db.usuarios), uid)
            ==> r == Err(500)
    ensures r.Ok? <==> EsAdmin(actor) && uid in old(db.usuarios) && !old(db.usuarios[uid].verificado)
                       && old(db.usuarios[uid].email) != [] && !ReferidorPerdido(old(db.usuarios), uid)
    ensures r.Err? ==> db.usuarios == old(db.usuarios)
    ensures r.Ok? ==>
      && db.usuarios.Keys == old(db.usuarios).Keys
      && (forall k :: k in db.usuarios ==>
            db.usuarios[k].saldo == old(db.usuarios[k].saldo) + Ganancia(old(db.usuarios), uid, k))
      && db.usuarios[uid] == old(db.usuarios[uid]).(verificado := true, verificacionPendiente := false,
                                                     saldo := db.usuarios[uid].saldo)
      && (forall k :: k in db.usuarios && k != uid ==> db.usuarios[k] == old(db.usuarios[k]).(saldo := db.usuarios[k].saldo))
      && r.value == Verificado(db.usuarios[uid].username, db.usuarios[uid].email, db.usuarios[uid].saldo)
  {
    if !EsAdmin(actor) {
      return Err(403);
    }
    if uid !in db.usuarios {
      return Err(404);
    }
    var usuario := db.usuarios[uid];
    if usuario.verificado {
      return Err(400);
    }
    if usuario.email == [] {
      return Err(400);
    }
    if usuario.referidoPor != Some(0) && (usuario.referidoPor.None? || usuario.referidoPor.value !in db.usuarios) {
      return Err(500);
    }
    var us := BonificarReferidos(db.usuarios, uid);
    usuario := us[uid];
    us := us[uid := usuario.(verificado := true, verificacionPendiente := false, saldo := usuario.saldo + 10000.0)];
    db.usuarios := us;
    r := Ok(Verificado(us[uid].username, us[uid].email, us[uid].saldo));
  }

  predicate Pendiente(v: Verificacion, uid: int)
  {
    v.usuarioId == uid && v.estado == Crud.PENDIENTE
  }

  /** The response of a rejection: the request rejected, the user and the comment. */
  datatype Rechazo = Rechazo(verificacionId: int, usuarioId: int, comentario: string)

  /**
   * `admin_rechazar_verificacion`: 403; 500 for an unknown user (its flag
   * is set on None); 404 when it has no pending request; otherwise one of
   * its pending requests (the query's first row) becomes "rechazada" and the
   * user is no longer pending. The comment defaults to "Sin comentarios".
   */
  method AdminRechazarVerificacion(db: Db, actor: string, uid: int, razon: Option<string>) returns (r: Result<Rechazo>)
    modifies db`usuarios, db`verificaciones
    ensures !EsAdmin(actor) ==> r == Err(403)
    ensures EsAdmin(actor) && uid !in old(db.usuarios) ==> r == Err(500)
    ensures (EsAdmin(actor) && uid in old(db.usuarios)
             && forall k :: k in old(db.verificaciones) ==> !Pendiente(old(db.verificaciones[k]), uid)) ==> r == Err(404)
    ensures r.Ok? <==> EsAdmin(actor) && uid in old(db.usuarios)
                       && exists k :: k in old(db.verificaciones) && Pendiente(old(db.verificaciones[k]), uid)
    ensures r.Err? ==> db.usuarios == old(db.usuarios) && db.verificaciones == old(db.verificaciones)
    ensures r.Ok? ==>
      var k := r.value.verificacionId;
      && k in old(db.verificaciones) && Pendiente(old(db.verificaciones[k]), uid)
      && db.verificaciones == old(db.verificaciones)[k := old(db.verificaciones[k]).(estado := RECHAZADA)]
      && db.usuarios == old(db.usuarios)[uid := old(db.usuarios[uid]).(verificacionPendiente := false)]
      && r.value.usuarioId == uid
      && r.value.comentario == (if razon.Some? then razon.value else "Sin comentarios")
  {
    if !EsAdmin(actor) {
      return Err(403);
    }
    if uid !in db.usuarios {
      return Err(500);
    }
    var usuario := db.usuarios[uid].(verificacionPendiente := false);
    if !exists k :: k in db.verificaciones && Pendiente(db.verificaciones[k], uid) {
      return Err(404);
    }
    var k :| k in db.verificaciones && Pendiente(db.verificaciones[k], uid);
    db.verificaciones := db.verificaciones[k := db.verificaciones[k].(estado := RECHAZADA)];
    db.usuarios := db.usuarios[uid := usuario];
    r := Ok(Rechazo(k, uid, if razon.Some? then razon.value else "Sin comentarios"));
  }

  /** `admin_listar_verificaciones`: for the administrator, the pending requests. */
  method AdminListarVerificaciones(db: Db, actor: string) returns (r: Result<set<int>>)
    ensures r.Err? <==> !EsAdmin(actor)
    ensures r.Err? ==> r.code == 403
    ensures r.Ok? ==> forall k :: k in r.value <==> k in db.verificaciones && db.verificaciones[k].estado == Crud.PENDIENTE
  {
    if !EsAdmin(actor) {
      return Err(403);
    }
    var ids := Crud.ListarVerificacionesPendientes(db);
    r := Ok(ids);
  }

  /** `admin_listar_usuarios`: for the administrator, every user. */
  method AdminListarUsuarios(db: Db, actor: string) returns (r: Result<set<int>>)
    ensures r.Err? <==> !EsAdmin(actor)
    ensures r.Err? ==> r.code == 403
    ensures r.Ok? ==> r.value == db.usuarios.Keys
  {
    if !EsAdmin(actor) {
      return Err(403);
    }
    r := Ok(db.usuarios.Keys);
  }

  /**
   * `admin_eliminar_usuario` as written: its first line reads the local
   * `usuario` it is about to assign, so every call by the administrator
   * raises UnboundLocalError (500) and no user can ever be deleted.
   */
  method AdminEliminarUsuario(db: Db, actor: string, uid: int) returns (r: Result<string>)
    ensures !EsAdmin(actor) ==> r == Err(403)
    ensures EsAdmin(actor) ==> r == Err(500)
  {
    if !EsAdmin(actor) {
      return Err(403);
    }
    r := Err(500);
  }

  /** A table without the rows that belong to user `uid`, `dueno` reading a row's user. */
  function SinFilasDe<T>(t: map<int, T>, dueno: T -> int, uid: int): (s: map<int, T>)
    ensures forall k :: k in s <==> k in t && dueno(t[k]) != uid
    ensures forall k :: k in s ==> s[k] == t[k]
  {
    map k | k in t && dueno(t[k]) != uid :: t[k]
  }

  /**
   * The intended `admin_eliminar_usuario`: 404 for an unknown user, 400 for
   * the user named "admin"; otherwise the user is deleted together with its
   * deposits, withdrawals and verification requests (the cascades of its
   * relationships), so no remaining row of those tables points to it.
   */
  method EliminarUsuario(db: Db, actor: string, uid: int) returns (r: Result<string>)
    modifies db`usuarios, db`depositos, db`retiros, db`verificaciones
    ensures !EsAdmin(actor) ==> r == Err(403)
    ensures EsAdmin(actor) && uid !in old(db.usuarios) ==> r == Err(404)
    ensures EsAdmin(actor) && uid in old(db.usuarios) && EsAdmin(old(db.usuarios[uid].username)) ==> r == Err(400)
    ensures r.Ok? <==> EsAdmin(actor) && uid in old(db.usuarios) && !EsAdmin(old(db.usuarios[uid].username))
    ensures r.Err? ==> && db.usuarios == old(db.usuarios) && db.depositos == old(db.depositos)
                       && db.retiros == old(db.retiros) && db.verificaciones == old(db.verificaciones)
    ensures r.Ok? ==>
      && r.value == old(db.usuarios[uid].username)
      && db.usuarios == old(db.usuarios) - {uid}
      && db.depositos == SinFilasDe(old(db.depositos), (d: Deposito) => d.usuarioId, uid)
      && db.retiros == SinFilasDe(old(db.retiros), (w: Retiro) => w.usuarioId, uid)
      && db.verificaciones == SinFilasDe(old(db.verificaciones), (v: Verificacion) => v.usuarioId, uid)
  {
    if !EsAdmin(actor) {
      return Err(403);
    }
    if uid !in db.usuarios {
      return Err(404);
    }
    var usuario := db.usuarios[uid];
    if usuario.username == "admin" {
      return Err(400);
    }
    db.depositos := map k | k in db.depositos && db.depositos[k].usuarioId != uid :: db.depositos[k];
    db.retiros := map k | k in db.retiros && db.retiros[k].usuarioId != uid :: db.retiros[k];
    db.verificaciones := map k | k in db.verificaciones && db.verificaciones[k].usuarioId != uid :: db.verificaciones[k];
    db.usuarios := db.usuarios - {uid};
    r := Ok(usuario.username);
  }
}
