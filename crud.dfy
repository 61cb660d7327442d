/**
 * The record helpers of app/crud.py that change or select rows: verifying a
 * user (with the referrer's bonus), setting the state of a verification
 * request and listing the pending ones. The JWT and bcrypt helpers are not
 * part of this model.
 */
module Crud {
  import opened Wrappers
  import opened Modelos

  const BONO_VERIFICACION: real := 10000.0
  const BONO_REFERIDOR: real := 2000.0
  const PENDIENTE: string := "pendiente"

  /** `if usuario.referido_por:` holds for a referrer id other than None and 0. */
  predicate TieneReferidor(u: Usuario)
  {
    u.referidoPor.Some? && u.referidoPor.value != 0
  }

  /**
   * What user `k`'s balance gains when `uid` is verified: 10000 for the user
   * and 2000 for its existing referrer (both when the user refers itself).
   */
  function GananciaVerificacion(us: map<int, Usuario>, uid: int, k: int): real
    requires uid in us
  {
    (if k == uid then BONO_VERIFICACION else 0.0)
    + (if TieneReferidor(us[uid]) && us[uid].referidoPor.value in us && k == us[uid].referidoPor.value
       then BONO_REFERIDOR else 0.0)
  }

  /**
   * `verificar_usuario`: 404 for an unknown user, 400 for one already
   * verified; otherwise the user becomes verified, every balance grows by
   * exactly `GananciaVerificacion` and nothing else changes.
   */
  method VerificarUsuario(db: Db, uid: int) returns (r: Result<Usuario>)
    modifies db`usuarios
    ensures uid !in old(db.usuarios) ==> r == Err(404)
    ensures uid in old(db.usuarios) && old(db.usuarios[uid].verificado) ==> r == Err(400)
    ensures r.Ok? <==> uid in old(db.usuarios) && !old(db.usuarios[uid].verificado)
    ensures r.Err? ==> db.usuarios == old(db.usuarios)
    ensures r.Ok? ==>
      && db.usuarios.Keys == old(db.usuarios).Keys
      && (forall k :: k in db.usuarios ==>
            db.usuarios[k].saldo == old(db.usuarios[k].saldo) + GananciaVerificacion(old(db.usuarios), uid, k))
      && db.usuarios[uid] == old(db.usuarios[uid]).(verificado := true, saldo := db.usuarios[uid].saldo)
      && (forall k :: k in db.usuarios && k != uid ==> db.usuarios[k] == old(db.usuarios[k]).(saldo := db.usuarios[k].saldo))
      && r.value == db.usuarios[uid]
  {
    if uid !in db.usuarios {
      return Err(404);
    }
    var usuario := db.usuarios[uid];
    if usuario.verificado {
      return Err(400);
    }
    var usuario2: Option<int> := None;
    if usuario.referidoPor.Some? && usuario.referidoPor.value != 0 && usuario.referidoPor.value in db.usuarios {
      usuario2 := usuario.referidoPor;
    }
    db.usuarios := db.usuarios[uid := usuario.(verificado := true, saldo := usuario.saldo + 10000.0)];
    if usuario2.Some? {
      var referidor := db.usuarios[usuario2.value];
      db.usuarios := db.usuarios[usuario2.value := referidor.(saldo := referidor.saldo + 2000.0)];
    }
    r := Ok(db.usuarios[uid]);
  }

  /** Verification moves money only towards the user and its referrer, 10000 and 2000 in all. */
  lemma GananciaVerificacionTotal(us: map<int, Usuario>, uid: int, k: int)
    requires uid in us
    ensures 0.0 <= GananciaVerificacion(us, uid, k) <= BONO_VERIFICACION + BONO_REFERIDOR
    ensures GananciaVerificacion(us, uid, k) > 0.0 <==>
      k == uid || (TieneReferidor(us[uid]) && us[uid].referidoPor.value in us && k == us[uid].referidoPor.value)
  {
  }

  /** `actualizar_estado_verificacion`: 404 for an unknown id, otherwise `estado` is set to exactly the value given. */
  method ActualizarEstadoVerificacion(db: Db, verificacionId: int, nuevoEstado: string) returns (r: Result<Verificacion>)
    modifies db`verificaciones
    ensures r.Err? <==> verificacionId !in old(db.verificaciones)
    ensures r.Err? ==> r.code == 404 && db.verificaciones == old(db.verificaciones)
    ensures r.Ok? ==>
      && db.verificaciones == old(db.verificaciones)[verificacionId := old(db.verificaciones[verificacionId]).(estado := nuevoEstado)]
      && r.value == db.verificaciones[verificacionId]
  {
    if verificacionId !in db.verificaciones {
      return Err(404);
    }
    var verificacion := db.verificaciones[verificacionId].(estado := nuevoEstado);
    db.verificaciones := db.verificaciones[verificacionId := verificacion];
    r := Ok(verificacion);
  }

  /** `listar_verificaciones_pendientes`: exactly the requests whose `estado` is "pendiente". */
  method ListarVerificacionesPendientes(db: Db) returns (ids: set<int>)
    ensures forall k :: k in ids <==> k in db.verificaciones && db.verificaciones[k].estado == PENDIENTE
  {
    ids := set k | k in db.verificaciones && db.verificaciones[k].estado == PENDIENTE;
  }
}
