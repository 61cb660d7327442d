/**
 * Sign-up, `registrar_usuario` of app/services/auth.py. Email and username
 * must be new; a referred user starts with 1000 and the referrer, when it
 * exists, gains 100. The random id is a parameter.
 */
module Auth {
  import opened Wrappers
  import opened Modelos

  /** The range of `random.randint` for a new id. */
  const ID_MINIMO: int := 10000000
  const ID_MAXIMO: int := 99999999
  const SALDO_REFERIDO: real := 1000.0
  const BONO_REFERIDOR: real := 100.0

  predicate EmailEnUso(us: map<int, Usuario>, email: string)
  {
    exists k :: k in us && us[k].email == email
  }

  predicate UsernameEnUso(us: map<int, Usuario>, username: string)
  {
    exists k :: k in us && us[k].username == username
  }

  /** Every row is stored under its id, and emails and usernames each name at most one row. */
  predicate Unicos(us: map<int, Usuario>)
  {
    && (forall k :: k in us ==> us[k].id == k)
    && (forall a, b :: a in us && b in us && us[a].email == us[b].email ==> a == b)
    && (forall a, b :: a in us && b in us && us[a].username == us[b].username ==> a == b)
  }

  /** `ref_id`: the referrer's id, 0 when none was given. */
  function Referente(referidoPor: Option<int>): int
  {
    match referidoPor
    case None => 0
    case Some(x) => x
  }

  /** The inserted row: referred users start with 1000, the others with 0. */
  function NuevoUsuario(id: int, email: string, username: string, ref: int): Usuario
  {
    Usuario(id, email, username, Some(ref), if ref != 0 then SALDO_REFERIDO else 0.0, false, false, None)
  }

  /** The users after a sign-up: the new row, then the referrer's bonus when it exists. */
  function Alta(us: map<int, Usuario>, id: int, email: string, username: string, ref: int): map<int, Usuario>
  {
    var conNuevo := us[id := NuevoUsuario(id, email, username, ref)];
    if ref != 0 && ref in conNuevo then ConSaldo(conNuevo, ref, BONO_REFERIDOR) else conNuevo
  }

  /**
   * A sign-up adds exactly the new id; the new user starts at 1000 when
   * referred and at 0 otherwise, and the only other row that changes is the
   * referrer's, by exactly 100.
   */
  lemma AltaCambios(us: map<int, Usuario>, id: int, email: string, username: string, ref: int)
    requires id !in us
    ensures Alta(us, id, email, username, ref).Keys == us.Keys + {id}
    ensures ref != id ==> Alta(us, id, email, username, ref)[id] == NuevoUsuario(id, email, username, ref)
    ensures ref == 0 ==> Alta(us, id, email, username, ref)[id].saldo == 0.0
    ensures ref != 0 && ref != id ==> Alta(us, id, email, username, ref)[id].saldo == SALDO_REFERIDO
    ensures forall k :: k in us && k != ref ==> Alta(us, id, email, username, ref)[k] == us[k]
    ensures ref != 0 && ref in us ==>
      Alta(us, id, email, username, ref)[ref] == us[ref].(saldo := us[ref].saldo + BONO_REFERIDOR)
  {
  }

  /** Signing up with an unused email, username and id keeps every identifier unique. */
  lemma AltaPreservaUnicos(us: map<int, Usuario>, id: int, email: string, username: string, ref: int)
    requires Unicos(us) && id !in us && !EmailEnUso(us, email) && !UsernameEnUso(us, username)
    ensures Unicos(Alta(us, id, email, username, ref))
  {
    var conNuevo := us[id := NuevoUsuario(id, email, username, ref)];
    assert Unicos(conNuevo);
  }

  /**
   * `registrar_usuario`: 400 when the email or the username is taken (in
   * that order), 500 when the drawn id already exists (the insert violates
   * the primary key); otherwise the new user is inserted and the referrer,
   * if one was named and exists, gains 100. The returned row is the stored
   * one (it has also gained 100 when it names itself as referrer).
   */
  method RegistrarUsuario(db: Db, email: string, username: string, referidoPor: Option<int>, nuevoId: int)
    returns (r: Result<Usuario>)
    requires ID_MINIMO <= nuevoId <= ID_MAXIMO
    modifies db`usuarios
    ensures EmailEnUso(old(db.usuarios), email) ==> r == Err(400)
    ensures UsernameEnUso(old(db.usuarios), username) ==> r == Err(400)
    ensures (!EmailEnUso(old(db.usuarios), email) && !UsernameEnUso(old(db.usuarios), username)
             && nuevoId in old(db.usuarios)) ==> r == Err(500)
    ensures r.Ok? <==> !EmailEnUso(old(db.usuarios), email) && !UsernameEnUso(old(db.usuarios), username)
                       && nuevoId !in old(db.usuarios)
    ensures r.Err? ==> db.usuarios == old(db.usuarios)
    ensures r.Ok? ==>
      && db.usuarios == Alta(old(db.usuarios), nuevoId, email, username, Referente(referidoPor))
      && r.value == db.usuarios[nuevoId]
    ensures r.Ok? && Unicos(old(db.usuarios)) ==> Unicos(db.usuarios)
  {
    if exists k :: k in db.usuarios && db.usuarios[k].email == email {
      return Err(400);
    }
    if exists k :: k in db.usuarios && db.usuarios[k].username == username {
      return Err(400);
    }
    var refId := if referidoPor.None? then 0 else referidoPor.value;
    if nuevoId in db.usuarios {
      return Err(500);
    }
    var nuevo := Usuario(nuevoId, email, username, Some(refId), if refId != 0 then 1000.0 else 0.0, false, false, None);
    db.usuarios := db.usuarios[nuevoId := nuevo];
    if refId != 0 && refId in db.usuarios {
      var referidor := db.usuarios[refId];
      db.usuarios := db.usuarios[refId := referidor.(saldo := referidor.saldo + 100.0)];
    }
    if Unicos(old(db.usuarios)) {
      AltaPreservaUnicos(old(db.usuarios), nuevoId, email, username, refId);
    }
    r := Ok(db.usuarios[nuevoId]);
  }
}
