/** The prize wheel of app/services/juegos/ruleta.py. */
module Ruleta {
  import opened Wrappers
  import opened Modelos

  const COSTO_RULETA: int := 500

  datatype Opcion = Opcion(nombre: string, multiplicador: int, mensaje: string)

  const MEGA: Opcion := Opcion("Mega Premio", 10, "Mega Premio")
  const GRAN: Opcion := Opcion("Gran Premio", 5, "Gran premio")
  const DOBLE: Opcion := Opcion("Premio Doble", 2, "Ganaste el doble")
  const FREE: Opcion := Opcion("Free", 0, "Giro gratis")
  const NADA: Opcion := Opcion("Sin Premio", 0, "Nada...")

  /** The wheel: one slot per entry, each drawn with equal probability. */
  const OPCIONES_RULETA: seq<Opcion> := [
    MEGA, GRAN, GRAN, DOBLE, DOBLE, DOBLE, DOBLE, FREE,
    NADA, NADA, NADA, NADA, NADA, NADA, NADA, NADA,
    NADA, NADA, NADA, NADA, NADA, NADA, NADA, NADA,
    NADA, NADA, NADA, NADA, NADA, NADA, NADA, NADA,
    NADA, NADA, NADA, NADA, NADA, NADA, NADA
  ]

  /** The slot at each position of the wheel. */
  lemma Casilla(k: int)
    requires 0 <= k < 39
    ensures |OPCIONES_RULETA| == 39
    ensures OPCIONES_RULETA[k] == if k == 0 then MEGA else if k <= 2 then GRAN else if k <= 6 then DOBLE
                                  else if k == 7 then FREE else NADA
  {
    if k < 8 {
      assert OPCIONES_RULETA[..8] == [MEGA, GRAN, GRAN, DOBLE, DOBLE, DOBLE, DOBLE, FREE];
      assert OPCIONES_RULETA[k] == OPCIONES_RULETA[..8][k];
    } else {
      assert forall j :: 8 <= j < 39 ==> OPCIONES_RULETA[j] == NADA;
    }
  }

  datatype Giro = Giro(resultado: string, mensaje: string, ganancia: int, costoJuego: int, nuevoSaldo: real)

  /** Net balance change of landing on slot `o`: the cost is waived on "Free". */
  function Neto(o: Opcion): int
  {
    (if o.nombre != "Free" then -COSTO_RULETA else 0) + (if o.multiplicador > 0 then COSTO_RULETA * o.multiplicador else 0)
  }

  /** Number of slots among the first `n` named `nombre`. */
  function Cuenta(n: nat, nombre: string): nat
    requires n <= |OPCIONES_RULETA|
  {
    if n == 0 then 0 else Cuenta(n - 1, nombre) + (if OPCIONES_RULETA[n - 1].nombre == nombre then 1 else 0)
  }

  /** Sum of `Neto` over the first `n` slots. */
  function NetoHasta(n: nat): int
    requires n <= |OPCIONES_RULETA|
  {
    if n == 0 then 0 else NetoHasta(n - 1) + Neto(OPCIONES_RULETA[n - 1])
  }

  /** The wheel has 39 slots: 1 Mega, 2 Gran, 4 Doble, 1 Free and 31 Sin Premio. */
  lemma {:induction false} Composicion()
    ensures |OPCIONES_RULETA| == 39
    ensures Cuenta(39, "Mega Premio") == 1 && Cuenta(39, "Gran Premio") == 2
    ensures Cuenta(39, "Premio Doble") == 4 && Cuenta(39, "Free") == 1 && Cuenta(39, "Sin Premio") == 31
  {
    var i := 0;
    while i < 39
      invariant 0 <= i <= 39
      invariant Cuenta(i, "Mega Premio") == if i == 0 then 0 else 1
      invariant Cuenta(i, "Gran Premio") == if i <= 1 then 0 else if i == 2 then 1 else 2
      invariant Cuenta(i, "Premio Doble") == if i <= 3 then 0 else if i <= 7 then i - 3 else 4
      invariant Cuenta(i, "Free") == if i <= 7 then 0 else 1
      invariant Cuenta(i, "Sin Premio") == if i <= 8 then 0 else i - 8
    {
      Casilla(i);
      i := i + 1;
    }
  }

  /**
   * Every multiplier is 10, 5, 2 or 0, and the slots that cost nothing pay
   * nothing. Over one turn of the wheel the player loses 5000 in all.
   */
  lemma {:induction false} Multiplicadores()
    ensures forall k :: 0 <= k < |OPCIONES_RULETA| ==> OPCIONES_RULETA[k].multiplicador in {10, 5, 2, 0}
    ensures forall k :: 0 <= k < |OPCIONES_RULETA| && OPCIONES_RULETA[k].nombre == "Free" ==> Neto(OPCIONES_RULETA[k]) == 0
    ensures NetoHasta(|OPCIONES_RULETA|) == -5000
  {
    forall k | 0 <= k < |OPCIONES_RULETA|
      ensures OPCIONES_RULETA[k].multiplicador in {10, 5, 2, 0}
      ensures OPCIONES_RULETA[k].nombre == "Free" ==> Neto(OPCIONES_RULETA[k]) == 0
    {
      Casilla(k);
    }
    var i := 0;
    while i < 39
      invariant 0 <= i <= 39
      invariant NetoHasta(i) == if i == 0 then 0 else if i <= 3 then 4500 + 2000 * (i - 1)
                                else if i <= 7 then 8500 + 500 * (i - 3) else 10500 - 500 * (i - 8)
    {
      Casilla(i);
      i := i + 1;
    }
  }

  /**
   * `jugar_ruleta`: a balance of at least 500 is required; the slot (drawn by
   * `random.choice`) moves the balance by `Neto`.
   */
  method JugarRuleta(db: Db, uid: int, giro: nat) returns (r: Result<Giro>)
    requires giro < |OPCIONES_RULETA|
    modifies db`usuarios
    ensures uid !in old(db.usuarios) ==> r == Err(404)
    ensures uid in old(db.usuarios) && old(db.usuarios[uid].saldo) < COSTO_RULETA as real ==> r == Err(400)
    ensures r.Ok? <==> uid in old(db.usuarios) && old(db.usuarios[uid].saldo) >= COSTO_RULETA as real
    ensures r.Err? ==> r.code in {400, 404} && db.usuarios == old(db.usuarios)
    ensures r.Ok? ==>
      var o := OPCIONES_RULETA[giro];
      db.usuarios == ConSaldo(old(db.usuarios), uid, Neto(o) as real) &&
      r.value == Giro(o.nombre, o.mensaje, if o.multiplicador > 0 then COSTO_RULETA * o.multiplicador else 0,
                      COSTO_RULETA, db.usuarios[uid].saldo)
  {
    if uid !in db.usuarios {
      return Err(404);
    }
    var user := db.usuarios[uid];
    if user.saldo < COSTO_RULETA as real {
      return Err(400);
    }
    var o := OPCIONES_RULETA[giro];
    var ganancia;
    user, ganancia := Cobrar(user, o);
    db.usuarios := db.usuarios[uid := user];
    r := Ok(Giro(o.nombre, o.mensaje, ganancia, COSTO_RULETA, user.saldo));
  }

  /** The debit unless the slot is "Free", then the credit when the multiplier is positive. */
  method Cobrar(user: Usuario, o: Opcion) returns (u: Usuario, ganancia: int)
    ensures u == user.(saldo := user.saldo + Neto(o) as real)
    ensures ganancia == if o.multiplicador > 0 then COSTO_RULETA * o.multiplicador else 0
  {
    u := user;
    if o.nombre != "Free" {
      u := u.(saldo := u.saldo - COSTO_RULETA as real);
    }
    ganancia := 0;
    if o.multiplicador > 0 {
      ganancia := COSTO_RULETA * o.multiplicador;
      u := u.(saldo := u.saldo + ganancia as real);
    }
  }
}
