/**
 * The VIP lottery of app/services/vip.py: paid entries that buy tickets, a
 * ticket-weighted draw with a fixed prize, and the once-a-day schedule.
 *
 * Times are local Bogota wall-clock seconds; `datetime.now(ZONE)` is the
 * parameter `ahora`. The drawn pool position (`random.choice`), the rows the
 * grouped query returns and the ids the database assigns are parameters too.
 */
module Vip {
  import opened Wrappers
  import opened Modelos

  const PREMIO: int := 500000
  const DIA: int := 86400
  /** 12:15:00, the time of day `calcular_proximo_sorteo` schedules. */
  const HORA_SORTEO: int := 12 * 3600 + 15 * 60
  /** The `sorteo_id` every new entry is created with. */
  const SORTEO_INICIAL: int := 1

  /** `obtener_fichas_por_costo`: tickets bought by an entry fee. */
  function FichasPorCosto(costo: real): (f: int)
    ensures f >= 1
  {
    if costo == 10000.0 then 1
    else if costo == 20000.0 then 3
    else if costo == 50000.0 then 10
    else if costo == 100000.0 then 25
    else 1
  }

  /**
   * The four published fees buy 1, 3, 10 and 25 tickets, each larger fee
   * buying its tickets more cheaply; any other fee buys a single ticket.
   */
  lemma FichasPorNivel(costo: real)
    ensures FichasPorCosto(10000.0) == 1 && FichasPorCosto(20000.0) == 3
    ensures FichasPorCosto(50000.0) == 10 && FichasPorCosto(100000.0) == 25
    ensures 10000.0 / 1.0 > 20000.0 / 3.0 > 50000.0 / 10.0 > 100000.0 / 25.0
    ensures costo !in {10000.0, 20000.0, 50000.0, 100000.0} ==> FichasPorCosto(costo) == 1
  {
  }

  /** `calcular_proximo_sorteo`: today's 12:15 if it is still ahead, otherwise tomorrow's. */
  function ProximoSorteo(ahora: int): (t: int)
    ensures ahora < t <= ahora + DIA
    ensures t % DIA == HORA_SORTEO
  {
    var hoy := ahora - ahora % DIA + HORA_SORTEO;
    if ahora < hoy then hoy else hoy + DIA
  }

  /** The next draw is the first 12:15 strictly after `ahora`. */
  lemma ProximoSorteoEsElPrimero(ahora: int, t: int)
    requires ahora < t && t % DIA == HORA_SORTEO
    ensures ProximoSorteo(ahora) <= t
  {
    var p := ProximoSorteo(ahora);
    assert (t - p) % DIA == 0;
  }

  /** The `costo` field of the request body. */
  datatype Costo = Entero(n: int) | Flotante(x: real) | NoNumerico

  /** The numeric value of a fee given as an int or a float. */
  function Valor(c: Costo): real
  {
    match c
    case Entero(n) => n as real
    case Flotante(x) => x
    case NoNumerico => 0.0
  }

  /** User `uid` already holds an active entry. */
  predicate Inscrito(ps: map<int, Participante>, uid: int)
  {
    exists k :: k in ps && ps[k].usuarioId == uid && ps[k].esActivo
  }

  datatype Inscripcion = Inscripcion(nuevoSaldo: real, fichasObtenidas: int, idParticipacion: int)

  /**
   * `participar_sorteo_vip`. A float fee passes the validation but
   * `usuario.saldo -= costo_vip` mixes a Decimal with a float, which raises
   * before anything is committed (500). `nuevoId` is the id the database
   * assigns to the new entry.
   */
  method ParticiparSorteoVip(db: Db, uid: int, costo: Costo, ahora: int, nuevoId: int) returns (r: Result<Inscripcion>)
    requires nuevoId !in db.participantes
    modifies db`usuarios, db`participantes
    ensures (costo.NoNumerico? || Valor(costo) <= 0.0) ==> r == Err(400)
    ensures (!costo.NoNumerico? && Valor(costo) > 0.0 && uid !in old(db.usuarios)) ==> r == Err(404)
    ensures (!costo.NoNumerico? && Valor(costo) > 0.0 && uid in old(db.usuarios)
             && (old(db.usuarios[uid].saldo) < Valor(costo) || Inscrito(old(db.participantes), uid))) ==> r == Err(400)
    ensures (costo.Flotante? && costo.x > 0.0 && uid in old(db.usuarios) && old(db.usuarios[uid].saldo) >= costo.x
             && !Inscrito(old(db.participantes), uid)) ==> r == Err(500)
    ensures r.Ok? <==> costo.Entero? && costo.n > 0 && uid in old(db.usuarios)
                       && old(db.usuarios[uid].saldo) >= costo.n as real && !Inscrito(old(db.participantes), uid)
    ensures r.Err? ==> db.usuarios == old(db.usuarios) && db.participantes == old(db.participantes)
    ensures r.Ok? ==>
      && db.usuarios == ConSaldo(old(db.usuarios), uid, -Valor(costo))
      && db.participantes == old(db.participantes)[nuevoId := Participante(
           nuevoId, uid, Valor(costo), FichasPorCosto(Valor(costo)), ahora, Some(SORTEO_INICIAL), true)]
      && r.value == Inscripcion(db.usuarios[uid].saldo, FichasPorCosto(Valor(costo)), nuevoId)
  {
    if costo.NoNumerico? || Valor(costo) <= 0.0 {
      return Err(400);
    }
    var costoVip := Valor(costo);
    if uid !in db.usuarios {
      return Err(404);
    }
    var usuario := db.usuarios[uid];
    if usuario.saldo < costoVip {
      return Err(400);
    }
    if Inscrito(db.participantes, uid) {
      return Err(400);
    }
    var fichas := FichasPorCosto(costoVip);
    if costo.Flotante? {
      // Decimal minus float: TypeError.
      return Err(500);
    }
    usuario := usuario.(saldo := usuario.saldo - costoVip);
    db.usuarios := db.usuarios[uid := usuario];
    db.participantes := db.participantes[nuevoId := Participante(
      nuevoId, uid, costoVip, fichas, ahora, Some(SORTEO_INICIAL), true)];
    r := Ok(Inscripcion(usuario.saldo, fichas, nuevoId));
  }

  /** A row of the grouped query: an active participant with the sum of its tickets. */
  datatype Grupo = Grupo(usuarioId: int, username: string, verificado: bool, saldo: real, totalFichas: int)

  predicate IdsDistintos(gs: seq<Grupo>)
  {
    forall i, j :: 0 <= i < j < |gs| ==> gs[i].usuarioId != gs[j].usuarioId
  }

  /** The tickets of user `uid`'s active entries among the keys `ks`. */
  ghost function FichasActivas(ps: map<int, Participante>, ks: set<int>, uid: int): int
    requires ks <= ps.Keys
    decreases ks
  {
    if ks == {} then 0
    else
      Elemento(ks);
      var k :| k in ks;
      (if ps[k].usuarioId == uid && ps[k].esActivo then ps[k].fichas else 0) + FichasActivas(ps, ks - {k}, uid)
  }

  /**
   * `grupos` is what the grouped query returns: one row per user holding an
   * active entry and present in `usuarios` (the query is an inner join),
   * carrying that user's columns and, as ticket total, the positive sum of
   * the tickets of that user's active entries.
   */
  ghost predicate ConsultaDeActivos(us: map<int, Usuario>, ps: map<int, Participante>, gs: seq<Grupo>)
  {
    && IdsDistintos(gs)
    && (forall i :: 0 <= i < |gs| ==>
          && gs[i].usuarioId in us && Inscrito(ps, gs[i].usuarioId) && gs[i].totalFichas >= 1
          && gs[i].totalFichas == FichasActivas(ps, ps.Keys, gs[i].usuarioId)
          && gs[i].username == us[gs[i].usuarioId].username
          && gs[i].verificado == us[gs[i].usuarioId].verificado
          && gs[i].saldo == us[gs[i].usuarioId].saldo)
    && (forall k :: k in ps && ps[k].esActivo && ps[k].usuarioId in us ==> Contiene(gs, ps[k].usuarioId))
  }

  predicate Contiene(gs: seq<Grupo>, uid: int)
  {
    exists i :: 0 <= i < |gs| && gs[i].usuarioId == uid
  }

  /** `n` copies of `x`. */
  function Copias(x: int, n: nat): (s: seq<int>)
    ensures |s| == n
  {
    if n == 0 then [] else Copias(x, n - 1) + [x]
  }

  /** `lista_para_sorteo`: each user id repeated once per ticket, group by group. */
  function Pool(gs: seq<Grupo>): seq<int>
  {
    if |gs| == 0 then []
    else
      var g := gs[|gs| - 1];
      Pool(gs[..|gs| - 1]) + Copias(g.usuarioId, if g.totalFichas < 0 then 0 else g.totalFichas)
  }

  /** Occurrences of `x` in `s`. */
  function Ocurrencias(s: seq<int>, x: int): nat
  {
    if |s| == 0 then 0 else Ocurrencias(s[..|s| - 1], x) + (if s[|s| - 1] == x then 1 else 0)
  }

  lemma {:induction false} OcurrenciasConcat(a: seq<int>, b: seq<int>, x: int)
    ensures Ocurrencias(a + b, x) == Ocurrencias(a, x) + Ocurrencias(b, x)
  {
    if |b| > 0 {
      assert (a + b)[..|a + b| - 1] == a + b[..|b| - 1];
      OcurrenciasConcat(a, b[..|b| - 1], x);
    } else {
      assert a + b == a;
    }
  }

  lemma {:induction false} OcurrenciasCopias(y: int, n: nat, x: int)
    ensures Ocurrencias(Copias(y, n), x) == if x == y then n else 0
  {
    if n > 0 {
      assert Copias(y, n)[..n - 1] == Copias(y, n - 1);
      OcurrenciasCopias(y, n - 1, x);
    }
  }

  /** Sum of the ticket totals of the groups. */
  function TotalFichas(gs: seq<Grupo>): int
  {
    if |gs| == 0 then 0 else TotalFichas(gs[..|gs| - 1]) + gs[|gs| - 1].totalFichas
  }

  /**
   * The pool holds each group's user id exactly as many times as that user
   * has tickets and nothing else, so `total_fichas = len(lista_para_sorteo)`
   * is the sum of the ticket totals and a user's chance of being drawn is
   * its share of the tickets.
   */
  lemma {:induction false} PoolPorFichas(gs: seq<Grupo>, x: int)
    requires IdsDistintos(gs) && forall i :: 0 <= i < |gs| ==> gs[i].totalFichas >= 1
    ensures |Pool(gs)| == TotalFichas(gs)
    ensures Ocurrencias(Pool(gs), x) == if Contiene(gs, x) then FichasDe(gs, x) else 0
  {
    if |gs| > 0 {
      var pre := gs[..|gs| - 1];
      var g := gs[|gs| - 1];
      PoolPorFichas(pre, x);
      OcurrenciasConcat(Pool(pre), Copias(g.usuarioId, g.totalFichas), x);
      OcurrenciasCopias(g.usuarioId, g.totalFichas, x);
      ContieneExtendido(gs, |gs| - 1, x);
      assert gs[..|gs| - 1 + 1] == gs;
      if g.usuarioId == x {
        PrimeraAparicion(gs, |gs| - 1);
      }
    }
  }

  /** The ticket total of the (last) group of user `x`. */
  function FichasDe(gs: seq<Grupo>, x: int): int
  {
    if |gs| == 0 then 0
    else if gs[|gs| - 1].usuarioId == x then gs[|gs| - 1].totalFichas
    else FichasDe(gs[..|gs| - 1], x)
  }

  /** With distinct ids, `FichasDe` finds the ticket total of a user's group. */
  lemma {:induction false} FichasDeGrupo(gs: seq<Grupo>, i: int)
    requires IdsDistintos(gs) && 0 <= i < |gs|
    ensures FichasDe(gs, gs[i].usuarioId) == gs[i].totalFichas
  {
    if i < |gs| - 1 {
      FichasDeGrupo(gs[..|gs| - 1], i);
    }
  }

  /**
   * Against the grouped query, the pool holds every user who is in
   * `usuarios` with an active entry exactly as many times as the tickets of
   * its active entries add up to, and nobody else: a user's chance in the
   * draw is its share of the active tickets.
   */
  lemma PoolPorParticipaciones(us: map<int, Usuario>, ps: map<int, Participante>, gs: seq<Grupo>, x: int)
    requires ConsultaDeActivos(us, ps, gs)
    ensures x in us && Inscrito(ps, x) ==> Ocurrencias(Pool(gs), x) == FichasActivas(ps, ps.Keys, x)
    ensures !(x in us && Inscrito(ps, x)) ==> Ocurrencias(Pool(gs), x) == 0
  {
    PoolPorFichas(gs, x);
    if Contiene(gs, x) {
      var i :| 0 <= i < |gs| && gs[i].usuarioId == x;
      FichasDeGrupo(gs, i);
    }
  }

  /** Every pool entry is the id of one of the groups. */
  lemma {:induction false} PoolDeGrupos(gs: seq<Grupo>, k: int)
    requires 0 <= k < |Pool(gs)|
    ensures Contiene(gs, Pool(gs)[k])
  {
    var pre := gs[..|gs| - 1];
    var g := gs[|gs| - 1];
    var n := if g.totalFichas < 0 then 0 else g.totalFichas;
    if k < |Pool(pre)| {
      PoolDeGrupos(pre, k);
      var i :| 0 <= i < |pre| && pre[i].usuarioId == Pool(pre)[k];
      assert gs[i] == pre[i];
    } else {
      CopiasIguales(g.usuarioId, n, k - |Pool(pre)|);
      assert gs[|gs| - 1].usuarioId == Pool(gs)[k];
    }
  }

  lemma {:induction false} CopiasIguales(x: int, n: nat, k: int)
    requires 0 <= k < n
    ensures Copias(x, n)[k] == x
  {
    if k < n - 1 {
      CopiasIguales(x, n - 1, k);
    }
  }

  /** The inner loop: `for _ in range(n): lista.append(id)`. */
  method AgregarFichas(pool: seq<int>, id: int, n: int) returns (p: seq<int>)
    ensures p == pool + Copias(id, if n < 0 then 0 else n)
  {
    p := pool;
    var j := 0;
    while j < n
      invariant 0 <= j && (n >= 0 ==> j <= n) && (n < 0 ==> j == 0)
      invariant p == pool + Copias(id, j)
    {
      p := p + [id];
      j := j + 1;
    }
  }

  /** The nested loops that build `lista_para_sorteo`. */
  method ConstruirPool(grupos: seq<Grupo>) returns (pool: seq<int>)
    ensures pool == Pool(grupos)
  {
    pool := [];
    var i := 0;
    while i < |grupos|
      invariant 0 <= i <= |grupos| && pool == Pool(grupos[..i])
    {
      assert grupos[..i + 1][..i] == grupos[..i];
      pool := AgregarFichas(pool, grupos[i].usuarioId, grupos[i].totalFichas);
      i := i + 1;
    }
    assert grupos[..i] == grupos;
  }

  /** `ganadores_info` for the groups `gs` when `numero` is drawn, against the balances `us`. */
  function Ganadores(gs: seq<Grupo>, numero: int, us: map<int, Usuario>): seq<Ganador>
  {
    if |gs| == 0 then []
    else
      var g := gs[|gs| - 1];
      Ganadores(gs[..|gs| - 1], numero, us) +
        if g.usuarioId == numero && numero in us then
          [Ganador(g.usuarioId, g.username, us[numero].saldo + PREMIO as real, g.verificado, PREMIO as real,
                   us[numero].saldo, g.totalFichas)]
        else []
  }

  /** No group of `gs` belongs to `numero`: nobody is listed. */
  lemma {:induction false} SinGanadores(gs: seq<Grupo>, numero: int, us: map<int, Usuario>)
    requires !Contiene(gs, numero)
    ensures Ganadores(gs, numero, us) == []
  {
    if |gs| > 0 {
      var pre := gs[..|gs| - 1];
      SinGanadores(pre, numero, us);
    }
  }

  /**
   * With distinct users, the drawn user — who holds a group — is listed
   * exactly once, with its balance before and after the prize and its tickets.
   */
  lemma {:induction false} GanadorUnico(gs: seq<Grupo>, numero: int, us: map<int, Usuario>)
    requires IdsDistintos(gs) && Contiene(gs, numero) && numero in us
    ensures Ganadores(gs, numero, us) ==
              [Ganador(numero, GrupoDe(gs, numero).username, us[numero].saldo + PREMIO as real,
                       GrupoDe(gs, numero).verificado, PREMIO as real, us[numero].saldo, FichasDe(gs, numero))]
  {
    var pre := gs[..|gs| - 1];
    var g := gs[|gs| - 1];
    if g.usuarioId == numero {
      assert !Contiene(pre, numero);
      SinGanadores(pre, numero, us);
    } else {
      var i :| 0 <= i < |gs| && gs[i].usuarioId == numero;
      assert pre[i].usuarioId == numero;
      GanadorUnico(pre, numero, us);
    }
  }

  /** The (last) group of user `x`. */
  function GrupoDe(gs: seq<Grupo>, x: int): Grupo
    requires Contiene(gs, x)
  {
    var g := gs[|gs| - 1];
    if g.usuarioId == x then g
    else
      var i :| 0 <= i < |gs| && gs[i].usuarioId == x;
      assert gs[..|gs| - 1][i].usuarioId == x;
      GrupoDe(gs[..|gs| - 1], x)
  }

  /** Every active entry closed and attached to draw `sid`; the others kept. */
  function CerrarSorteo(ps: map<int, Participante>, sid: int): (r: map<int, Participante>)
    ensures r.Keys == ps.Keys
    ensures forall k :: k in ps ==> !r[k].esActivo
  {
    map k | k in ps :: if ps[k].esActivo then ps[k].(sorteoId := Some(sid), esActivo := false) else ps[k]
  }

  datatype Sorteo = Sorteo(
    numeroGanador: int, ganadores: seq<Ganador>, totalParticipantes: int, totalFichas: int, totalGanadores: int,
    fechaSorteo: int)

  /**
   * `realizar_sorteo`. `grupos` are the rows of the grouped query, `indice`
   * the pool position `random.choice` picks, `fecha` the clock and `nuevoId`
   * the id of the new result row.
   */
  method RealizarSorteo(db: Db, grupos: seq<Grupo>, indice: int, fecha: int, nuevoId: int) returns (r: Result<Sorteo>)
    requires ConsultaDeActivos(db.usuarios, db.participantes, grupos)
    requires |grupos| > 0 ==> 0 <= indice < |Pool(grupos)|
    requires nuevoId !in db.resultados
    modifies db`usuarios, db`participantes, db`resultados
    ensures r.Err? <==> |grupos| == 0
    ensures r.Err? ==> r == Err(400) && db.usuarios == old(db.usuarios)
                       && db.participantes == old(db.participantes) && db.resultados == old(db.resultados)
    ensures r.Ok? ==>
      var numero := Pool(grupos)[indice];
      && r.value.numeroGanador == numero
      && Contiene(grupos, numero) && numero in old(db.usuarios)
      && db.usuarios == ConSaldo(old(db.usuarios), numero, PREMIO as real)
      && db.participantes == CerrarSorteo(old(db.participantes), nuevoId)
      && r.value.ganadores == Ganadores(grupos, numero, old(db.usuarios))
      && db.resultados == old(db.resultados)[nuevoId := ResultadoSorteo(
           nuevoId, fecha, numero, r.value.ganadores, |grupos|, |r.value.ganadores|)]
      && r.value == Sorteo(numero, r.value.ganadores, |grupos|, |Pool(grupos)|, |r.value.ganadores|, fecha)
  {
    if |grupos| == 0 {
      return Err(400);
    }
    var lista := ConstruirPool(grupos);
    var totalFichas := |lista|;
    var numero := lista[indice];
    PoolDeGrupos(grupos, indice);
    var w :| 0 <= w < |grupos| && grupos[w].usuarioId == numero;
    assert numero in db.usuarios;
    var usuarios, ganadores := Acreditar(db.usuarios, grupos, numero);
    var sorteo := Sorteo(numero, ganadores, |grupos|, totalFichas, |ganadores|, fecha);
    db.resultados := db.resultados[nuevoId := ResultadoSorteo(nuevoId, fecha, numero, ganadores, |grupos|, |ganadores|)];
    db.participantes := CerrarSorteo(db.participantes, nuevoId);
    db.usuarios := usuarios;
    r := Ok(sorteo);
  }

  /**
   * The loop over the groups that credits the drawn user `numero` and lists
   * it in `ganadores_info`.
   */
  method Acreditar(us: map<int, Usuario>, grupos: seq<Grupo>, numero: int)
    returns (usuarios: map<int, Usuario>, ganadores: seq<Ganador>)
    requires IdsDistintos(grupos) && numero in us
    ensures ganadores == Ganadores(grupos, numero, us)
    ensures usuarios == if Contiene(grupos, numero) then ConSaldo(us, numero, PREMIO as real) else us
  {
    usuarios := us;
    ganadores := [];
    var i := 0;
    while i < |grupos|
      invariant 0 <= i <= |grupos|
      invariant ganadores == Ganadores(grupos[..i], numero, us)
      invariant usuarios == if Contiene(grupos[..i], numero) then ConSaldo(us, numero, PREMIO as real) else us
    {
      assert grupos[..i + 1][..i] == grupos[..i];
      var p := grupos[i];
      if p.usuarioId == numero && numero in usuarios {
        PrimeraAparicion(grupos, i);
        var saldoAnterior := usuarios[numero].saldo;
        usuarios := usuarios[numero := usuarios[numero].(saldo := saldoAnterior + PREMIO as real)];
        ganadores := ganadores + [Ganador(p.usuarioId, p.username, usuarios[numero].saldo, p.verificado,
                                          PREMIO as real, saldoAnterior, p.totalFichas)];
      }
      ContieneExtendido(grupos, i, numero);
      i := i + 1;
    }
    assert grupos[..i] == grupos;
  }

  /** With distinct ids, a group's user does not appear before it. */
  lemma PrimeraAparicion(gs: seq<Grupo>, i: int)
    requires IdsDistintos(gs) && 0 <= i < |gs|
    ensures !Contiene(gs[..i], gs[i].usuarioId)
  {
  }

  /** The prefix one group longer contains `x` exactly when the shorter one does or the new group is x's. */
  lemma ContieneExtendido(gs: seq<Grupo>, i: int, x: int)
    requires 0 <= i < |gs|
    ensures Contiene(gs[..i + 1], x) <==> Contiene(gs[..i], x) || gs[i].usuarioId == x
  {
    if Contiene(gs[..i + 1], x) && gs[i].usuarioId != x {
      var j :| 0 <= j < i + 1 && gs[..i + 1][j].usuarioId == x;
      assert gs[..i][j].usuarioId == x;
    }
    if Contiene(gs[..i], x) {
      var j :| 0 <= j < i && gs[..i][j].usuarioId == x;
      assert gs[..i + 1][j].usuarioId == x;
    }
    if gs[i].usuarioId == x {
      assert gs[..i + 1][i].usuarioId == x;
    }
  }

  /**
   * The draw credits only the drawn user, by exactly the prize, and leaves no
   * entry active.
   */
  lemma {:induction false} SoloElGanadorCobra(us: map<int, Usuario>, ps: map<int, Participante>, numero: int, sid: int, u: int)
    requires numero in us && u in us
    ensures u != numero ==> ConSaldo(us, numero, PREMIO as real)[u] == us[u]
    ensures ConSaldo(us, numero, PREMIO as real)[numero].saldo == us[numero].saldo + 500000.0
    ensures !Inscrito(CerrarSorteo(ps, sid), u)
  {
  }

  /** Some entry is active: `count() > 0` of the automatic check. */
  predicate HayActivos(ps: map<int, Participante>)
  {
    exists k :: k in ps && ps[k].esActivo
  }

  /** The module globals `NEXT_DRAW` and `sorteo_en_proceso`. */
  class Planificador {
    var nextDraw: Option<int>
    var sorteoEnProceso: bool

    /** The state after the module is imported: `NEXT_DRAW = calcular_proximo_sorteo()`. */
    constructor (ahora: int)
      ensures nextDraw == Some(ProximoSorteo(ahora)) && !sorteoEnProceso
    {
      nextDraw := Some(ProximoSorteo(ahora));
      sorteoEnProceso := false;
    }

    /** The schedule says a draw is due. */
    predicate Vencido(ahora: int)
      reads this
    {
      nextDraw.None? || ahora >= nextDraw.value
    }

    /**
     * `verificar_y_ejecutar_sorteo_automatico`. Nothing happens while a draw
     * is in progress or before the scheduled time. Otherwise the draw runs when
     * some entry is active; the schedule moves to the next 12:15 unless the draw
     * raised, and the in-progress flag is cleared on every path.
     */
    method VerificarYEjecutar(db: Db, ahora: int, grupos: seq<Grupo>, indice: int, fecha: int, nuevoId: int)
      returns (r: Option<Sorteo>)
      requires ConsultaDeActivos(db.usuarios, db.participantes, grupos)
      requires |grupos| > 0 ==> 0 <= indice < |Pool(grupos)|
      requires nuevoId !in db.resultados
      modifies this, db`usuarios, db`participantes, db`resultados
      ensures old(sorteoEnProceso) || !old(Vencido(ahora)) ==>
                r.None? && nextDraw == old(nextDraw) && sorteoEnProceso == old(sorteoEnProceso)
                && db.usuarios == old(db.usuarios) && db.participantes == old(db.participantes)
                && db.resultados == old(db.resultados)
      ensures !old(sorteoEnProceso) ==> !sorteoEnProceso
      ensures !old(sorteoEnProceso) && old(Vencido(ahora)) && !HayActivos(old(db.participantes)) ==>
                r.None? && nextDraw == Some(ProximoSorteo(ahora)) && db.usuarios == old(db.usuarios)
                && db.participantes == old(db.participantes) && db.resultados == old(db.resultados)
      ensures !old(sorteoEnProceso) && old(Vencido(ahora)) && HayActivos(old(db.participantes)) ==>
                (r.Some? <==> |grupos| > 0)
                && (r.Some? ==> nextDraw == Some(ProximoSorteo(ahora)) && r.value.numeroGanador in old(db.usuarios)
                                && db.usuarios == ConSaldo(old(db.usuarios), r.value.numeroGanador, PREMIO as real)
                                && db.participantes == CerrarSorteo(old(db.participantes), nuevoId))
                && (r.None? ==> nextDraw == old(nextDraw) && db.usuarios == old(db.usuarios)
                                && db.participantes == old(db.participantes) && db.resultados == old(db.resultados))
    {
      if sorteoEnProceso {
        return None;
      }
      if nextDraw.None? || ahora >= nextDraw.value {
        sorteoEnProceso := true;
        if !HayActivos(db.participantes) {
          nextDraw := Some(ProximoSorteo(ahora));
          sorteoEnProceso := false;
          return None;
        }
        var resultado := RealizarSorteo(db, grupos, indice, fecha, nuevoId);
        if resultado.Err? {
          // The exception is caught and only logged.
          sorteoEnProceso := false;
          return None;
        }
        nextDraw := Some(ProximoSorteo(ahora));
        sorteoEnProceso := false;
        return Some(resultado.value);
      }
      return None;
    }
  }

  /** `limpiar_participantes`: every active entry made inactive; balances untouched. */
  method LimpiarParticipantes(db: Db)
    modifies db`participantes
    ensures db.participantes.Keys == old(db.participantes.Keys)
    ensures forall k :: k in db.participantes ==>
              db.participantes[k] == old(db.participantes[k]).(esActivo := false)
    ensures !HayActivos(db.participantes)
  {
    db.participantes := map k | k in db.participantes :: db.participantes[k].(esActivo := false);
  }
}
