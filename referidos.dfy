/**
 * The referral report of app/services/referidos.py: for each user the caller
 * referred, its username, whether it is verified, what it earned the caller
 * and the users it referred in turn.
 *
 * The report is keyed by the referred user's id; the order in which the
 * database lists the rows is not modelled.
 */
module Referidos {
  import opened Wrappers
  import opened Modelos

  const GANANCIA_VERIFICADO: int := 2000
  const GANANCIA_NO_VERIFICADO: int := 100

  /** The users whose `referido_por` is `padre`. */
  function ReferidosDe(us: map<int, Usuario>, padre: int): (s: set<int>)
    ensures s <= us.Keys
  {
    set k | k in us && us[k].referidoPor == Some(padre)
  }

  function GananciaBase(verificado: bool): int
  {
    if verificado then GANANCIA_VERIFICADO else GANANCIA_NO_VERIFICADO
  }

  /**
   * `int(sub_ganancia * 0.10)`: 200 for a verified sub-referral, 10 for
   * the others (both products are exact in binary floating point).
   */
  function Aporte(verificado: bool): (a: int)
    ensures a == GananciaBase(verificado) / 10
  {
    if verificado then 200 else 10
  }

  /** The members of `s` that are verified users. */
  function Verificados(us: map<int, Usuario>, s: set<int>): (v: set<int>)
    ensures v <= s
  {
    set k | k in s && k in us && us[k].verificado
  }

  /** 200 times the verified plus 10 times the other members of `s`. */
  function Suma(us: map<int, Usuario>, s: set<int>): int
  {
    200 * |Verificados(us, s)| + 10 * |s - Verificados(us, s)|
  }

  /** Adding one more sub-referral adds its own contribution. */
  lemma SumaMas(us: map<int, Usuario>, s: set<int>, x: int)
    requires x in us && x !in s
    ensures Suma(us, s + {x}) == Suma(us, s) + Aporte(us[x].verificado)
  {
    var v := Verificados(us, s);
    if us[x].verificado {
      assert Verificados(us, s + {x}) == v + {x};
      assert (s + {x}) - (v + {x}) == s - v;
    } else {
      assert Verificados(us, s + {x}) == v;
      assert (s + {x}) - v == (s - v) + {x};
    }
  }

  /** What the sub-referrals of `ref` add to its earning. */
  function AporteSubreferidos(us: map<int, Usuario>, ref: int): int
  {
    var subs := ReferidosDe(us, ref);
    Suma(us, subs)
  }

  datatype Subreferido = Subreferido(username: string, verificado: bool)

  /** One entry of the report. */
  datatype Referido = Referido(username: string, verificado: bool, ganancia: int, referidos: set<Subreferido>)

  /** The `referidos` list of an entry: username and status of each sub-referral. */
  function Subreferidos(us: map<int, Usuario>, ref: int): (r: set<Subreferido>)
    ensures forall s :: s in ReferidosDe(us, ref) ==> Subreferido(us[s].username, us[s].verificado) in r
    ensures forall e :: e in r ==> exists s :: s in ReferidosDe(us, ref) && e == Subreferido(us[s].username, us[s].verificado)
  {
    set s | s in ReferidosDe(us, ref) :: Subreferido(us[s].username, us[s].verificado)
  }

  function Entrada(us: map<int, Usuario>, ref: int): Referido
    requires ref in us
  {
    Referido(us[ref].username, us[ref].verificado,
             GananciaBase(us[ref].verificado) + AporteSubreferidos(us, ref),
             Subreferidos(us, ref))
  }

  lemma {:induction false} Particion(s: set<int>, v: set<int>)
    requires v <= s
    ensures |v| + |s - v| == |s|
  {
    assert s == v + (s - v);
  }

  /**
   * An entry earns its base (2000 verified, 100 otherwise) plus between 10
   * and 200 per sub-referral; with every sub-referral verified, exactly 200
   * each.
   */
  lemma GananciaAcotada(us: map<int, Usuario>, ref: int)
    requires ref in us
    ensures var n, g := |ReferidosDe(us, ref)|, Entrada(us, ref).ganancia - GananciaBase(us[ref].verificado);
            && 10 * n <= g <= 200 * n
            && (Verificados(us, ReferidosDe(us, ref)) == ReferidosDe(us, ref) ==> g == 200 * n)
            && (Verificados(us, ReferidosDe(us, ref)) == {} ==> g == 10 * n)
  {
    var subs := ReferidosDe(us, ref);
    Particion(subs, Verificados(us, subs));
  }

  /** The inner loop of `obtener_referidos`: the sum of the sub-referrals' contributions. */
  method GananciaSubreferidos(us: map<int, Usuario>, ref: int) returns (g: int)
    ensures g == AporteSubreferidos(us, ref)
  {
    var subs := ReferidosDe(us, ref);
    var pendientes := subs;
    var vistos: set<int> := {};
    g := 0;
    while pendientes != {}
      invariant pendientes + vistos == subs && pendientes !! vistos
      invariant g == Suma(us, vistos)
      decreases pendientes
    {
      Elemento(pendientes);
      var sub :| sub in pendientes;
      var subGanancia := if us[sub].verificado then 2000 else 100;
      SumaMas(us, vistos, sub);
      g := g + subGanancia / 10;
      vistos := vistos + {sub};
      pendientes := pendientes - {sub};
    }
    assert vistos == subs;
  }

  /**
   * `obtener_referidos`: one entry for exactly the users the caller
   * referred, each as `Entrada` computes it.
   */
  method ObtenerReferidos(db: Db, uid: int) returns (resultado: map<int, Referido>)
    ensures resultado.Keys == ReferidosDe(db.usuarios, uid)
    ensures forall k :: k in resultado ==> k in db.usuarios && resultado[k] == Entrada(db.usuarios, k)
  {
    var us := db.usuarios;
    var referidos := ReferidosDe(us, uid);
    var pendientes := referidos;
    resultado := map[];
    while pendientes != {}
      invariant pendientes <= referidos && resultado.Keys == referidos - pendientes
      invariant forall k :: k in resultado ==> k in us && resultado[k] == Entrada(us, k)
      decreases pendientes
    {
      Elemento(pendientes);
      var ref :| ref in pendientes;
      var gananciaBase := if us[ref].verificado then 2000 else 100;
      var gananciaSubreferidos := GananciaSubreferidos(us, ref);
      var subreferidos := Subreferidos(us, ref);
      var entrada := Referido(us[ref].username, us[ref].verificado, gananciaBase + gananciaSubreferidos, subreferidos);
      assert entrada == Entrada(us, ref);
      resultado := resultado[ref := entrada];
      pendientes := pendientes - {ref};
    }
  }
}
