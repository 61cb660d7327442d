/**
 * The persistent records of the backend and the database session that holds
 * them. Each table is a map from primary key to record; a handler reads a row,
 * works on a local copy and writes it back where the source commits, so an
 * exception raised before the commit leaves every table as it was.
 */
module Modelos {
  import opened Wrappers

  /** Row of `usuarios`. `saldo` is a Numeric(10,2) column, i.e. a Decimal. */
  datatype Usuario = Usuario(
    id: int,
    email: string,
    username: string,
    referidoPor: Option<int>,       // nullable foreign key
    saldo: real,
    verificado: bool,
    verificacionPendiente: bool,
    ultimaRecompensa: Option<int>)  // Date column: a day number

  /** Status strings of deposits and withdrawals. */
  datatype EstadoTx = Pendiente | Aprobado | Rechazado

  datatype Deposito = Deposito(
    id: int,
    usuarioId: int,
    monto: real,
    metodoPago: string,
    referencia: string,
    estado: EstadoTx,
    comprobanteUrl: Option<string>,
    fechaSolicitud: int,
    fechaProcesamiento: Option<int>)

  datatype Retiro = Retiro(
    id: int,
    usuarioId: int,
    monto: real,
    metodoRetiro: string,
    cuentaDestino: string,
    tipoCuenta: string,
    banco: Option<string>,
    comision: real,
    total: real,
    referencia: string,
    estado: EstadoTx,
    fechaSolicitud: int,
    fechaProcesamiento: Option<int>)

  /** Row of `verificaciones`; `estado` is a free string ("pendiente" by default). */
  datatype Verificacion = Verificacion(id: int, usuarioId: int, archivoUrl: string, estado: string)

  /** Row of `participantes_sorteo`. */
  datatype Participante = Participante(
    id: int,
    usuarioId: int,
    costo: real,
    fichas: int,
    fechaParticipacion: int,
    sorteoId: Option<int>,
    esActivo: bool)

  /** An entry of the JSON list stored in `resultados_sorteo.ganadores`. */
  datatype Ganador = Ganador(
    id: int,
    username: string,
    saldo: real,
    verificado: bool,
    premio: real,
    saldoAnterior: real,
    fichas: int)

  /** Row of `resultados_sorteo`; `numero_ganador` holds the drawn user id. */
  datatype ResultadoSorteo = ResultadoSorteo(
    id: int,
    fecha: int,
    numeroGanador: int,
    ganadores: seq<Ganador>,
    totalParticipantes: int,
    totalGanadores: int)

  /** The committed state of the database. */
  class Db {
    var usuarios: map<int, Usuario>
    var depositos: map<int, Deposito>
    var retiros: map<int, Retiro>
    var verificaciones: map<int, Verificacion>
    var participantes: map<int, Participante>
    var resultados: map<int, ResultadoSorteo>

    constructor ()
      ensures usuarios == map[] && depositos == map[] && retiros == map[]
      ensures verificaciones == map[] && participantes == map[] && resultados == map[]
    {
      usuarios := map[];
      depositos := map[];
      retiros := map[];
      verificaciones := map[];
      participantes := map[];
      resultados := map[];
    }
  }

  /**
   * Only the user named "admin" may use the administration endpoints
   * (`verificar_admin` and the handlers' own checks); `actor` is the
   * authenticated caller's username.
   */
  predicate EsAdmin(actor: string)
  {
    actor == "admin"
  }

  /** `usuarios` after user `uid`'s balance moved by `delta`, everything else kept. */
  function ConSaldo(us: map<int, Usuario>, uid: int, delta: real): map<int, Usuario>
    requires uid in us
  {
    us[uid := us[uid].(saldo := us[uid].saldo + delta)]
  }
}
