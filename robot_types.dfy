/** Values shared by the robot command and state layer: device rows,
    telemetry rows, the commands relayed to the device, and the ordered
    journal of externally visible effects a request leaves behind. */
module RobotTypes {

  datatype Option<T> = None | Some(value: T)

  datatype Result<T, E> = Ok(value: T) | Err(error: E)

  /** An instant produced by the clock; the model only copies it around. */
  type Timestamp = int

  const ACTIVO: string := "activo"
  const INACTIVO: string := "inactivo"
  const DESCONOCIDO: string := "desconocido"

  /** Device id used when a request does not name one. */
  const DEFAULT_DEVICE_ID: int := 1

  /** `const { dispositivo_id = 1 } = ...`: the id a request addresses. */
  function RequestedDevice(dispositivoId: Option<int>): (id: int)
    ensures dispositivoId.Some? ==> id == dispositivoId.value
    ensures dispositivoId.None? ==> id == DEFAULT_DEVICE_ID
  {
    if dispositivoId.Some? then dispositivoId.value else DEFAULT_DEVICE_ID
  }

  /** JavaScript truthiness of an optional string field: absent and "" are falsy. */
  predicate Truthy(s: Option<string>)
  {
    s.Some? && s.value != ""
  }

  /** A row of the `dispositivos` table. `estado` is the stored column, which
      the power routes set to "activo" or "inactivo". */
  datatype Device = Device(
    id: int,
    nombre: string,
    tipo: string,
    estado: string,
    ubicacion: string,
    metadata: string,
    updatedAt: Timestamp)

  /** A row of `posicion_robot`. */
  datatype PositionSample = PositionSample(
    dispositivoId: int, x: int, y: int, angulo: int, bateria: int, fecha: Timestamp)

  /** A row of `detecciones_objeto`. */
  datatype Detection = Detection(dispositivoId: int, objetoDetectado: string, fecha: Timestamp)

  /** The message published to the device: its `accion` and its `datos`. */
  datatype Command =
    | Encender(estado: string)
    | Apagar(estado: string)
    | Parar
    | Mover(velocidad: int, direccion: string)
    | Rotar(angulo: int)
    | Buscar(objeto: string, distanciaMax: int)
    | Inicio
    | Calibrar

  /** A row of `logs`; its description reads `Robot <deviceId> <participle>`. */
  datatype LogEntry = LogEntry(userId: int, accion: string, deviceId: int, participle: string)

  /** A row of `alertas`. */
  datatype Alert = Alert(
    userId: int, deviceId: int, tipoAlerta: string, descripcion: string, severidad: string, leida: bool)

  /** One externally visible effect, in the order it happened. A publish is
      recorded whether or not the channel accepted it. */
  datatype Effect =
    | Published(command: Command, accepted: bool)
    | StateWritten(deviceId: int, estado: string, at: Timestamp)
    | Logged(entry: LogEntry)
    | Alerted(alert: Alert)

  /** The commands handed to the message channel, in order. */
  function Commands(effects: seq<Effect>): (r: seq<Command>)
    ensures |r| <= |effects|
  {
    if effects == [] then []
    else
      var rest := Commands(effects[1..]);
      if effects[0].Published? then [effects[0].command] + rest else rest
  }

  /** The rows inserted into `logs`, in order. */
  function Logs(effects: seq<Effect>): (r: seq<LogEntry>)
    ensures |r| <= |effects|
  {
    if effects == [] then []
    else
      var rest := Logs(effects[1..]);
      if effects[0].Logged? then [effects[0].entry] + rest else rest
  }

  /** The rows inserted into `alertas`, in order. */
  function Alerts(effects: seq<Effect>): (r: seq<Alert>)
    ensures |r| <= |effects|
  {
    if effects == [] then []
    else
      var rest := Alerts(effects[1..]);
      if effects[0].Alerted? then [effects[0].alert] + rest else rest
  }

  /** `a` happens, and `b` happens strictly after it. */
  ghost predicate Before(effects: seq<Effect>, a: Effect, b: Effect)
  {
    exists i :: 0 <= i < |effects| && effects[i] == a && b in effects[i + 1..]
  }

  /** Regrouping appended journal segments. */
  lemma AppendAssoc(a: seq<Effect>, b: seq<Effect>, c: seq<Effect>)
    ensures a + b + c == a + (b + c)
  {
  }

  /** The projections of a single effect. */
  lemma OneEffect(e: Effect)
    ensures Commands([e]) == if e.Published? then [e.command] else []
    ensures Logs([e]) == if e.Logged? then [e.entry] else []
    ensures Alerts([e]) == if e.Alerted? then [e.alert] else []
  {
  }

  lemma {:induction false} CommandsAppend(a: seq<Effect>, b: seq<Effect>)
    ensures Commands(a + b) == Commands(a) + Commands(b)
  {
    if a != [] {
      assert (a + b)[1..] == a[1..] + b;
      CommandsAppend(a[1..], b);
    } else {
      assert a + b == b;
    }
  }

  lemma {:induction false} LogsAppend(a: seq<Effect>, b: seq<Effect>)
    ensures Logs(a + b) == Logs(a) + Logs(b)
  {
    if a != [] {
      assert (a + b)[1..] == a[1..] + b;
      LogsAppend(a[1..], b);
    } else {
      assert a + b == b;
    }
  }

  lemma {:induction false} AlertsAppend(a: seq<Effect>, b: seq<Effect>)
    ensures Alerts(a + b) == Alerts(a) + Alerts(b)
  {
    if a != [] {
      assert (a + b)[1..] == a[1..] + b;
      AlertsAppend(a[1..], b);
    } else {
      assert a + b == b;
    }
  }
}
