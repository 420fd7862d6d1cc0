/** What a power request does to the device table and which effects it
    leaves, in order (controller.js, `POST /encender`, `POST /apagar` and
    `PUT /estado/:accion`). The store and the message channel are
    collaborators whose answers are inputs here; `RobotController` performs
    the same steps one at a time and is proved to agree with `PowerTransition`. */
module PowerSpec {
  import opened RobotTypes
  import opened CommandValidation
  import opened StatusViews

  /** The three power routes. */
  datatype Route = RouteEncender | RouteApagar | RouteEstado(accion: string)

  /** The answers of the collaborators during one request: whether the device
      lookup and the `estado` write succeed, what the two publishes return,
      and whether the log and alert rows get stored. */
  datatype Collaborators = Collaborators(
    lookupSucceeds: bool,
    writeSucceeds: bool,
    stopAccepted: bool,
    powerAccepted: bool,
    logStored: bool,
    alertStored: bool)

  /** The authenticated user and the optional `dispositivo_id` of the body. */
  datatype PowerRequest = PowerRequest(userId: int, dispositivoId: Option<int>)

  datatype PowerResponse =
    | Switched(exito: bool, estado: string, dispositivoId: int, comandoMqtt: string)
    | UnknownAction
    | NoSuchDevice
    | WriteFailed

  function HttpStatus(r: PowerResponse): int
  {
    match r
    case Switched(_, _, _, _) => 200
    case UnknownAction => 400
    case NoSuchDevice => 404
    case WriteFailed => 500
  }

  const ENVIADO: string := "enviado"
  const NO_DISPONIBLE: string := "no_disponible"

  /** `comando_mqtt`: what the power publish returned, and nothing else. */
  function MqttStatus(accepted: bool): (s: string)
    ensures s == ENVIADO <==> accepted
    ensures s == NO_DISPONIBLE <==> !accepted
  {
    if accepted then ENVIADO else NO_DISPONIBLE
  }

  /** The transition a route asks for; only the unified route can name an
      invalid one. */
  function ActionOf(route: Route): Result<PowerAction, ValidationError>
  {
    match route
    case RouteEncender => Ok(TurnOn)
    case RouteApagar => Ok(TurnOff)
    case RouteEstado(accion) => ParsePowerAction(accion)
  }

  /** The route powers the device off, so it stops it first. */
  predicate TurnsOff(route: Route)
  {
    route == RouteApagar || route == RouteEstado("apagar")
  }

  function TargetEstado(a: PowerAction): string
  {
    if a == TurnOn then ACTIVO else INACTIVO
  }

  function PowerCommand(a: PowerAction): Command
  {
    if a == TurnOn then Encender(ACTIVO) else Apagar(INACTIVO)
  }

  function Participle(a: PowerAction): string
  {
    if a == TurnOn then "encendido" else "apagado"
  }

  /** The `logs` row: the dedicated routes log `robot_encendido` /
      `robot_apagado`, the unified one `robot_<accion>`. */
  function AuditEntry(route: Route, a: PowerAction, userId: int, id: int): (e: LogEntry)
    ensures e.userId == userId && e.deviceId == id && e.participle == Participle(a)
    ensures route.RouteEstado? ==> e.accion == "robot_" + route.accion
    ensures !route.RouteEstado? ==> e.accion == "robot_" + Participle(a)
  {
    var accion := match route
      case RouteEstado(accion) => "robot_" + accion
      case _ => if a == TurnOn then "robot_encendido" else "robot_apagado";
    LogEntry(userId, accion, id, Participle(a))
  }

  /** The `alertas` row of a dedicated power route. */
  function PowerAlert(a: PowerAction, userId: int, id: int): (al: Alert)
    ensures al.userId == userId && al.deviceId == id
    ensures al.tipoAlerta == "robot_" + Participle(a)
    ensures al.severidad == "baja" && !al.leida
  {
    if a == TurnOn then Alert(userId, id, "robot_encendido", "Robot activado correctamente", "baja", false)
    else Alert(userId, id, "robot_apagado", "Robot desactivado correctamente", "baja", false)
  }

  /** The unified route writes no alert. */
  function AlertOf(route: Route, a: PowerAction, userId: int, id: int): (r: Option<Alert>)
    ensures r.None? <==> route.RouteEstado?
    ensures r.Some? ==> r.value.tipoAlerta == "robot_" + Participle(a) && r.value.deviceId == id
  {
    if route.RouteEstado? then None else Some(PowerAlert(a, userId, id))
  }

  datatype PowerOutcome = PowerOutcome(response: PowerResponse, devices: map<int, Device>, effects: seq<Effect>)

  /** One power request: validate the action, look the device up, stop it
      (power-off only), persist the new `estado`, publish the power command,
      then store the log and alert rows if the store takes them. */
  function PowerTransition(
    route: Route, devices: map<int, Device>, req: PowerRequest, env: Collaborators, now: Timestamp): (r: PowerOutcome)
    ensures r.response.UnknownAction? <==>
      route.RouteEstado? && route.accion != "encender" && route.accion != "apagar"
    ensures r.response.NoSuchDevice? <==>
      !r.response.UnknownAction? && !(env.lookupSucceeds && RequestedDevice(req.dispositivoId) in devices)
    ensures r.response.UnknownAction? || r.response.NoSuchDevice? ==> r.devices == devices && r.effects == []
    ensures r.response.WriteFailed? <==>
      !r.response.UnknownAction? && !r.response.NoSuchDevice? && !env.writeSucceeds
    ensures r.response.WriteFailed? ==>
      r.devices == devices && r.effects == (if TurnsOff(route) then [Published(Parar, env.stopAccepted)] else [])
    ensures r.response.Switched? ==>
      var id := RequestedDevice(req.dispositivoId);
      && r.response.exito
      && r.response.dispositivoId == id
      && (r.response.estado == ACTIVO <==> !TurnsOff(route))
      && (r.response.estado == INACTIVO <==> TurnsOff(route))
      && r.response.comandoMqtt == MqttStatus(env.powerAccepted)
      && id in devices
      && r.devices == devices[id := devices[id].(estado := r.response.estado, updatedAt := now)]
  {
    var id := RequestedDevice(req.dispositivoId);
    match ActionOf(route)
    case Err(_) => PowerOutcome(UnknownAction, devices, [])
    case Ok(a) =>
      if Lookup(DeviceTable(devices, env.lookupSucceeds), id).None? then PowerOutcome(NoSuchDevice, devices, [])
      else
        var stop := if a == TurnOff then [Published(Parar, env.stopAccepted)] else [];
        if !env.writeSucceeds then PowerOutcome(WriteFailed, devices, stop)
        else
          var estado := TargetEstado(a);
          var tail := SwitchEffects(route, a, req.userId, id, env, now);
          PowerOutcome(
            Switched(true, estado, id, MqttStatus(env.powerAccepted)),
            devices[id := devices[id].(estado := estado, updatedAt := now)],
            stop + tail)
  }

  /** A request that names a valid action on an existing device whose write
      succeeds: the whole outcome in one equation. */
  lemma SwitchedOutcome(route: Route, a: PowerAction, devices: map<int, Device>, req: PowerRequest, env: Collaborators, now: Timestamp)
    requires ActionOf(route) == Ok(a)
    requires env.lookupSucceeds && RequestedDevice(req.dispositivoId) in devices && env.writeSucceeds
    ensures
      var id := RequestedDevice(req.dispositivoId);
      PowerTransition(route, devices, req, env, now) == PowerOutcome(
        Switched(true, TargetEstado(a), id, MqttStatus(env.powerAccepted)),
        devices[id := devices[id].(estado := TargetEstado(a), updatedAt := now)],
        (if a == TurnOff then [Published(Parar, env.stopAccepted)] else []) + SwitchEffects(route, a, req.userId, id, env, now))
  {
  }

  /** What follows a successful lookup (and the `parar` of a power-off):
      the state write, the power command, then the rows the store keeps. */
  function SwitchEffects(route: Route, a: PowerAction, userId: int, id: int, env: Collaborators, now: Timestamp): (effects: seq<Effect>)
    ensures |effects| >= 2
    ensures effects[0] == StateWritten(id, TargetEstado(a), now)
    ensures effects[1] == Published(PowerCommand(a), env.powerAccepted)
    ensures forall e :: e in effects[2..] ==> e.Logged? || e.Alerted?
  {
    var w := StateWritten(id, TargetEstado(a), now);
    var p := Published(PowerCommand(a), env.powerAccepted);
    var log := if env.logStored then [Logged(AuditEntry(route, a, userId, id))] else [];
    var alert := match AlertOf(route, a, userId, id)
      case Some(al) => if env.alertStored then [Alerted(al)] else []
      case None => [];
    [w] + [p] + log + alert
  }

  /** After the write, exactly the power command is published, the log row
      is there exactly when the store takes it, and so is the alert row of a
      dedicated route. */
  lemma SwitchEffectsProjections(route: Route, a: PowerAction, userId: int, id: int, env: Collaborators, now: Timestamp)
    ensures
      var effects := SwitchEffects(route, a, userId, id, env, now);
      && Commands(effects) == [PowerCommand(a)]
      && Logs(effects) == (if env.logStored then [AuditEntry(route, a, userId, id)] else [])
      && Alerts(effects) == (if env.alertStored && !route.RouteEstado? then [PowerAlert(a, userId, id)] else [])
  {
    var w := StateWritten(id, TargetEstado(a), now);
    var p := Published(PowerCommand(a), env.powerAccepted);
    var log := if env.logStored then [Logged(AuditEntry(route, a, userId, id))] else [];
    var alert := match AlertOf(route, a, userId, id)
      case Some(al) => if env.alertStored then [Alerted(al)] else []
      case None => [];
    AuditTail(w, p, log, alert);
  }

  /** The projections of a write, a publish, at most one log row and at most
      one alert row, in that order. */
  lemma AuditTail(w: Effect, p: Effect, log: seq<Effect>, alert: seq<Effect>)
    requires w.StateWritten? && p.Published?
    requires |log| <= 1 && forall e :: e in log ==> e.Logged?
    requires |alert| <= 1 && forall e :: e in alert ==> e.Alerted?
    ensures Commands([w] + [p] + log + alert) == [p.command]
    ensures Logs([w] + [p] + log + alert) == if log == [] then [] else [log[0].entry]
    ensures Alerts([w] + [p] + log + alert) == if alert == [] then [] else [alert[0].alert]
  {
    OneEffect(w);
    OneEffect(p);
    if log != [] { OneEffect(log[0]); assert log == [log[0]]; }
    if alert != [] { OneEffect(alert[0]); assert alert == [alert[0]]; }
    CommandsAppend([w] + [p] + log, alert);
    CommandsAppend([w] + [p], log);
    CommandsAppend([w], [p]);
    LogsAppend([w] + [p] + log, alert);
    LogsAppend([w] + [p], log);
    LogsAppend([w], [p]);
    AlertsAppend([w] + [p] + log, alert);
    AlertsAppend([w] + [p], log);
    AlertsAppend([w], [p]);
  }

  /** A successful transition publishes `parar` (power-off only) and then
      exactly one power command, and stores at most one log row and at most
      one alert row, each exactly when the store takes it; the unified route
      never stores an alert. */
  lemma SwitchedProjections(route: Route, devices: map<int, Device>, req: PowerRequest, env: Collaborators, now: Timestamp)
    requires PowerTransition(route, devices, req, env, now).response.Switched?
    ensures
      var r := PowerTransition(route, devices, req, env, now);
      && Commands(r.effects) ==
           (if TurnsOff(route) then [Parar] else []) + [PowerCommand(if TurnsOff(route) then TurnOff else TurnOn)]
      && (|Logs(r.effects)| == 1 <==> env.logStored)
      && (|Alerts(r.effects)| == 1 <==> env.alertStored && !route.RouteEstado?)
      && |Logs(r.effects)| <= 1 && |Alerts(r.effects)| <= 1
  {
    var id := RequestedDevice(req.dispositivoId);
    var a := ActionOf(route).value;
    var stop := if a == TurnOff then [Published(Parar, env.stopAccepted)] else [];
    var tail := SwitchEffects(route, a, req.userId, id, env, now);
    SwitchedOutcome(route, a, devices, req, env, now);
    SwitchEffectsProjections(route, a, req.userId, id, env, now);
    OneEffect(Published(Parar, env.stopAccepted));
    CommandsAppend(stop, tail);
    LogsAppend(stop, tail);
    AlertsAppend(stop, tail);
  }

  /** Power-off stops the device before anything else happens: `parar` is the
      first effect, it precedes the state write, and the write precedes the
      `apagar` command. Every successful transition persists before it
      publishes and publishes before it logs. */
  lemma EffectOrder(route: Route, devices: map<int, Device>, req: PowerRequest, env: Collaborators, now: Timestamp)
    requires PowerTransition(route, devices, req, env, now).response.Switched?
    ensures
      var r := PowerTransition(route, devices, req, env, now);
      var id := RequestedDevice(req.dispositivoId);
      var estado := r.response.estado;
      var power := if TurnsOff(route) then Apagar(INACTIVO) else Encender(ACTIVO);
      && Before(r.effects, StateWritten(id, estado, now), Published(power, env.powerAccepted))
      && (TurnsOff(route) ==>
            && r.effects[0] == Published(Parar, env.stopAccepted)
            && Before(r.effects, Published(Parar, env.stopAccepted), StateWritten(id, INACTIVO, now))
            && Before(r.effects, Published(Parar, env.stopAccepted), Published(Apagar(INACTIVO), env.powerAccepted)))
      && (forall l :: Logged(l) in r.effects ==> Before(r.effects, Published(power, env.powerAccepted), Logged(l)))
  {
    var r := PowerTransition(route, devices, req, env, now);
    var power := if TurnsOff(route) then Apagar(INACTIVO) else Encender(ACTIVO);
    var k := SwitchedLayout(route, devices, req, env, now);
    assert r.effects[k + 1] in r.effects[k + 1..];
    if TurnsOff(route) {
      assert r.effects[1] in r.effects[1..];
      assert r.effects[2] in r.effects[1..];
    }
    forall l | Logged(l) in r.effects
      ensures Before(r.effects, Published(power, env.powerAccepted), Logged(l))
    {
      var i :| 0 <= i < |r.effects| && r.effects[i] == Logged(l);
      assert r.effects[k + 2..][i - (k + 2)] == Logged(l);
    }
  }

  /** Where the effects of a successful transition sit: `k` is 1 when a
      `parar` leads, the write follows at `k`, the power command at `k + 1`,
      and only rows of the store come after it. */
  lemma SwitchedLayout(route: Route, devices: map<int, Device>, req: PowerRequest, env: Collaborators, now: Timestamp)
    returns (k: nat)
    requires PowerTransition(route, devices, req, env, now).response.Switched?
    ensures
      var r := PowerTransition(route, devices, req, env, now);
      var power := if TurnsOff(route) then Apagar(INACTIVO) else Encender(ACTIVO);
      && (k == 1 <==> TurnsOff(route)) && (k == 0 <==> !TurnsOff(route))
      && k + 2 <= |r.effects|
      && (TurnsOff(route) ==> r.effects[0] == Published(Parar, env.stopAccepted))
      && r.effects[k] == StateWritten(RequestedDevice(req.dispositivoId), r.response.estado, now)
      && r.effects[k + 1] == Published(power, env.powerAccepted)
      && forall i :: 0 <= i < |r.effects| && r.effects[i].Logged? ==> i >= k + 2
  {
    var r := PowerTransition(route, devices, req, env, now);
    var id := RequestedDevice(req.dispositivoId);
    var a := ActionOf(route).value;
    var stop := if a == TurnOff then [Published(Parar, env.stopAccepted)] else [];
    var tail := SwitchEffects(route, a, req.userId, id, env, now);
    SwitchedOutcome(route, a, devices, req, env, now);
    assert r.effects == stop + tail;
    k := |stop|;
    forall i | 0 <= i < |r.effects| && r.effects[i].Logged? ensures i >= k + 2 {
      assert i != k && i != k + 1;
      assert TurnsOff(route) ==> i != 0;
    }
  }

  /** A failed state write still leaves the `parar` of a power-off behind:
      it was published before the write was attempted. */
  lemma StopSurvivesFailedWrite(route: Route, devices: map<int, Device>, req: PowerRequest, env: Collaborators, now: Timestamp)
    requires PowerTransition(route, devices, req, env, now).response.WriteFailed?
    ensures
      var r := PowerTransition(route, devices, req, env, now);
      && Commands(r.effects) == (if TurnsOff(route) then [Parar] else [])
      && Logs(r.effects) == [] && Alerts(r.effects) == []
      && forall e :: e in r.effects ==> !e.StateWritten?
  {
  }

  /** `PUT /estado/encender` and `PUT /estado/apagar` answer, persist and
      publish exactly what `/encender` and `/apagar` do; they differ only in
      the log's `accion` and in writing no alert. */
  lemma UnifiedMatchesDedicated(
    accion: string, devices: map<int, Device>, req: PowerRequest, env: Collaborators, now: Timestamp)
    requires accion == "encender" || accion == "apagar"
    ensures
      var u := PowerTransition(RouteEstado(accion), devices, req, env, now);
      var d := PowerTransition(if accion == "encender" then RouteEncender else RouteApagar, devices, req, env, now);
      && u.response == d.response
      && u.devices == d.devices
      && Commands(u.effects) == Commands(d.effects)
      && Alerts(u.effects) == []
      && (forall l :: l in Logs(u.effects) ==> l.accion == "robot_" + accion)
  {
    var u := PowerTransition(RouteEstado(accion), devices, req, env, now);
    var a := if accion == "encender" then TurnOn else TurnOff;
    assert ActionOf(RouteEstado(accion)) == Ok(a);
    if u.response.Switched? {
      SwitchedProjections(RouteEstado(accion), devices, req, env, now);
      SwitchedProjections(if accion == "encender" then RouteEncender else RouteApagar, devices, req, env, now);
      var id := RequestedDevice(req.dispositivoId);
      var stop := if a == TurnOff then [Published(Parar, env.stopAccepted)] else [];
      var tail := SwitchEffects(RouteEstado(accion), a, req.userId, id, env, now);
      SwitchEffectsProjections(RouteEstado(accion), a, req.userId, id, env, now);
      assert u.effects == stop + tail;
      OneEffect(Published(Parar, env.stopAccepted));
      LogsAppend(stop, tail);
      assert Logs(u.effects) == Logs(tail);
    }
  }

  /** The publish results reach the caller only through `comando_mqtt`:
      flipping them changes neither the status, nor `exito`, nor the table. */
  lemma PublishResultOnlyReachesComandoMqtt(
    route: Route, devices: map<int, Device>, req: PowerRequest, env: Collaborators, now: Timestamp,
    stopAccepted: bool, powerAccepted: bool)
    ensures
      var r := PowerTransition(route, devices, req, env, now);
      var r' := PowerTransition(route, devices, req, env.(stopAccepted := stopAccepted, powerAccepted := powerAccepted), now);
      && HttpStatus(r.response) == HttpStatus(r'.response)
      && r.devices == r'.devices
      && Commands(r.effects) == Commands(r'.effects)
      && (r.response.Switched? ==>
            r.response.exito && r'.response.exito && r.response.estado == r'.response.estado
            && r.response == r'.response.(comandoMqtt := r.response.comandoMqtt))
  {
    var env' := env.(stopAccepted := stopAccepted, powerAccepted := powerAccepted);
    if PowerTransition(route, devices, req, env, now).response.Switched? {
      SwitchedProjections(route, devices, req, env, now);
      SwitchedProjections(route, devices, req, env', now);
    }
  }

  /** The log and alert inserts are caught: whether the store takes those
      rows changes neither the response, nor the table, nor the commands
      sent. */
  lemma StoreFailuresOnlyReachRows(
    route: Route, devices: map<int, Device>, req: PowerRequest, env: Collaborators, now: Timestamp,
    logStored: bool, alertStored: bool)
    ensures
      var r := PowerTransition(route, devices, req, env, now);
      var r' := PowerTransition(route, devices, req, env.(logStored := logStored, alertStored := alertStored), now);
      && r.response == r'.response
      && r.devices == r'.devices
      && Commands(r.effects) == Commands(r'.effects)
  {
    var env' := env.(logStored := logStored, alertStored := alertStored);
    if PowerTransition(route, devices, req, env, now).response.Switched? {
      SwitchedProjections(route, devices, req, env, now);
      SwitchedProjections(route, devices, req, env', now);
    }
  }

  /** After a successful power request, `/estado-actual` on the same device
      reports the new `estado`, with `encendido` true after power-on and
      false after power-off. */
  lemma TransitionThenEstadoActual(
    route: Route, devices: map<int, Device>, req: PowerRequest, env: Collaborators, now: Timestamp)
    requires PowerTransition(route, devices, req, env, now).response.Switched?
    ensures
      var r := PowerTransition(route, devices, req, env, now);
      var s := EstadoActual(DeviceTable(r.devices, true), req.dispositivoId);
      && s.CurrentState?
      && s.estado == r.response.estado
      && (s.encendido <==> !TurnsOff(route))
  {
  }
}
