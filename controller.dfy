/** The write side of controller.js as the handlers run it: a device table
    that the power routes update in place, and the ordered journal of what
    went out to the message channel, the `logs` table and the `alertas`
    table. Collaborator answers (store success, publish results) are
    parameters; each handler states its new state in terms of the old one. */
module RobotController {
  import opened RobotTypes
  import opened CommandValidation
  import opened PowerSpec
  import opened StatusViews

  /** The response of `/mover`, `/rotar` and `/buscar`. */
  datatype CommandResponse = Sent(exito: bool, comando: Command) | Rejected(error: ValidationError)

  function CommandStatus(r: CommandResponse): int
  {
    if r.Rejected? then 400 else 200
  }

  class RobotController {
    /** The `dispositivos` table, keyed by id. */
    var devices: map<int, Device>
    /** Every publish, state write, log row and alert row, oldest first. */
    var journal: seq<Effect>

    constructor (initial: map<int, Device>)
      ensures devices == initial && journal == []
    {
      devices := initial;
      journal := [];
    }

    /** `enviarComandoRobot`: hands the command to the channel and returns
        whatever the channel answered. */
    method Publish(command: Command, accepted: bool) returns (sent: bool)
      modifies this
      ensures sent == accepted
      ensures devices == old(devices)
      ensures journal == old(journal) + [Published(command, accepted)]
    {
      journal := journal + [Published(command, accepted)];
      sent := accepted;
    }

    /** `obtenerDatos('dispositivos', { id })`: the device exists when the
        query succeeds and returns a row. */
    method FindDevice(id: int, lookupSucceeds: bool) returns (found: bool)
      ensures found <==> lookupSucceeds && id in devices
    {
      found := Lookup(DeviceTable(devices, lookupSucceeds), id).Some?;
    }

    /** `actualizarDatos('dispositivos', { estado, updated_at }, { id })`. */
    method WriteEstado(id: int, estado: string, now: Timestamp, succeeds: bool) returns (ok: bool)
      requires id in devices
      modifies this
      ensures ok == succeeds
      ensures ok ==> devices == old(devices)[id := old(devices)[id].(estado := estado, updatedAt := now)]
      ensures ok ==> journal == old(journal) + [StateWritten(id, estado, now)]
      ensures !ok ==> devices == old(devices) && journal == old(journal)
    {
      ok := succeeds;
      if ok {
        devices := devices[id := devices[id].(estado := estado, updatedAt := now)];
        journal := journal + [StateWritten(id, estado, now)];
      }
    }

    /** `insertarDatos('logs', ...)` inside a try/catch: a row the store
        rejects is simply not there. */
    method InsertLog(entry: LogEntry, stored: bool)
      modifies this
      ensures devices == old(devices)
      ensures journal == old(journal) + (if stored then [Logged(entry)] else [])
    {
      if stored {
        journal := journal + [Logged(entry)];
      }
    }

    /** `insertarDatos('alertas', ...)` inside a try/catch. */
    method InsertAlert(alert: Alert, stored: bool)
      modifies this
      ensures devices == old(devices)
      ensures journal == old(journal) + (if stored then [Alerted(alert)] else [])
    {
      if stored {
        journal := journal + [Alerted(alert)];
      }
    }

    /** The steps every power route shares once the device is found (and,
        for a power-off, stopped): persist the new `estado`, answer 500 if
        that fails, otherwise publish the power command and store the log
        row and, on the dedicated routes, the alert row. */
    method Commit(route: Route, a: PowerAction, userId: int, id: int, env: Collaborators, now: Timestamp)
      returns (resp: PowerResponse)
      requires ActionOf(route) == Ok(a) && id in devices
      modifies this
      ensures !env.writeSucceeds ==> resp == WriteFailed && devices == old(devices) && journal == old(journal)
      ensures env.writeSucceeds ==>
        && resp == Switched(true, TargetEstado(a), id, MqttStatus(env.powerAccepted))
        && devices == old(devices)[id := old(devices)[id].(estado := TargetEstado(a), updatedAt := now)]
        && journal == old(journal) + SwitchEffects(route, a, userId, id, env, now)
    {
      var estado := TargetEstado(a);
      var written := WriteEstado(id, estado, now, env.writeSucceeds);
      if !written {
        return WriteFailed;
      }
      var sent := Publish(PowerCommand(a), env.powerAccepted);
      InsertLog(AuditEntry(route, a, userId, id), env.logStored);
      if !route.RouteEstado? {
        InsertAlert(PowerAlert(a, userId, id), env.alertStored);
      }
      resp := Switched(true, estado, id, MqttStatus(sent));
      ghost var w := StateWritten(id, estado, now);
      ghost var p := Published(PowerCommand(a), env.powerAccepted);
      ghost var log := if env.logStored then [Logged(AuditEntry(route, a, userId, id))] else [];
      ghost var alert := if !route.RouteEstado? && env.alertStored then [Alerted(PowerAlert(a, userId, id))] else [];
      assert journal == old(journal) + [w] + [p] + log + alert;
      AppendAssoc(old(journal), [w], [p]);
      AppendAssoc(old(journal), [w] + [p], log);
      AppendAssoc(old(journal), [w] + [p] + log, alert);
    }

    /** POST /encender. */
    method PostEncender(req: PowerRequest, env: Collaborators, now: Timestamp) returns (resp: PowerResponse)
      modifies this
      ensures
        var o := PowerTransition(RouteEncender, old(devices), req, env, now);
        resp == o.response && devices == o.devices && journal == old(journal) + o.effects
    {
      var id := RequestedDevice(req.dispositivoId);
      var found := FindDevice(id, env.lookupSucceeds);
      if !found {
        return NoSuchDevice;
      }
      resp := Commit(RouteEncender, TurnOn, req.userId, id, env, now);
      if env.writeSucceeds {
        SwitchedOutcome(RouteEncender, TurnOn, old(devices), req, env, now);
        assert [] + SwitchEffects(RouteEncender, TurnOn, req.userId, id, env, now)
          == SwitchEffects(RouteEncender, TurnOn, req.userId, id, env, now);
      }
    }

    /** POST /apagar: `parar` goes out before the state write is attempted. */
    method PostApagar(req: PowerRequest, env: Collaborators, now: Timestamp) returns (resp: PowerResponse)
      modifies this
      ensures
        var o := PowerTransition(RouteApagar, old(devices), req, env, now);
        resp == o.response && devices == o.devices && journal == old(journal) + o.effects
    {
      var id := RequestedDevice(req.dispositivoId);
      var found := FindDevice(id, env.lookupSucceeds);
      if !found {
        return NoSuchDevice;
      }
      var _ := Publish(Parar, env.stopAccepted);
      resp := Commit(RouteApagar, TurnOff, req.userId, id, env, now);
      if env.writeSucceeds {
        SwitchedOutcome(RouteApagar, TurnOff, old(devices), req, env, now);
        AppendAssoc(old(journal), [Published(Parar, env.stopAccepted)],
          SwitchEffects(RouteApagar, TurnOff, req.userId, id, env, now));
      }
    }

    /** PUT /estado/:accion: the action is checked before the device lookup;
        a log row is written but no alert. */
    method PutEstado(accion: string, req: PowerRequest, env: Collaborators, now: Timestamp) returns (resp: PowerResponse)
      modifies this
      ensures
        var o := PowerTransition(RouteEstado(accion), old(devices), req, env, now);
        resp == o.response && devices == o.devices && journal == old(journal) + o.effects
    {
      var parsed := ParsePowerAction(accion);
      if parsed.Err? {
        return UnknownAction;
      }
      var a := parsed.value;
      var id := RequestedDevice(req.dispositivoId);
      var found := FindDevice(id, env.lookupSucceeds);
      if !found {
        return NoSuchDevice;
      }
      if accion == "apagar" {
        var _ := Publish(Parar, env.stopAccepted);
      }
      ghost var stop := if a == TurnOff then [Published(Parar, env.stopAccepted)] else [];
      assert journal == old(journal) + stop;
      resp := Commit(RouteEstado(accion), a, req.userId, id, env, now);
      if env.writeSucceeds {
        ghost var tail := SwitchEffects(RouteEstado(accion), a, req.userId, id, env, now);
        SwitchedOutcome(RouteEstado(accion), a, old(devices), req, env, now);
        AppendAssoc(old(journal), stop, tail);
      }
    }

    /** Validate, then publish the command; a rejected request publishes
        nothing, and `exito` is exactly what the channel answered. */
    method Dispatch(validated: Result<Command, ValidationError>, accepted: bool) returns (resp: CommandResponse)
      modifies this
      ensures devices == old(devices)
      ensures validated.Err? ==> resp == Rejected(validated.error) && journal == old(journal)
      ensures validated.Ok? ==>
        && resp == Sent(accepted, validated.value)
        && CommandStatus(resp) == 200
        && journal == old(journal) + [Published(validated.value, accepted)]
    {
      match validated
      case Err(e) =>
        resp := Rejected(e);
      case Ok(command) =>
        var ok := Publish(command, accepted);
        resp := Sent(ok, command);
    }

    /** POST /mover. */
    method PostMover(velocidad: Option<int>, direccion: Option<string>, accepted: bool) returns (resp: CommandResponse)
      modifies this
      ensures devices == old(devices)
      ensures resp.Rejected? <==> ValidateMove(velocidad, direccion).Err?
      ensures resp.Rejected? ==> resp.error == ValidateMove(velocidad, direccion).error
      ensures resp.Rejected? ==> CommandStatus(resp) == 400 && journal == old(journal)
      ensures resp.Sent? ==>
        && resp.exito == accepted
        && resp.comando == Mover(velocidad.value, direccion.value)
        && journal == old(journal) + [Published(resp.comando, accepted)]
    {
      resp := Dispatch(ValidateMove(velocidad, direccion), accepted);
    }

    /** POST /rotar. */
    method PostRotar(angulo: Option<int>, accepted: bool) returns (resp: CommandResponse)
      modifies this
      ensures devices == old(devices)
      ensures resp.Rejected? <==> ValidateRotation(angulo).Err?
      ensures resp.Rejected? ==> resp.error == ValidateRotation(angulo).error
      ensures resp.Rejected? ==> CommandStatus(resp) == 400 && journal == old(journal)
      ensures resp.Sent? ==>
        && resp.exito == accepted
        && resp.comando == Rotar(angulo.value)
        && journal == old(journal) + [Published(resp.comando, accepted)]
    {
      resp := Dispatch(ValidateRotation(angulo), accepted);
    }

    /** POST /buscar: the published command and the echoed `comando` are the
        same value, with the defaulted distance. */
    method PostBuscar(objeto: Option<string>, distanciaMax: Option<int>, accepted: bool) returns (resp: CommandResponse)
      modifies this
      ensures devices == old(devices)
      ensures resp.Rejected? <==> !Truthy(objeto)
      ensures resp.Rejected? ==> resp.error == TargetRequired
      ensures resp.Rejected? ==> CommandStatus(resp) == 400 && journal == old(journal)
      ensures resp.Sent? ==>
        && resp.exito == accepted
        && resp.comando == Buscar(objeto.value, SearchDistance(distanciaMax))
        && journal == old(journal) + [Published(resp.comando, accepted)]
    {
      resp := Dispatch(ValidateSearch(objeto, distanciaMax), accepted);
    }

    /** POST /parar, /volver_inicio and /calibrar: publish a command that
        takes no parameters; `exito` is the channel's answer and the status
        stays 200 either way. */
    method PostParar(accepted: bool) returns (exito: bool)
      modifies this
      ensures exito == accepted
      ensures devices == old(devices) && journal == old(journal) + [Published(Parar, accepted)]
    {
      exito := Publish(Parar, accepted);
    }

    method PostVolverInicio(accepted: bool) returns (exito: bool)
      modifies this
      ensures exito == accepted
      ensures devices == old(devices) && journal == old(journal) + [Published(Inicio, accepted)]
    {
      exito := Publish(Inicio, accepted);
    }

    method PostCalibrar(accepted: bool) returns (exito: bool)
      modifies this
      ensures exito == accepted
      ensures devices == old(devices) && journal == old(journal) + [Published(Calibrar, accepted)]
    {
      exito := Publish(Calibrar, accepted);
    }
  }
}
