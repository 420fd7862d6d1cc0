# Robot command and state layer

A Dafny model of the robot router of the backend
(`Backend/src/robot/controller.js`): the handlers that check command
parameters, publish commands to the robot over the message channel, switch a
device on and off in the `dispositivos` table (with an audit row in `logs`
and an informational row in `alertas`), and the read routes that report the
device state, its positions and its object detections.

The model is split along the program's own structure:

- `robot_types.dfy` (`RobotTypes`): device, position and detection rows, the
  commands sent to the robot, and an ordered journal of externally visible
  effects (`Published`, `StateWritten`, `Logged`, `Alerted`) with its
  projections `Commands`, `Logs` and `Alerts`.
- `validation.dfy` (`CommandValidation`): the parameter checks of `/mover`,
  `/rotar`, `/buscar` and `PUT /estado/:accion`, in the order the handlers
  test them.
- `rows.dfy` (`Rows`): what the read routes do with the rows of a query:
  the store's equality filter, the stable sort by `fecha`, `slice(0, n)` with
  JavaScript's treatment of negative ends, and the insertion-ordered `Set`.
- `telemetry_views.dfy` (`TelemetryViews`): `/posicion`, `/detecciones`,
  `/detecciones/:objeto`, `/historial-movimientos` and `/resumen` as
  functions of the tables they query.
- `status_views.dfy` (`StatusViews`): `/estado-actual` and `/estado`.
- `power.dfy` (`PowerSpec`): `PowerTransition`, the specification of the three
  power routes as one function from the device table and the collaborators'
  answers to a response, a new table and the effects left behind, with the
  ordering and equivalence properties of the routes proved about it.
- `controller.dfy` (`RobotController`): a class holding the device table and
  the effect journal; each handler is a method that performs the steps one at
  a time, as the source does, and is proved to agree with the specification.

The collaborators (the database module and the message-channel client) are
not modelled: every answer they can give (lookup succeeds, the `estado` write
succeeds, each publish is accepted, the log and alert rows are stored) is an
input. The current time is an input (`now`).

Behaviour that the model keeps on purpose because the code has it:

- `PUT /estado/:accion` writes a log row (`robot_encender` / `robot_apagar`)
  but never an alert row, unlike `/encender` and `/apagar`.
- `parar` is published before the state write, so a failed write (500) still
  leaves that command sent.
- The publish result never changes `exito` or the status of a power route; it
  only selects `comando_mqtt`.
- `/historial-movimientos` sorts oldest first and then cuts, so it returns the
  OLDEST `limite` samples.
- `/estado` and `/resumen` read the first row the store returns, unsorted.
- `distancia_max || 500` treats an explicit 0 as absent.
- The parameterless commands (`/parar`, `/volver_inicio`, `/calibrar`)
  answer 200 with `exito: false` when the publish fails
  (controller.js:357-390).
- `/resumen` never tests `success`, so a failed query gives zero counts
  (controller.js:557-566).

## Model

| member | source | states |
|---|---|---|
| `RobotTypes.RequestedDevice` | Backend/src/robot/controller.js:14 | the addressed device is the given `dispositivo_id`, or 1 when absent |
| `CommandValidation.ValidateMove` | Backend/src/robot/controller.js:278-289 | accepted exactly when speed and a truthy direction are present, the direction is one of the four, and the speed is in 0..255; each rejection is the one the first failing check produces, and an accepted request yields `mover` with the given speed and direction |
| `CommandValidation.ValidateRotation` | Backend/src/robot/controller.js:310-316 | accepted exactly when the angle is present and in -360..360; absent gives "angle required", otherwise "out of range" |
| `CommandValidation.SearchDistance` | Backend/src/robot/controller.js:343 | a nonzero given distance is kept; absent or 0 becomes 500; the result is never 0 |
| `CommandValidation.ValidateSearch` | Backend/src/robot/controller.js:337-349 | accepted exactly when `objeto` is truthy; the command carries that label and the defaulted distance |
| `CommandValidation.ParsePowerAction` | Backend/src/robot/controller.js:170-174 | only "encender" and "apagar" are accepted, "encender" meaning power-on; anything else is the 400 of an invalid action |
| `Rows.Filter` | Backend/src/robot/controller.js:433-436 | the rows kept are exactly those satisfying the filter, each with its multiplicity in the input |
| `Rows.InsertBy` | Backend/src/robot/controller.js:413 | inserting into a ranked sequence keeps it ranked and adds exactly the one row |
| `Rows.SortBy` | Backend/src/robot/controller.js:412-413 | the sorted rows are ranked newest first and are a permutation of the input |
| `Rows.SliceLength` | Backend/src/robot/controller.js:414 | `slice(0, end)` keeps `end` rows when it is in range, all rows when it is larger, and drops `-end` rows from the back when it is negative |
| `Rows.SliceTo` | Backend/src/robot/controller.js:414 | the slice is the prefix of that length |
| `Rows.SortedPrefix` | Backend/src/robot/controller.js:412-414 | a prefix of a ranked sequence is ranked, drawn from it, and outranks every row cut off |
| `Rows.TopBy` | Backend/src/robot/controller.js:412-414 | sort-then-slice keeps as many rows as the slice allows, ranked, drawn from the input, each outranking every row left out |
| `Rows.Distinct` | Backend/src/robot/controller.js:560-565 | the labels seen, each once: a value is in the result iff it is in the input, and no value repeats |
| `Rows.DistinctOrder` | Backend/src/robot/controller.js:560-565 | the values come in the order of their first appearance in the input, as a `Set` iterates them |
| `TelemetryViews.SliceEnd` | Backend/src/robot/controller.js:398-414 | the slice end is the default (1, 50 or 100) when the parameter is absent, the parsed number when there is one, and 0, an empty page, when `parseInt` gives NaN |
| `TelemetryViews.DetectionFilter` | Backend/src/robot/controller.js:433-434 | a detection passes iff it is of device 1 and, when `objeto` is truthy, carries exactly that label |
| `TelemetryViews.RowsOrNone` | Backend/src/robot/controller.js:557-560 | a failed query contributes no rows; otherwise exactly the rows the filter keeps, with their multiplicity |
| `TelemetryViews.LatestPositions` | Backend/src/robot/controller.js:396-424 | 500 iff the query fails; `posicion: null` iff device 1 has no sample; otherwise `total` is the page length, the page holds only samples of device 1, newest first, and no sample left out is newer than one returned |
| `TelemetryViews.Detecciones` | Backend/src/robot/controller.js:430-453 | 500 iff the query fails; otherwise detections of device 1 (of the requested label when `objeto` is truthy), newest first, cut to `limite`, none left out newer than one returned |
| `TelemetryViews.DeteccionesDeObjeto` | Backend/src/robot/controller.js:459-486 | echoes the path label; the page holds only detections of device 1 with exactly that label, newest first, cut to `limite` |
| `TelemetryViews.HistorialMovimientos` | Backend/src/robot/controller.js:525-546 | samples of device 1 oldest first, cut to `limite`; no sample left out is older than one returned |
| `TelemetryViews.Labels` | Backend/src/robot/controller.js:560 | one label per detection, in order; a label occurs iff some detection carries it |
| `TelemetryViews.Resumen` | Backend/src/robot/controller.js:552-572 | counts are the sizes of the whole row sets; the labels are exactly those detected, without repetition, in the order they are first detected; `ultimaActividad` is present iff there is a sample and is the first row's `fecha`; no data gives 0, 0, [] and null |
| `StatusViews.Lookup` | Backend/src/robot/controller.js:243-251 | a device is found iff the query succeeds and a row has that id, and it is that row |
| `StatusViews.EstadoActual` | Backend/src/robot/controller.js:239-269 | 404 iff the device is not found; otherwise the stored row, with `encendido` true iff `estado` is "activo"; when every row sits under its own id, as the query by `{ id }` ensures, `dispositivoId` is the requested id |
| `StatusViews.OrDefault` | Backend/src/robot/controller.js:505-506 | a nonempty value is kept; an empty one becomes the fallback |
| `StatusViews.EstadoGeneral` | Backend/src/robot/controller.js:492-519 | 500 iff either query fails; the first stored sample of device 1 (or zeros and the current time) and the device's name and state (or "Robot 1" and "desconocido"), never empty |
| `PowerSpec.MqttStatus` | Backend/src/robot/controller.js:73 | `comando_mqtt` is "enviado" iff the publish was accepted, else "no_disponible" |
| `PowerSpec.AuditEntry` | Backend/src/robot/controller.js:43-49 | the log row carries the user, the device and the participle; the dedicated routes log `robot_` followed by the participle, the unified route `robot_` followed by the path's `accion` |
| `PowerSpec.PowerAlert` | Backend/src/robot/controller.js:56-63 | the alert row carries the user and the device, type `robot_` followed by the participle, severity "baja", unread |
| `PowerSpec.AlertOf` | Backend/src/robot/controller.js:132-143 | a dedicated route has an alert row for the device, the unified route none |
| `PowerSpec.PowerTransition` | Backend/src/robot/controller.js:12-233 | 400 iff the unified route names an unknown action; 404 iff otherwise the device is missing; both leave the table and the journal untouched; 500 iff otherwise the write fails, leaving the table unchanged and only the `parar` of a power-off behind; success reports `exito`, the device, "activo" exactly for power-on, `comando_mqtt` from the power publish, and updates exactly that device's `estado` and `updated_at` |
| `PowerSpec.SwitchEffects` | Backend/src/robot/controller.js:22-66 | after a successful lookup the state write comes first, the power command second, and only log and alert rows follow |
| `PowerSpec.SwitchEffectsProjections` | Backend/src/robot/controller.js:35-66 | those steps publish exactly the power command, store the audit row iff the store takes it, and the `PowerAlert` row exactly on a dedicated route whose store takes it |
| `PowerSpec.SwitchedProjections` | Backend/src/robot/controller.js:96-143 | a successful power-off publishes exactly `parar` then `apagar`, a power-on exactly `encender`; at most one log row and one alert row, each present iff stored, and never an alert on the unified route |
| `PowerSpec.EffectOrder` | Backend/src/robot/controller.js:96-116 | the state is persisted before the power command is published; a power-off publishes `parar` first, before the write and before `apagar`; every log row follows the power publish |
| `PowerSpec.StopSurvivesFailedWrite` | Backend/src/robot/controller.js:96-110 | a failed write leaves exactly one command, `parar`, iff the route powers off, and no state write, log or alert |
| `PowerSpec.UnifiedMatchesDedicated` | Backend/src/robot/controller.js:164-233 | `PUT /estado/encender` and `/estado/apagar` give the same response, table and published commands as `/encender` and `/apagar`, store no alert, and log `robot_<accion>` |
| `PowerSpec.PublishResultOnlyReachesComandoMqtt` | Backend/src/robot/controller.js:113-152 | changing what the channel answers changes neither the status, nor `exito`, nor the table, nor the commands sent; only `comando_mqtt` |
| `PowerSpec.StoreFailuresOnlyReachRows` | Backend/src/robot/controller.js:42-66 | whether the store takes the log and alert rows changes neither the response, nor the table, nor the commands sent |
| `PowerSpec.TransitionThenEstadoActual` | Backend/src/robot/controller.js:253-260 | after a successful power request `/estado-actual` finds the device with the new `estado`, `encendido` true after power-on and false after power-off |
| `RobotController.RobotController.Publish` | Backend/src/robot/controller.js:358 | the publish is journaled and its result is what the channel answered; the table is untouched |
| `RobotController.RobotController.FindDevice` | Backend/src/robot/controller.js:17-20 | found iff the lookup succeeds and the id is in the table |
| `RobotController.RobotController.WriteEstado` | Backend/src/robot/controller.js:23-33 | on success exactly that device's `estado` and `updated_at` change and the write is journaled; on failure nothing changes |
| `RobotController.RobotController.InsertLog` | Backend/src/robot/controller.js:42-52 | the log row is journaled iff the store takes it; a rejected row is swallowed |
| `RobotController.RobotController.InsertAlert` | Backend/src/robot/controller.js:55-66 | the alert row is journaled iff the store takes it |
| `RobotController.RobotController.Commit` | Backend/src/robot/controller.js:190-219 | a failed write answers 500 and changes nothing; otherwise the table is updated and the journal grows by exactly the specified write, publish, log and alert steps |
| `RobotController.RobotController.PostEncender` | Backend/src/robot/controller.js:12-80 | response, new table and appended effects are those of `PowerTransition` for `/encender` |
| `RobotController.RobotController.PostApagar` | Backend/src/robot/controller.js:86-157 | response, new table and appended effects (with `parar` first) are those of `PowerTransition` for `/apagar` |
| `RobotController.RobotController.PutEstado` | Backend/src/robot/controller.js:164-233 | response, new table and appended effects are those of `PowerTransition` for the unified route, the action checked before the lookup |
| `RobotController.RobotController.Dispatch` | Backend/src/robot/controller.js:291-300 | a rejected request publishes nothing; an accepted one publishes its command once and `exito` is the channel's answer, status 200 |
| `RobotController.RobotController.PostMover` | Backend/src/robot/controller.js:275-301 | 400 with no publish iff the move is invalid, carrying the error of the first failing check; otherwise `mover` with the given speed and direction is published and echoed |
| `RobotController.RobotController.PostRotar` | Backend/src/robot/controller.js:307-328 | 400 with no publish iff the rotation is invalid, carrying "angle required" or "out of range" as the validator decides; otherwise `rotar` with the angle is published and echoed |
| `RobotController.RobotController.PostBuscar` | Backend/src/robot/controller.js:334-351 | 400 with no publish, carrying "target required", iff `objeto` is falsy; otherwise the published and echoed command carry the label and the defaulted distance |
| `RobotController.RobotController.PostParar` | Backend/src/robot/controller.js:357-364 | publishes `parar` once; `exito` is the channel's answer |
| `RobotController.RobotController.PostVolverInicio` | Backend/src/robot/controller.js:370-377 | publishes `inicio` once; `exito` is the channel's answer |
| `RobotController.RobotController.PostCalibrar` | Backend/src/robot/controller.js:383-390 | publishes `calibrar` once; `exito` is the channel's answer |

## Left out

- HTTP plumbing: Express routing, the `verificarToken` authentication
  middleware, and the `mensaje`, `timestamp` and `detalle` fields of the
  responses. Statuses are kept as response constructors (`HttpStatus`,
  `CommandStatus`).
- The database module and the message-channel client are not part of this
  model: their answers are inputs, and the `error` text of a failed query is
  dropped.
- Exceptions thrown inside the handlers (the outer `catch` answering 500) are
  not modelled; only the failures the code tests for are.
- Concurrency: the awaited store calls of two requests can interleave; each
  handler is modelled as one atomic sequence of steps.
- `parseInt` of a non-numeric `dispositivo_id` (NaN): device ids are integers.
- JSON values of the wrong type: `velocidad`, `angulo` and `distancia_max` are
  either absent or integers, `objeto` and `direccion` either absent or
  strings; `null`, fractions, and a truthy non-string `objeto` such as `true`
  (which `/buscar` accepts and publishes) are not modelled.
- Dates: `fecha` and `updated_at` are integer instants; date parsing, invalid
  dates (a NaN comparator) and a falsy `fecha` (which `/estado` and `/resumen`
  would replace) are not modelled.
- The `ip_address`, `user_agent` and `descripcion` text of log rows: a log row
  keeps the user, the action, the device id and the participle of its
  description.
- Console output.
- Rows.SortBy: states that the result is ranked and a permutation of the
  input, not that rows of equal `fecha` keep their input order (the insertion
  does keep it, but that is not proved).
- StatusViews.EstadoGeneral: the numeric columns of the first sample are
  integers, so `|| 0` only matters for missing rows; a `null` column is not
  modelled.
