/** The device status read routes of controller.js: `/estado-actual` (one
    device row, with the derived `encendido` flag) and `/estado` (device 1
    combined with its first stored position sample). */
module StatusViews {
  import opened RobotTypes
  import opened TelemetryViews

  const NOMBRE_DEFECTO: string := "Robot 1"

  /** The `dispositivos` table and whether querying it succeeds. */
  datatype DeviceTable = DeviceTable(devices: map<int, Device>, readable: bool)

  /** Every row sits under its own `id`, as a store queried by `{ id }`
      guarantees. */
  predicate KeyedById(t: DeviceTable)
  {
    forall k :: k in t.devices ==> t.devices[k].id == k
  }

  /** The device a lookup by id finds: none when the query fails or no row
      has that id. */
  function Lookup(t: DeviceTable, id: int): (r: Option<Device>)
    ensures r.Some? <==> t.readable && id in t.devices
    ensures r.Some? ==> r.value == t.devices[id]
  {
    if t.readable && id in t.devices then Some(t.devices[id]) else None
  }

  datatype CurrentState =
    | DeviceNotFound
    | CurrentState(
        dispositivoId: int, nombre: string, tipo: string, estado: string,
        encendido: bool, ubicacion: string, ultimaActualizacion: Timestamp, metadata: string)

  /** GET /estado-actual?dispositivo_id: the stored row of the device, with
      `encendido` true exactly when its `estado` is "activo"; 404 when the
      device cannot be found. */
  function EstadoActual(t: DeviceTable, dispositivoId: Option<int>): (r: CurrentState)
    ensures r.DeviceNotFound? <==> Lookup(t, RequestedDevice(dispositivoId)).None?
    ensures r.CurrentState? ==>
      var d := t.devices[RequestedDevice(dispositivoId)];
      && r.dispositivoId == d.id && r.nombre == d.nombre && r.tipo == d.tipo
      && r.estado == d.estado && r.ubicacion == d.ubicacion
      && r.ultimaActualizacion == d.updatedAt && r.metadata == d.metadata
      && (r.encendido <==> d.estado == ACTIVO)
    ensures r.CurrentState? && KeyedById(t) ==> r.dispositivoId == RequestedDevice(dispositivoId)
  {
    match Lookup(t, RequestedDevice(dispositivoId))
    case None => DeviceNotFound
    case Some(d) =>
      CurrentState(d.id, d.nombre, d.tipo, d.estado, d.estado == ACTIVO, d.ubicacion, d.updatedAt, d.metadata)
  }

  /** `s || fallback` for a string column. */
  function OrDefault(s: string, fallback: string): (r: string)
    ensures r != "" || fallback == ""
    ensures s != "" ==> r == s
    ensures s == "" ==> r == fallback
  {
    if s == "" then fallback else s
  }

  datatype RobotStatus =
    | StatusQueryFailed
    | RobotStatus(
        dispositivo: string, estado: string, bateria: int,
        x: int, y: int, angulo: int, timestamp: Timestamp)

  /** GET /estado: device 1 and the FIRST position row the store returns
      (the rows are not sorted here), with "Robot 1", "desconocido", zeros
      and the current time standing in for missing data. Only a failed
      query is an error. */
  function EstadoGeneral(devices: DeviceTable, positions: Table<PositionSample>, now: Timestamp): (r: RobotStatus)
    ensures r.StatusQueryFailed? <==> !positions.readable || !devices.readable
    ensures r.RobotStatus? ==>
      var ps := RobotPositions(positions);
      && (ps == [] ==> r.bateria == 0 && r.x == 0 && r.y == 0 && r.angulo == 0 && r.timestamp == now)
      && (ps != [] ==>
            r.bateria == ps[0].bateria && r.x == ps[0].x && r.y == ps[0].y
            && r.angulo == ps[0].angulo && r.timestamp == ps[0].fecha)
      && (ROBOT_ID !in devices.devices ==> r.dispositivo == NOMBRE_DEFECTO && r.estado == DESCONOCIDO)
      && (ROBOT_ID in devices.devices ==>
            var d := devices.devices[ROBOT_ID];
            && r.dispositivo == OrDefault(d.nombre, NOMBRE_DEFECTO)
            && r.estado == OrDefault(d.estado, DESCONOCIDO))
      && r.dispositivo != "" && r.estado != ""
  {
    if !positions.readable || !devices.readable then StatusQueryFailed
    else
      var ps := RobotPositions(positions);
      var device := Lookup(devices, ROBOT_ID);
      var nombre := if device.Some? then OrDefault(device.value.nombre, NOMBRE_DEFECTO) else NOMBRE_DEFECTO;
      var estado := if device.Some? then OrDefault(device.value.estado, DESCONOCIDO) else DESCONOCIDO;
      if ps == [] then RobotStatus(nombre, estado, 0, 0, 0, 0, now)
      else
        var p := ps[0];
        RobotStatus(nombre, estado, p.bateria, p.x, p.y, p.angulo, p.fecha)
  }
}
