/** The parameter checks that run before any command is published or any
    device row is touched (controller.js, `/mover`, `/rotar`, `/buscar` and
    `PUT /estado/:accion`). Each check is pure and returns either the command
    to publish or the first failing rule, in the order the handler tests them. */
module CommandValidation {
  import opened RobotTypes

  const DIRECCIONES: seq<string> := ["adelante", "atras", "izquierda", "derecha"]
  const VELOCIDAD_MAX: int := 255
  const ANGULO_MAX: int := 360
  const DISTANCIA_MAX_DEFECTO: int := 500

  /** The 400 responses of the command routes. */
  datatype ValidationError =
    | MissingSpeedOrDirection   // 'Faltan velocidad y dirección'
    | InvalidDirection          // 'Dirección no válida'
    | SpeedOutOfRange           // 'Velocidad debe estar entre 0 y 255'
    | AngleRequired             // 'Ángulo requerido'
    | AngleOutOfRange           // 'Ángulo debe estar entre -360 y 360'
    | TargetRequired            // 'Objeto a buscar requerido'
    | InvalidAction             // 'Acción inválida. Use: encender o apagar'

  /** The two transitions of the unified power route. */
  datatype PowerAction = TurnOn | TurnOff

  /** `/mover`: both fields present, a known direction, a speed in 0..255. */
  function ValidateMove(velocidad: Option<int>, direccion: Option<string>): (r: Result<Command, ValidationError>)
    ensures r.Ok? <==>
      velocidad.Some? && direccion.Some? && direccion.value in DIRECCIONES
      && 0 <= velocidad.value <= VELOCIDAD_MAX
    ensures r.Ok? ==> r.value == Mover(velocidad.value, direccion.value)
    ensures r == Err(MissingSpeedOrDirection) <==> velocidad.None? || !Truthy(direccion)
    ensures r == Err(InvalidDirection) <==>
      velocidad.Some? && Truthy(direccion) && direccion.value !in DIRECCIONES
    ensures r.Err? ==> r.error in {MissingSpeedOrDirection, InvalidDirection, SpeedOutOfRange}
  {
    if velocidad.None? || !Truthy(direccion) then Err(MissingSpeedOrDirection)
    else if direccion.value !in DIRECCIONES then Err(InvalidDirection)
    else if velocidad.value < 0 || velocidad.value > VELOCIDAD_MAX then Err(SpeedOutOfRange)
    else Ok(Mover(velocidad.value, direccion.value))
  }

  /** `/rotar`: an angle is present and lies in -360..360. */
  function ValidateRotation(angulo: Option<int>): (r: Result<Command, ValidationError>)
    ensures r.Ok? <==> angulo.Some? && -ANGULO_MAX <= angulo.value <= ANGULO_MAX
    ensures r.Ok? ==> r.value == Rotar(angulo.value)
    ensures r == Err(AngleRequired) <==> angulo.None?
    ensures r.Err? ==> r.error in {AngleRequired, AngleOutOfRange}
  {
    if angulo.None? then Err(AngleRequired)
    else if angulo.value < -ANGULO_MAX || angulo.value > ANGULO_MAX then Err(AngleOutOfRange)
    else Ok(Rotar(angulo.value))
  }

  /** `distancia_max || 500`: a falsy distance (absent or 0) becomes 500. */
  function SearchDistance(distanciaMax: Option<int>): (d: int)
    ensures distanciaMax.Some? && distanciaMax.value != 0 ==> d == distanciaMax.value
    ensures distanciaMax.None? || distanciaMax.value == 0 ==> d == DISTANCIA_MAX_DEFECTO
    ensures d != 0
  {
    if distanciaMax.Some? && distanciaMax.value != 0 then distanciaMax.value else DISTANCIA_MAX_DEFECTO
  }

  /** `/buscar`: the target must be truthy; the distance falls back to 500. */
  function ValidateSearch(objeto: Option<string>, distanciaMax: Option<int>): (r: Result<Command, ValidationError>)
    ensures r.Ok? <==> Truthy(objeto)
    ensures r.Err? ==> r.error == TargetRequired
    ensures r.Ok? ==> r.value.Buscar? && r.value.objeto == objeto.value && r.value.objeto != ""
    ensures r.Ok? ==> r.value.distanciaMax == SearchDistance(distanciaMax)
  {
    if !Truthy(objeto) then Err(TargetRequired)
    else Ok(Buscar(objeto.value, SearchDistance(distanciaMax)))
  }

  /** `PUT /estado/:accion`: only "encender" and "apagar" are accepted. */
  function ParsePowerAction(accion: string): (r: Result<PowerAction, ValidationError>)
    ensures r.Ok? <==> accion == "encender" || accion == "apagar"
    ensures r.Ok? ==> (r.value == TurnOn <==> accion == "encender")
    ensures r.Err? ==> r.error == InvalidAction
  {
    if accion == "encender" then Ok(TurnOn)
    else if accion == "apagar" then Ok(TurnOff)
    else Err(InvalidAction)
  }
}
