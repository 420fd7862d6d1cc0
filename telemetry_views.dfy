/** The telemetry read routes of controller.js: `/posicion`, `/detecciones`,
    `/detecciones/:objeto`, `/historial-movimientos` and `/resumen`. They never
    write; each is a function of the tables it queries. */
module TelemetryViews {
  import opened RobotTypes
  import opened Rows

  /** Every telemetry route reads the rows of device 1. */
  const ROBOT_ID: int := 1

  const POSICION_LIMIT: int := 1
  const DETECCIONES_LIMITE: int := 50
  const HISTORIAL_LIMITE: int := 100

  /** A table of the store and whether querying it succeeds. */
  datatype Table<T> = Table(rows: seq<T>, readable: bool)

  /** A whole-number query parameter after `parseInt`. */
  datatype QueryInt = Absent | Parsed(n: int) | NotANumber

  /** The end passed to `slice(0, parseInt(param))`, `param` defaulting to
      `default`; `slice(0, NaN)` keeps nothing. */
  function SliceEnd(q: QueryInt, default: int): (end: int)
    ensures q.Absent? ==> end == default
    ensures q.Parsed? ==> end == q.n
    ensures q.NotANumber? ==> end == 0
  {
    match q
    case Absent => default
    case Parsed(n) => n
    case NotANumber => 0
  }

  function PositionRecency(p: PositionSample): int { p.fecha }
  function PositionAge(p: PositionSample): int { -p.fecha }
  function DetectionRecency(d: Detection): int { d.fecha }

  function OfRobot(p: PositionSample): bool { p.dispositivoId == ROBOT_ID }

  /** The rows of device 1 the position query returns. */
  function RobotPositions(t: Table<PositionSample>): seq<PositionSample>
  {
    Filter(t.rows, OfRobot)
  }

  /** The filter `{ dispositivo_id: 1, objeto_detectado? }` of the detection
      query; a falsy label adds no condition. */
  function DetectionFilter(objeto: Option<string>): (keep: Detection -> bool)
    ensures !Truthy(objeto) ==> forall d :: keep(d) <==> d.dispositivoId == ROBOT_ID
    ensures Truthy(objeto) ==>
      forall d :: keep(d) <==> d.dispositivoId == ROBOT_ID && d.objetoDetectado == objeto.value
  {
    (d: Detection) => d.dispositivoId == ROBOT_ID && (!Truthy(objeto) || d.objetoDetectado == objeto.value)
  }

  /** A paged list response, or the 500 of a failed query. */
  datatype Listing<T> = Listed(total: nat, data: seq<T>) | QueryFailed

  /** `/posicion`: no sample at all is reported as `posicion: null`. */
  datatype PositionView = PositionQueryFailed | NoPosition | Positions(total: nat, data: seq<PositionSample>)

  /** GET /posicion?limit: the `limit` newest samples of device 1, newest first. */
  function LatestPositions(t: Table<PositionSample>, limit: QueryInt): (r: PositionView)
    ensures r.PositionQueryFailed? <==> !t.readable
    ensures r.NoPosition? <==> t.readable && RobotPositions(t) == []
    ensures r.Positions? ==>
      var rows := RobotPositions(t);
      && r.total == |r.data| == SliceLength(|rows|, SliceEnd(limit, POSICION_LIMIT))
      && multiset(r.data) <= multiset(rows)
      && (forall p :: p in r.data ==> p.dispositivoId == ROBOT_ID)
      && SortedBy(r.data, PositionRecency)
      && (forall p, q :: p in r.data && q in multiset(rows) - multiset(r.data) ==> p.fecha >= q.fecha)
  {
    if !t.readable then PositionQueryFailed
    else
      var rows := RobotPositions(t);
      if rows == [] then NoPosition
      else
        var data := TopBy(rows, PositionRecency, SliceEnd(limit, POSICION_LIMIT));
        Positions(|data|, data)
  }

  /** GET /detecciones?limite&objeto: the `limite` newest detections of
      device 1, restricted to one label when `objeto` is truthy. */
  function Detecciones(t: Table<Detection>, limite: QueryInt, objeto: Option<string>): (r: Listing<Detection>)
    ensures r.QueryFailed? <==> !t.readable
    ensures r.Listed? ==>
      var rows := Filter(t.rows, DetectionFilter(objeto));
      && r.total == |r.data| == SliceLength(|rows|, SliceEnd(limite, DETECCIONES_LIMITE))
      && multiset(r.data) <= multiset(rows)
      && (forall d :: d in r.data ==> d in t.rows && d.dispositivoId == ROBOT_ID)
      && (Truthy(objeto) ==> forall d :: d in r.data ==> d.objetoDetectado == objeto.value)
      && SortedBy(r.data, DetectionRecency)
      && (forall p, q :: p in r.data && q in multiset(rows) - multiset(r.data) ==> p.fecha >= q.fecha)
  {
    if !t.readable then QueryFailed
    else
      var rows := Filter(t.rows, DetectionFilter(objeto));
      var data := TopBy(rows, DetectionRecency, SliceEnd(limite, DETECCIONES_LIMITE));
      Listed(|data|, data)
  }

  /** `/detecciones/:objeto` echoes the label it was asked for. */
  datatype ObjectListing = ObjectListed(objeto: string, total: nat, data: seq<Detection>) | ObjectQueryFailed

  /** GET /detecciones/:objeto?limite: the `limite` newest detections of
      device 1 carrying exactly the label of the path. */
  function DeteccionesDeObjeto(t: Table<Detection>, objeto: string, limite: QueryInt): (r: ObjectListing)
    ensures r.ObjectQueryFailed? <==> !t.readable
    ensures r.ObjectListed? ==>
      var rows := Filter(t.rows, (d: Detection) => d.dispositivoId == ROBOT_ID && d.objetoDetectado == objeto);
      && r.objeto == objeto
      && r.total == |r.data| == SliceLength(|rows|, SliceEnd(limite, DETECCIONES_LIMITE))
      && multiset(r.data) <= multiset(rows)
      && (forall d :: d in r.data ==> d in t.rows && d.dispositivoId == ROBOT_ID && d.objetoDetectado == objeto)
      && SortedBy(r.data, DetectionRecency)
      && (forall p, q :: p in r.data && q in multiset(rows) - multiset(r.data) ==> p.fecha >= q.fecha)
  {
    if !t.readable then ObjectQueryFailed
    else
      var rows := Filter(t.rows, (d: Detection) => d.dispositivoId == ROBOT_ID && d.objetoDetectado == objeto);
      var data := TopBy(rows, DetectionRecency, SliceEnd(limite, DETECCIONES_LIMITE));
      ObjectListed(objeto, |data|, data)
  }

  /** GET /historial-movimientos?limite: samples of device 1 OLDEST first,
      cut to `limite`; the page therefore holds the oldest samples. */
  function HistorialMovimientos(t: Table<PositionSample>, limite: QueryInt): (r: Listing<PositionSample>)
    ensures r.QueryFailed? <==> !t.readable
    ensures r.Listed? ==>
      var rows := RobotPositions(t);
      && r.total == |r.data| == SliceLength(|rows|, SliceEnd(limite, HISTORIAL_LIMITE))
      && multiset(r.data) <= multiset(rows)
      && (forall p :: p in r.data ==> p.dispositivoId == ROBOT_ID)
      && (forall i, j :: 0 <= i < j < |r.data| ==> r.data[i].fecha <= r.data[j].fecha)
      && (forall p, q :: p in r.data && q in multiset(rows) - multiset(r.data) ==> p.fecha <= q.fecha)
  {
    if !t.readable then QueryFailed
    else
      var rows := RobotPositions(t);
      var data := TopBy(rows, PositionAge, SliceEnd(limite, HISTORIAL_LIMITE));
      Listed(|data|, data)
  }

  /** `result.data?.x || 0`: a failed query contributes no rows. */
  function RowsOrNone<T(!new)>(t: Table<T>, keep: T -> bool): (r: seq<T>)
    ensures !t.readable ==> r == []
    ensures forall x :: x in r ==> x in t.rows && keep(x)
    ensures t.readable ==> forall x :: keep(x) ==> multiset(r)[x] == multiset(t.rows)[x]
  {
    if t.readable then Filter(t.rows, keep) else []
  }

  /** The `objeto_detectado` of each detection, in order. */
  function Labels(ds: seq<Detection>): (r: seq<string>)
    ensures |r| == |ds|
    ensures forall i :: 0 <= i < |ds| ==> r[i] == ds[i].objetoDetectado
    ensures forall l :: l in r <==> exists d :: d in ds && d.objetoDetectado == l
  {
    var labels := seq(|ds|, i requires 0 <= i < |ds| => ds[i].objetoDetectado);
    forall l ensures l in labels <==> exists d :: d in ds && d.objetoDetectado == l {
      if l in labels {
        var i :| 0 <= i < |labels| && labels[i] == l;
        assert ds[i] in ds;
      }
      if exists d :: d in ds && d.objetoDetectado == l {
        var d :| d in ds && d.objetoDetectado == l;
        var i :| 0 <= i < |ds| && ds[i] == d;
        assert labels[i] == l;
      }
    }
    labels
  }

  datatype Summary = Summary(
    totalMovimientos: nat,
    totalDetecciones: nat,
    objetosDetectados: seq<string>,
    ultimaActividad: Option<Timestamp>)

  /** GET /resumen: whole-population counts, the labels seen, and the `fecha`
      of the FIRST stored sample (not the latest one). Missing data or a
      failed query gives zeros, no labels and no activity, never an error. */
  function Resumen(positions: Table<PositionSample>, detections: Table<Detection>): (r: Summary)
    ensures
      var ps := RowsOrNone(positions, OfRobot);
      var ds := RowsOrNone(detections, DetectionFilter(None));
      && r.totalMovimientos == |ps|
      && r.totalDetecciones == |ds|
      && (forall l :: l in r.objetosDetectados <==> exists d :: d in ds && d.objetoDetectado == l)
      && (forall i, j :: 0 <= i < j < |r.objetosDetectados| ==> r.objetosDetectados[i] != r.objetosDetectados[j])
      && InFirstAppearanceOrder(r.objetosDetectados, Labels(ds))
      && (r.ultimaActividad.Some? <==> ps != [])
      && (r.ultimaActividad.Some? ==> r.ultimaActividad.value == ps[0].fecha)
    ensures RowsOrNone(positions, OfRobot) == [] && RowsOrNone(detections, DetectionFilter(None)) == [] ==>
      r == Summary(0, 0, [], None)
  {
    var ps := RowsOrNone(positions, OfRobot);
    var ds := RowsOrNone(detections, DetectionFilter(None));
    var labels := Labels(ds);
    DistinctOrder(labels);
    Summary(|ps|, |ds|, Distinct(labels), if ps == [] then None else Some(ps[0].fecha))
  }
}
