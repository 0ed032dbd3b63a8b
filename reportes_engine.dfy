/**
 * `_generar_reporte_desde_payload`: a validated request, the caller's scope and
 * the database give the report body (fields, rows, summary, charts, insights).
 * `Report` states what the body is for a filtered collection; `GenerarReporte`
 * builds it step by step as the view does.
 */
module ReportesEngine {
  import opened Wrappers
  import opened Accounts
  import opened Json
  import opened Seqs
  import opened ReportesCatalog
  import opened ReportesSerializers
  import opened ReportesData
  import opened ReportesFilters
  import opened ReportesRows
  import opened ReportesTrends
  import opened ReportesStats

  /** The report body. `graficos` is `None` where the source leaves the dictionary empty. */
  datatype Reporte = Reporte(
    tipo: TipoReporte,
    campos: seq<string>,
    filtros: seq<(string, Json)>,
    agrupacion: Option<string>,
    ordenamiento: Option<string>,
    rows: seq<Row>,
    resumen: Resumen,
    graficos: Option<Graficos>,
    insights: seq<string>,
    generadoEn: string)

  /** `props_qs.count()` for the occupancy estimate: every property for a superuser, the host's own otherwise. */
  function PropiedadesCount(user: User, db: Db): (n: nat)
    ensures user.isSuperuser ==> n == |db.propiedades|
    ensures !user.isSuperuser ==> n == |OwnProperties(user, db)| && n <= |db.propiedades|
  {
    if user.isSuperuser then |db.propiedades|
    else
      SubsequenceLength(OwnProperties(user, db), db.propiedades);
      |OwnProperties(user, db)|
  }

  /** The occupancy rows a report computes: the monthly estimate for `ocupacion`, none otherwise. */
  function Filas(t: TipoReporte, c: Collection, propCount: nat): (r: seq<OcupacionRow>)
    requires Fits(t, c)
    ensures t != Ocupacion ==> r == []
    ensures forall i :: 0 <= i < |r| ==> r[i].ocupacion >= 0.0
  {
    if t == Ocupacion then Occupancy(c.reservas, propCount) else []
  }

  /** `resultado['rows']` per report type; only a negative limit on a listing fails. */
  function RowsOf(p: Payload, campos: seq<string>, c: Collection, propCount: nat, collation: Value -> int): (r: Result<seq<Row>>)
    requires Fits(p.tipo, c)
    ensures r.Err? <==> ListsRows(p.tipo) && EffectiveLimite(p.limite) < 0
    ensures r.Err? ==> r.status == 500
  {
    match p.tipo
    case Ingresos => Ok(IngresosRows(c.reservas))
    case Ocupacion => Ok(OcupacionRowsValues(Occupancy(c.reservas, propCount)))
    case _ => ListRows(Items(c), campos, p.ordenamiento, p.limite, collation)
  }

  /**
   * The report for a filtered collection `c`: the rows of its type, the summary
   * when statistics are asked for, the booking charts for `reservas` when charts
   * are asked for, and the insights read off the summary.
   */
  function Report(p: Payload, campos: seq<string>, c: Collection, propCount: nat, collation: Value -> int,
                  generadoEn: string): (r: Result<Reporte>)
    requires Fits(p.tipo, c)
    ensures r.Err? <==> ListsRows(p.tipo) && EffectiveLimite(p.limite) < 0
    ensures r.Err? ==> r.status == 500
    ensures r.Ok? ==>
      r.value.tipo == p.tipo && r.value.campos == campos && r.value.filtros == p.filtros &&
      r.value.agrupacion == p.agrupacion && r.value.ordenamiento == p.ordenamiento && r.value.generadoEn == generadoEn
    ensures r.Ok? ==> r.value.rows == RowsOf(p, campos, c, propCount, collation).value
    ensures r.Ok? ==> r.value.resumen == ResumenOf(p.tipo, c, Filas(p.tipo, c, propCount), p.incluirEstadisticas)
    ensures r.Ok? ==> r.value.insights == Insights(p.tipo, r.value.resumen)
    ensures r.Ok? ==> (r.value.graficos.Some? <==> p.incluirGraficos && p.tipo == Reservas)
    ensures r.Ok? && r.value.graficos.Some? ==> r.value.graficos.value == ReservasGraficos(c.reservas)
  {
    match RowsOf(p, campos, c, propCount, collation)
    case Err(e) => Err(e)
    case Ok(rows) => Ok(Filled(p, campos, c, propCount, rows, generadoEn))
  }

  /** The report around already computed rows: summary, charts and insights over `c`. */
  function Filled(p: Payload, campos: seq<string>, c: Collection, propCount: nat, rows: seq<Row>,
                  generadoEn: string): (rep: Reporte)
    requires Fits(p.tipo, c)
    ensures rep.tipo == p.tipo && rep.campos == campos && rep.filtros == p.filtros && rep.rows == rows
    ensures rep.agrupacion == p.agrupacion && rep.ordenamiento == p.ordenamiento && rep.generadoEn == generadoEn
    ensures rep.resumen == ResumenOf(p.tipo, c, Filas(p.tipo, c, propCount), p.incluirEstadisticas)
    ensures rep.insights == Insights(p.tipo, rep.resumen)
    ensures rep.graficos.Some? <==> p.incluirGraficos && p.tipo == Reservas
    ensures rep.graficos.Some? ==> rep.graficos.value == ReservasGraficos(c.reservas)
  {
    var t := p.tipo;
    var resumen := ResumenOf(t, c, Filas(t, c, propCount), p.incluirEstadisticas);
    var graficos := if p.incluirGraficos && t == Reservas then Some(ReservasGraficos(c.reservas)) else None;
    Reporte(t, campos, p.filtros, p.agrupacion, p.ordenamiento, rows, resumen, graficos, Insights(t, resumen), generadoEn)
  }

  /**
   * Every row of a listing has exactly the shown fields, and a listing has at
   * most `limite` rows (100 for 0) and no more than the collection holds.
   */
  lemma ListingRowsShape(p: Payload, campos: seq<string>, c: Collection, propCount: nat, collation: Value -> int,
                         generadoEn: string)
    requires Fits(p.tipo, c) && ListsRows(p.tipo)
    requires Report(p, campos, c, propCount, collation, generadoEn).Ok?
    ensures var rows := Report(p, campos, c, propCount, collation, generadoEn).value.rows;
      |rows| <= EffectiveLimite(p.limite) && |rows| <= Size(c) &&
      forall i :: 0 <= i < |rows| ==> Keys(rows[i]) == Dedup(campos)
  {
    var listed := ListRows(Items(c), campos, p.ordenamiento, p.limite, collation);
    assert RowsOf(p, campos, c, propCount, collation) == listed;
    assert |Items(c)| == Size(c);
  }

  /** A monthly report has one row per month with bookings, each with the catalog's fields. */
  lemma MonthlyRowsShape(p: Payload, campos: seq<string>, c: Collection, propCount: nat, collation: Value -> int,
                         generadoEn: string)
    requires Fits(p.tipo, c) && !ListsRows(p.tipo)
    ensures Report(p, campos, c, propCount, collation, generadoEn).Ok?
    ensures var rows := Report(p, campos, c, propCount, collation, generadoEn).value.rows;
      |rows| == |Months(c.reservas)| &&
      forall i :: 0 <= i < |rows| ==> Keys(rows[i]) == CampoNames(p.tipo)
  {
    if p.tipo == Ocupacion {
      var filas := Occupancy(c.reservas, propCount);
      assert RowsOf(p, campos, c, propCount, collation) == Ok(OcupacionRowsValues(filas));
    } else {
      assert RowsOf(p, campos, c, propCount, collation) == Ok(IngresosRows(c.reservas));
    }
  }

  /**
   * The occupancy report's summary carries the mean of the rows' ratios
   * (`OcupacionPromedio`), and carries it exactly when some booking is in scope.
   */
  lemma OcupacionResumen(p: Payload, campos: seq<string>, c: Collection, propCount: nat, collation: Value -> int,
                         generadoEn: string)
    requires p.tipo == Ocupacion && c.Bookings? && p.incluirEstadisticas
    ensures var rep := Report(p, campos, c, propCount, collation, generadoEn).value;
      var filas := Occupancy(c.reservas, propCount);
      rep.resumen.ocupacionPromedio == OcupacionPromedio(filas) &&
      (rep.resumen.ocupacionPromedio.Some? <==> c.reservas != []) &&
      rep.resumen.totalRegistros == Some(|c.reservas|)
  {
    var filas := Occupancy(c.reservas, propCount);
    MonthsEmpty(c.reservas);
    assert Filas(p.tipo, c, propCount) == filas;
    var rep := Report(p, campos, c, propCount, collation, generadoEn).value;
    assert rep.resumen == BookingResumen(c.reservas).(ocupacionPromedio := OcupacionPromedio(filas));
  }

  /** Without statistics there is no summary and so no insight, whatever the type. */
  lemma NoStatisticsNoInsights(p: Payload, campos: seq<string>, c: Collection, propCount: nat, collation: Value -> int,
                               generadoEn: string)
    requires Fits(p.tipo, c) && !p.incluirEstadisticas
    requires Report(p, campos, c, propCount, collation, generadoEn).Ok?
    ensures Report(p, campos, c, propCount, collation, generadoEn).value.resumen == EmptyResumen
    ensures Report(p, campos, c, propCount, collation, generadoEn).value.insights == []
  {
    InsightsNone(p.tipo, EmptyResumen);
  }

  /**
   * The report as written: the same body, except that the `ingresos` and
   * `ocupacion` rows and the `reservas` monthly chart call `.date()` on the
   * truncated month and raise as soon as a booking is in scope.
   */
  function ReportAsWritten(p: Payload, campos: seq<string>, c: Collection, propCount: nat, collation: Value -> int,
                           generadoEn: string): (r: Result<Reporte>)
    requires Fits(p.tipo, c)
    ensures r.Ok? <==>
      Report(p, campos, c, propCount, collation, generadoEn).Ok? &&
      !(OverBookings(p.tipo) && c.reservas != [] && (p.tipo != Reservas || p.incluirGraficos))
    ensures r.Ok? ==> r == Report(p, campos, c, propCount, collation, generadoEn)
  {
    var rep := Report(p, campos, c, propCount, collation, generadoEn);
    if rep.Err? then rep
    else
      match p.tipo
      case Ingresos => (match IngresosAsWritten(c.reservas) case Ok(_) => rep case Err(e) => Err(e))
      case Ocupacion => (match OcupacionAsWritten(c.reservas, propCount) case Ok(_) => rep case Err(e) => Err(e))
      case Reservas =>
        if !p.incluirGraficos then rep
        else (match ReservasGraficosAsWritten(c.reservas) case Ok(_) => rep case Err(e) => Err(e))
      case _ => rep
  }

  /**
   * The discrepancy: a request naming only `reservas` (every default, charts on)
   * fails as written as soon as one booking is in scope, where the corrected
   * report succeeds.
   */
  lemma DefaultReservasReportFails(c: Collection, propCount: nat, collation: Value -> int, generadoEn: string)
    requires c.Bookings? && c.reservas != []
    ensures var p := Payload(Reservas, [], [], None, None, DefaultLimite, true, true);
      ReportAsWritten(p, [], c, propCount, collation, generadoEn).Err? &&
      Report(p, [], c, propCount, collation, generadoEn).Ok?
  {
  }

  /** Likewise every `ingresos` and `ocupacion` report with a booking in scope fails as written. */
  lemma MonthlyReportsFail(p: Payload, campos: seq<string>, c: Collection, propCount: nat, collation: Value -> int,
                           generadoEn: string)
    requires (p.tipo == Ingresos || p.tipo == Ocupacion) && c.Bookings? && c.reservas != []
    ensures ReportAsWritten(p, campos, c, propCount, collation, generadoEn).Err?
    ensures Report(p, campos, c, propCount, collation, generadoEn).Ok?
  {
  }

  lemma ListingRows(p: Payload, campos: seq<string>, c: Collection, propCount: nat, collation: Value -> int,
                    values: seq<Row>)
    requires Fits(p.tipo, c) && ListsRows(p.tipo) && EffectiveLimite(p.limite) >= 0
    requires var listed := Listed(Items(c), p.ordenamiento, campos, EffectiveLimite(p.limite), collation);
      |values| == |listed| && forall i :: 0 <= i < |listed| ==> values[i] == Project(listed[i], campos)
    ensures RowsOf(p, campos, c, propCount, collation) == Ok(values)
  {
    var r := ListRows(Items(c), campos, p.ordenamiento, p.limite, collation);
    assert RowsOf(p, campos, c, propCount, collation) == r;
    assert r.value == values;
  }

  /**
   * The rows step: the listing loop (`_rows_from_values` over the ordered and cut
   * values), the revenue trend, or the occupancy loop; `filas` are the occupancy
   * rows the summary averages.
   */
  method ComputeRows(p: Payload, campos: seq<string>, c: Collection, propCount: nat, collation: Value -> int)
    returns (rows: Result<seq<Row>>, filas: seq<OcupacionRow>)
    requires Fits(p.tipo, c)
    ensures rows == RowsOf(p, campos, c, propCount, collation)
    ensures filas == Filas(p.tipo, c, propCount)
  {
    if ListsRows(p.tipo) {
      rows := ListingRowsOf(p, campos, c, propCount, collation);
      filas := [];
    } else {
      rows, filas := TrendRowsOf(p, campos, c, propCount, collation);
    }
  }

  /** The monthly branches: revenue per month for `ingresos`, the occupancy estimate for `ocupacion`. */
  method TrendRowsOf(p: Payload, campos: seq<string>, c: Collection, propCount: nat, collation: Value -> int)
    returns (rows: Result<seq<Row>>, filas: seq<OcupacionRow>)
    requires Fits(p.tipo, c) && !ListsRows(p.tipo)
    ensures rows == RowsOf(p, campos, c, propCount, collation)
    ensures filas == Filas(p.tipo, c, propCount)
  {
    if p.tipo == Ingresos {
      rows, filas := Ok(IngresosRows(c.reservas)), [];
    } else {
      filas := OccupancyRows(c.reservas, propCount);
      rows := Ok(OcupacionRowsValues(filas));
    }
  }

  /** The listing branch: a negative limit fails, otherwise the ordered, cut and projected items. */
  method ListingRowsOf(p: Payload, campos: seq<string>, c: Collection, propCount: nat, collation: Value -> int)
    returns (rows: Result<seq<Row>>)
    requires Fits(p.tipo, c) && ListsRows(p.tipo)
    ensures rows == RowsOf(p, campos, c, propCount, collation)
  {
    var lim := EffectiveLimite(p.limite);
    if lim < 0 {
      return Err(500);
    }
    var listed := Listed(Items(c), p.ordenamiento, campos, lim, collation);
    var values := RowsFromValues(listed, campos);
    ListingRows(p, campos, c, propCount, collation, values);
    rows := Ok(values);
  }

  /**
   * What `_generar_reporte_desde_payload` promises for a payload: a filter that
   * cannot be converted is a 500; otherwise the report is `Report` over `c`, the
   * records of the caller's scope that the filters keep, in their order.
   */
  ghost predicate Generates(user: User, p: Payload, db: Db, order: seq<string>, collation: Value -> int,
                            generadoEn: string, c: Collection, r: Result<Reporte>) {
    var scope := UserScope(user, p.tipo, db).0;
    if FilterOutcome(scope, p.filtros).Err? then r == Err(500)
    else
      Fits(p.tipo, c) && Narrowed(c, scope) && KeptExactly(c, scope, p.filtros) &&
      r == Report(p, SelectCampos(p.tipo, p.campos, order), c, PropiedadesCount(user, db), collation, generadoEn)
  }

  /**
   * `_generar_reporte_desde_payload(user, payload)`: scope the base collection to
   * the caller, pick the fields (`order` is the iteration order of the catalog's
   * field set), apply the filters, then fill rows, summary, charts and insights.
   * Returns the report and, as a ghost, the records the filters kept.
   */
  method GenerarReporte(user: User, p: Payload, db: Db, order: seq<string>, collation: Value -> int, generadoEn: string)
    returns (r: Result<Reporte>, ghost c: Collection)
    ensures Generates(user, p, db, order, collation, generadoEn, c, r)
    ensures p.filtros == [] ==> c == UserScope(user, p.tipo, db).0
  {
    var t := p.tipo;
    var scope := UserScope(user, t, db).0;
    var campos := SelectCampos(t, p.campos, order);
    var filtered := ApplyFilters(scope, p.filtros);
    if filtered.Err? {
      return Err(500), scope;
    }
    var kept := filtered.value;
    c := kept;
    FitsNarrowed(t, kept, scope);
    var propCount := PropiedadesCount(user, db);
    r := Assemble(p, campos, kept, propCount, collation, generadoEn);
    GeneratesOk(user, p, db, order, collation, generadoEn, c, r);
  }

  /** The success case of `Generates`, stated from its parts. */
  lemma GeneratesOk(user: User, p: Payload, db: Db, order: seq<string>, collation: Value -> int,
                    generadoEn: string, c: Collection, r: Result<Reporte>)
    requires FilterOutcome(UserScope(user, p.tipo, db).0, p.filtros).Ok?
    requires Fits(p.tipo, c) && Narrowed(c, UserScope(user, p.tipo, db).0)
    requires KeptExactly(c, UserScope(user, p.tipo, db).0, p.filtros)
    requires r == Report(p, SelectCampos(p.tipo, p.campos, order), c, PropiedadesCount(user, db), collation, generadoEn)
    ensures Generates(user, p, db, order, collation, generadoEn, c, r)
  {
  }

  /** Leaving records out keeps a collection the table of its report type. */
  lemma FitsNarrowed(t: TipoReporte, a: Collection, b: Collection)
    requires Fits(t, b) && Narrowed(a, b)
    ensures Fits(t, a)
  {
  }

  /** The second half of `_generar_reporte_desde_payload`: rows, summary, charts and insights over the kept records. */
  method Assemble(p: Payload, campos: seq<string>, c: Collection, propCount: nat, collation: Value -> int, generadoEn: string)
    returns (r: Result<Reporte>)
    requires Fits(p.tipo, c)
    ensures r == Report(p, campos, c, propCount, collation, generadoEn)
  {
    var t := p.tipo;
    var rows, filas := ComputeRows(p, campos, c, propCount, collation);
    if rows.Err? {
      r := Err(rows.status);
    } else {
      var resumen := ResumenOf(t, c, filas, p.incluirEstadisticas);
      var graficos := if p.incluirGraficos && t == Reservas then Some(ReservasGraficos(c.reservas)) else None;
      r := Ok(Reporte(t, campos, p.filtros, p.agrupacion, p.ordenamiento, rows.value, resumen, graficos,
                      Insights(t, resumen), generadoEn));
    }
  }
}
