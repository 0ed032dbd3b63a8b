/**
 * The report summary (`resumen`: counts, sums and averages per report type)
 * and the insight sentences derived from it, with the fixed-point number
 * formatting (`f"{x:.2f}"`, `f"{x:.1f}"`) the sentences use.
 */
module ReportesStats {
  import opened Wrappers
  import opened Text
  import opened ReportesCatalog
  import opened ReportesData
  import opened ReportesTrends

  function Abs(x: real): real {
    if x < 0.0 then -x else x
  }

  /** Round half to even: the integer nearest `y`, the even one of two equally near. */
  function RoundHalfEven(y: real): (n: int)
    ensures -0.5 <= n as real - y <= 0.5
    ensures (n as real - y == 0.5 || n as real - y == -0.5) ==> n % 2 == 0
  {
    var f := y.Floor;
    var frac := y - f as real;
    if frac < 0.5 then f
    else if frac > 0.5 then f + 1
    else if f % 2 == 0 then f else f + 1
  }

  /** An integer is its own rounding. */
  lemma RoundWhole(k: int)
    ensures RoundHalfEven(k as real) == k
  {
  }

  /** `|x|` scaled by `10^d` and rounded: the digits `format` prints for `d` decimals. */
  function Scaled(x: real, d: nat): (n: nat)
    ensures -0.5 <= n as real - Abs(x) * Pow10(d) as real <= 0.5
  {
    RoundHalfEven(Abs(x) * Pow10(d) as real)
  }

  /** The digits of `n` with a point before the last `d` of them, at least one digit before it. */
  function PointText(n: nat, d: nat): (s: string)
    requires d >= 1
  {
    var digits := ZeroPad(n, d + 1);
    var k := |digits| - d;
    digits[..k] + "." + digits[k..]
  }

  /**
   * `format(x, '.<d>f')` on an exact value: a minus sign for a negative `x`, then the
   * rounded digits of `|x|` with a point before the last `d` of them.
   */
  function FixedText(x: real, d: nat): (s: string)
    requires d >= 1
  {
    (if x < 0.0 then "-" else "") + PointText(Scaled(x, d), d)
  }

  /** A fixed-point number as written: a sign, its digits as a number, and how many follow the point. */
  datatype Fixed = Fixed(negative: bool, digits: nat, scale: nat)

  /** "I.F", digits on both sides of the point: the number IF with |F| digits after the point. */
  function ParseDecimal(t: string): Option<Fixed> {
    var k := IndexOf(t, '.');
    if k == 0 || k + 1 >= |t| || !AllDigits(t[..k]) || !AllDigits(t[k + 1..]) then None
    else
      AllDigitsAppend(t[..k], t[k + 1..]);
      Some(Fixed(false, DigitsValue(t[..k] + t[k + 1..]), |t| - k - 1))
  }

  /** A fixed-point text: an optional minus, then a decimal. */
  function ParseFixed(s: string): Option<Fixed> {
    if |s| > 0 && s[0] == '-' then
      match ParseDecimal(s[1..])
      case Some(f) => Some(f.(negative := true))
      case None => None
    else ParseDecimal(s)
  }

  lemma AllDigitsAppend(a: string, b: string)
    requires AllDigits(a) && AllDigits(b)
    ensures AllDigits(a + b)
  {
    forall i | 0 <= i < |a + b|
      ensures IsDigit((a + b)[i])
    {
      if i < |a| {
        assert (a + b)[i] == a[i];
      } else {
        assert (a + b)[i] == b[i - |a|];
      }
    }
  }

  /** The first point of "I.F" is the one after the integer digits. */
  lemma PointAfterDigits(ip: string, fp: string)
    requires AllDigits(ip)
    ensures IndexOf(ip + "." + fp, '.') == |ip|
  {
    var t := ip + "." + fp;
    assert t[|ip|] == '.';
  }

  /** How `ParseFixed` reads "I.F" and "-I.F". */
  lemma ParseParts(t: string, ip: string, fp: string)
    requires ip != [] && fp != [] && AllDigits(ip) && AllDigits(fp)
    requires t == ip + "." + fp
    ensures AllDigits(ip + fp)
    ensures ParseFixed(t) == Some(Fixed(false, DigitsValue(ip + fp), |fp|))
    ensures ParseFixed("-" + t) == Some(Fixed(true, DigitsValue(ip + fp), |fp|))
  {
    AllDigitsAppend(ip, fp);
    PointAfterDigits(ip, fp);
    assert IsDigit(ip[0]);
    assert t[0] == ip[0];
    assert t[..|ip|] == ip && t[|ip| + 1..] == fp;
    assert ParseDecimal(t) == Some(Fixed(false, DigitsValue(ip + fp), |fp|));
    var s := "-" + t;
    assert s[1..] == t;
    assert s[0] == '-';
  }

  /** Reading a point text back gives its digits and scale. */
  lemma PointTextDigits(n: nat, d: nat)
    requires d >= 1
    ensures ParseFixed(PointText(n, d)) == Some(Fixed(false, n, d))
    ensures ParseFixed("-" + PointText(n, d)) == Some(Fixed(true, n, d))
  {
    var digits := ZeroPad(n, d + 1);
    var k := |digits| - d;
    var ip := digits[..k];
    var fp := digits[k..];
    assert |fp| == d;
    assert digits == ip + fp;
    assert AllDigits(ip) && AllDigits(fp);
    assert PointText(n, d) == ip + "." + fp;
    ParseParts(PointText(n, d), ip, fp);
    assert DigitsValue(ip + fp) == n;
  }

  /** Reading the text back gives the sign of `x`, its rounded digits and the `d` decimals. */
  lemma FixedTextRoundTrip(x: real, d: nat)
    requires d >= 1
    ensures ParseFixed(FixedText(x, d)) == Some(Fixed(x < 0.0, Scaled(x, d), d))
  {
    var t := PointText(Scaled(x, d), d);
    PointTextDigits(Scaled(x, d), d);
    if x < 0.0 {
      assert FixedText(x, d) == "-" + t;
    } else {
      assert FixedText(x, d) == t;
    }
  }

  /** An amount in cents is scaled to two decimals without rounding. */
  lemma ScaledCents(cents: int)
    ensures Scaled(cents as real / 100.0, 2) == if cents < 0 then -cents else cents
  {
    var x := cents as real / 100.0;
    assert Pow10(2) == 100;
    var k := if cents < 0 then -cents else cents;
    assert Abs(x) * 100.0 == k as real;
    RoundWhole(k);
  }

  /** A two-decimal amount prints exactly: its sign, then all of its cents. */
  lemma FixedTextCents(cents: int)
    ensures ParseFixed(FixedText(cents as real / 100.0, 2)) ==
      Some(Fixed(cents < 0, if cents < 0 then -cents else cents, 2))
  {
    var x := cents as real / 100.0;
    FixedTextRoundTrip(x, 2);
    ScaledCents(cents);
    CentsSign(cents);
    assert Fixed(x < 0.0, Scaled(x, 2), 2) == Fixed(cents < 0, if cents < 0 then -cents else cents, 2);
  }

  /** An amount in cents and in currency units have the same sign. */
  lemma CentsSign(cents: int)
    ensures (cents as real / 100.0 < 0.0) == (cents < 0)
  {
  }

  /**
   * `resumen`: the keys a report's summary holds, `None` for the ones it lacks.
   * Amounts are exact (in currency units), as the float casts of `Decimal` sums are
   * taken here.
   */
  datatype Resumen = Resumen(
    totalRegistros: Option<int>,
    totalIngresos: Option<real>,
    ingresoPromedio: Option<real>,
    totalDescuentos: Option<real>,
    ocupacionPromedio: Option<real>,
    precioPromedio: Option<real>,
    totalFacturado: Option<real>)

  const EmptyResumen := Resumen(None, None, None, None, None, None, None)

  function DescuentoCents(b: Reserva): int { b.descuentoCents }

  function SumPrecio(ps: seq<Propiedad>): real
    decreases |ps|
  {
    if ps == [] then 0.0 else SumPrecio(ps[..|ps| - 1]) + ps[|ps| - 1].precioNoche
  }

  function SumFacturado(fs: seq<Factura>): int
    decreases |fs|
  {
    if fs == [] then 0 else SumFacturado(fs[..|fs| - 1]) + fs[|fs| - 1].totalCents
  }

  function SumRatios(rows: seq<OcupacionRow>): real
    decreases |rows|
  {
    if rows == [] then 0.0 else SumRatios(rows[..|rows| - 1]) + rows[|rows| - 1].ocupacion
  }

  /** `Avg(...) or 0`: the mean, and 0 for no records. */
  function Mean(sum: real, count: nat): (m: real)
    ensures count == 0 ==> m == 0.0
    ensures count > 0 ==> m * count as real == sum
  {
    if count == 0 then 0.0 else sum / count as real
  }

  /**
   * `ocupacion_promedio`: the mean of the rows' ratios, present only when there are
   * rows, never negative.
   */
  function OcupacionPromedio(rows: seq<OcupacionRow>): (r: Option<real>)
    requires forall i :: 0 <= i < |rows| ==> rows[i].ocupacion >= 0.0
    ensures r.Some? <==> rows != []
    ensures r.Some? ==> r.value * |rows| as real == SumRatios(rows) && r.value >= 0.0
  {
    SumRatiosNonNegative(rows);
    if rows == [] then None else Some(SumRatios(rows) / |rows| as real)
  }

  lemma {:induction false} SumRatiosNonNegative(rows: seq<OcupacionRow>)
    requires forall i :: 0 <= i < |rows| ==> rows[i].ocupacion >= 0.0
    ensures SumRatios(rows) >= 0.0
    decreases |rows|
  {
    if rows != [] {
      SumRatiosNonNegative(rows[..|rows| - 1]);
    }
  }

  /** The summary of the booking-based reports: count, revenue, mean revenue and discounts. */
  function BookingResumen(rs: seq<Reserva>): (r: Resumen)
    ensures r.totalRegistros == Some(|rs|)
    ensures r.totalIngresos == Some(SumOf(rs, Cents) as real / 100.0)
    ensures r.ingresoPromedio == Some(Mean(r.totalIngresos.value, |rs|))
    ensures rs == [] ==> r.ingresoPromedio == Some(0.0) && r.totalIngresos == Some(0.0)
    ensures r.totalDescuentos == Some(SumOf(rs, DescuentoCents) as real / 100.0)
    ensures r.ocupacionPromedio == None && r.precioPromedio == None && r.totalFacturado == None
  {
    Resumen(Some(|rs|), Some(SumOf(rs, Cents) as real / 100.0),
      Some(Mean(SumOf(rs, Cents) as real / 100.0, |rs|)),
      Some(SumOf(rs, DescuentoCents) as real / 100.0), None, None, None)
  }

  /**
   * `resumen` as the report fills it when statistics are asked for: per report type
   * the aggregates over the filtered collection, plus the occupancy mean over the
   * occupancy rows when there are any; empty when statistics are off.
   */
  function ResumenOf(t: TipoReporte, c: Collection, filas: seq<OcupacionRow>, incluir: bool): (r: Resumen)
    requires Fits(t, c)
    requires forall i :: 0 <= i < |filas| ==> filas[i].ocupacion >= 0.0
    ensures !incluir || t == Usuarios ==> r == EmptyResumen
    ensures incluir && OverBookings(t) ==>
      r.totalRegistros == Some(|c.reservas|) && r.totalIngresos == Some(SumOf(c.reservas, Cents) as real / 100.0)
    ensures incluir && t == Ocupacion ==> r.ocupacionPromedio == OcupacionPromedio(filas)
    ensures incluir && (t == Reservas || t == Ingresos) ==> r.ocupacionPromedio == None
    ensures incluir && t == Propiedades ==>
      r == EmptyResumen.(totalRegistros := Some(|c.propiedades|),
                         precioPromedio := Some(Mean(SumPrecio(c.propiedades), |c.propiedades|)))
    ensures incluir && t == Facturas ==>
      r == EmptyResumen.(totalRegistros := Some(|c.facturas|),
                         totalFacturado := Some(SumFacturado(c.facturas) as real / 100.0))
  {
    if !incluir then EmptyResumen
    else
      match t
      case Reservas | Ingresos => BookingResumen(c.reservas)
      case Ocupacion => BookingResumen(c.reservas).(ocupacionPromedio := OcupacionPromedio(filas))
      case Propiedades =>
        EmptyResumen.(totalRegistros := Some(|c.propiedades|),
                      precioPromedio := Some(Mean(SumPrecio(c.propiedades), |c.propiedades|)))
      case Facturas =>
        EmptyResumen.(totalRegistros := Some(|c.facturas|),
                      totalFacturado := Some(SumFacturado(c.facturas) as real / 100.0))
      case Usuarios => EmptyResumen
  }

  const NoDataInsight := "No hay datos para el rango de filtros seleccionado."

  function AverageInsight(avg: real): string {
    "Ingreso promedio por reserva: " + FixedText(avg, 2)
  }

  function OcupacionInsight(prom: real): string {
    "Ocupación promedio estimada: " + FixedText(prom * 100.0, 1) + "%"
  }

  /** `_insights_basicos(tipo, resumen)`. */
  function Insights(t: TipoReporte, res: Resumen): seq<string> {
    var revenue :=
      if t == Reservas || t == Ingresos then
        if res.totalRegistros == Some(0) then [NoDataInsight]
        else if res.totalIngresos.Some? && res.totalIngresos.value > 0.0 &&
                res.totalRegistros.Some? && res.totalRegistros.value != 0 then
          [AverageInsight(res.ingresoPromedio.GetOr(0.0))]
        else []
      else [];
    var occupancy :=
      if t == Ocupacion && res.ocupacionPromedio.Some? then [OcupacionInsight(res.ocupacionPromedio.value)]
      else [];
    revenue + occupancy
  }

  /** With no bookings in range, a revenue report says exactly that there is no data. */
  lemma InsightsNoData(t: TipoReporte)
    requires t == Reservas || t == Ingresos
    ensures Insights(t, ResumenOf(t, Bookings([]), [], true)) == [NoDataInsight]
  {
  }

  /** The summary of a revenue report is the booking summary. */
  lemma RevenueResumen(t: TipoReporte, rs: seq<Reserva>)
    requires t == Reservas || t == Ingresos
    ensures ResumenOf(t, Bookings(rs), [], true) == BookingResumen(rs)
  {
  }

  /** A summary with records and a positive revenue gives the mean revenue line alone. */
  lemma AverageLine(t: TipoReporte, res: Resumen)
    requires t == Reservas || t == Ingresos
    requires res.totalRegistros.Some? && res.totalRegistros.value != 0
    requires res.totalIngresos.Some? && res.totalIngresos.value > 0.0
    ensures Insights(t, res) == [AverageInsight(res.ingresoPromedio.GetOr(0.0))]
  {
  }

  lemma PositiveRevenue(rs: seq<Reserva>)
    requires rs != [] && SumOf(rs, Cents) > 0
    ensures BookingResumen(rs).totalRegistros.Some? && BookingResumen(rs).totalRegistros.value != 0
    ensures BookingResumen(rs).totalIngresos.Some? && BookingResumen(rs).totalIngresos.value > 0.0
  {
  }

  /** With bookings and a positive revenue, a revenue report gives exactly the mean revenue line. */
  lemma InsightsAverage(t: TipoReporte, rs: seq<Reserva>)
    requires t == Reservas || t == Ingresos
    requires rs != [] && SumOf(rs, Cents) > 0
    ensures var res := ResumenOf(t, Bookings(rs), [], true);
      res.ingresoPromedio.Some? && Insights(t, res) == [AverageInsight(res.ingresoPromedio.value)]
  {
    RevenueResumen(t, rs);
    PositiveRevenue(rs);
    AverageLine(t, BookingResumen(rs));
  }

  /** With bookings but no positive revenue, a revenue report has nothing to say. */
  lemma InsightsNoRevenue(t: TipoReporte, rs: seq<Reserva>)
    requires t == Reservas || t == Ingresos
    requires rs != [] && SumOf(rs, Cents) <= 0
    ensures Insights(t, ResumenOf(t, Bookings(rs), [], true)) == []
  {
  }

  /** An occupancy report gives the percentage line exactly when it has rows. */
  lemma InsightsOcupacion(rs: seq<Reserva>, filas: seq<OcupacionRow>)
    requires forall i :: 0 <= i < |filas| ==> filas[i].ocupacion >= 0.0
    ensures filas != [] ==>
      Insights(Ocupacion, ResumenOf(Ocupacion, Bookings(rs), filas, true)) ==
      [OcupacionInsight(SumRatios(filas) / |filas| as real)]
    ensures filas == [] ==> Insights(Ocupacion, ResumenOf(Ocupacion, Bookings(rs), filas, true)) == []
  {
    OcupacionInsights(ResumenOf(Ocupacion, Bookings(rs), filas, true), filas);
  }

  lemma OcupacionInsights(res: Resumen, filas: seq<OcupacionRow>)
    requires forall i :: 0 <= i < |filas| ==> filas[i].ocupacion >= 0.0
    requires res.ocupacionPromedio == OcupacionPromedio(filas)
    ensures filas != [] ==> Insights(Ocupacion, res) == [OcupacionInsight(SumRatios(filas) / |filas| as real)]
    ensures filas == [] ==> Insights(Ocupacion, res) == []
  {
    if filas != [] {
      assert Insights(Ocupacion, res) == [] + [OcupacionInsight(res.ocupacionPromedio.value)];
    } else {
      assert Insights(Ocupacion, res) == [] + [];
    }
  }

  /** Property, invoice and user reports carry no insights, and neither does a report without statistics. */
  lemma InsightsNone(t: TipoReporte, res: Resumen)
    ensures t == Propiedades || t == Facturas || t == Usuarios ==> Insights(t, res) == []
    ensures Insights(t, EmptyResumen) == []
  {
  }
}
