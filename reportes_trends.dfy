/**
 * The monthly reports and the booking charts: bookings grouped by
 * `TruncMonth('fecha_checkin')` (the `ingresos` trend and the `ocupacion`
 * estimate) and by status or property name (the `reservas` charts), with the
 * per-group counts and sums `annotate(Count, Sum)` computes.
 */
module ReportesTrends {
  import opened Wrappers
  import opened Calendar
  import opened Seqs
  import opened Sorting
  import opened ReportesCatalog
  import opened ReportesData

  /** `TruncMonth` of a date: the first day of its month. */
  function MonthOf(d: Day): (m: Day)
    ensures m.year == d.year && m.month == d.month && m.day == 1
    ensures MonthIndex(m) == MonthIndex(d)
  {
    Date(d.year, d.month, 1)
  }

  /** Two first-of-month days with the same month index are the same day. */
  lemma SameMonth(a: Day, b: Day)
    requires a.day == 1 && b.day == 1 && MonthIndex(a) == MonthIndex(b)
    ensures a == b
  {
  }

  /** First-of-month days in strictly increasing month order: `order_by('mes')` over distinct groups. */
  predicate Ascending(ms: seq<Day>) {
    (forall i, j :: 0 <= i < j < |ms| ==> MonthIndex(ms[i]) < MonthIndex(ms[j])) &&
    (forall i :: 0 <= i < |ms| ==> ms[i].day == 1)
  }

  function InsertMonth(m: Day, ms: seq<Day>): (r: seq<Day>)
    requires m.day == 1 && Ascending(ms)
    ensures Ascending(r)
    ensures forall x :: x in r <==> x in ms || x == m
    ensures |r| <= |ms| + 1
  {
    if ms == [] then [m]
    else if MonthIndex(m) < MonthIndex(ms[0]) then [m] + ms
    else if MonthIndex(m) == MonthIndex(ms[0]) then
      SameMonth(m, ms[0]);
      ms
    else
      var t := InsertMonth(m, ms[1..]);
      assert forall x :: x in ms[1..] ==> MonthIndex(ms[0]) < MonthIndex(x);
      assert forall k :: 0 <= k < |t| ==> t[k] in t;
      assert forall x :: x in ms <==> x == ms[0] || x in ms[1..];
      [ms[0]] + t
  }

  /** The months of the bookings' check-in dates, each once, ascending. */
  function Months(rs: seq<Reserva>): (r: seq<Day>)
    ensures Ascending(r)
    ensures forall m :: m in r <==> exists b :: b in rs && MonthOf(b.checkin) == m
    ensures |r| <= |rs|
    decreases |rs|
  {
    if rs == [] then []
    else
      var b := rs[|rs| - 1];
      assert forall x :: x in rs <==> x in rs[..|rs| - 1] || x == b;
      InsertMonth(MonthOf(b.checkin), Months(rs[..|rs| - 1]))
  }

  /** There is a month group exactly when there is a booking. */
  lemma MonthsEmpty(rs: seq<Reserva>)
    ensures Months(rs) == [] <==> rs == []
  {
    if rs != [] {
      assert MonthOf(rs[0].checkin) in Months(rs);
    }
  }

  /** Ascending months are pairwise distinct. */
  lemma AscendingDistinct(ms: seq<Day>)
    requires Ascending(ms)
    ensures forall i, j :: 0 <= i < j < |ms| ==> ms[i] != ms[j]
  {
  }

  /** The bookings whose `key` is `k`: one group of `values(key).annotate(...)`. */
  function Group<K(==)>(rs: seq<Reserva>, key: Reserva -> K, k: K): (r: seq<Reserva>)
    ensures forall b :: b in r <==> b in rs && key(b) == k
    ensures Subsequence(r, rs)
  {
    Where(rs, (b: Reserva) => key(b) == k)
  }

  /** `Sum(w)` over some bookings (0 for none, as `or 0` makes it). */
  function SumOf(rs: seq<Reserva>, w: Reserva -> int): int
    decreases |rs|
  {
    if rs == [] then 0 else SumOf(rs[..|rs| - 1], w) + w(rs[|rs| - 1])
  }

  function One(b: Reserva): int { 1 }
  function Cents(b: Reserva): int { b.montoCents }
  function Noches(b: Reserva): int { b.cantNoches }
  function MonthKey(b: Reserva): Day { MonthOf(b.checkin) }
  function StatusKey(b: Reserva): string { b.status }
  function PropiedadKey(b: Reserva): string { b.propiedadNombre }

  /** `Count('id')` is the sum of ones. */
  lemma {:induction false} SumOfOne(rs: seq<Reserva>)
    ensures SumOf(rs, One) == |rs|
    decreases |rs|
  {
    if rs != [] {
      SumOfOne(rs[..|rs| - 1]);
    }
  }

  /** Night counts are never negative, so neither is their sum. */
  lemma {:induction false} SumOfNoches(rs: seq<Reserva>)
    ensures SumOf(rs, Noches) >= 0
    decreases |rs|
  {
    if rs != [] {
      SumOfNoches(rs[..|rs| - 1]);
    }
  }

  /** The sum of `w` over the groups named in `ks`. */
  function GroupedSum<K(==)>(ks: seq<K>, rs: seq<Reserva>, key: Reserva -> K, w: Reserva -> int): int
    decreases |ks|
  {
    if ks == [] then 0 else GroupedSum(ks[..|ks| - 1], rs, key, w) + SumOf(Group(rs, key, ks[|ks| - 1]), w)
  }

  lemma {:induction false} GroupedSumEmpty<K>(ks: seq<K>, key: Reserva -> K, w: Reserva -> int)
    ensures GroupedSum(ks, [], key, w) == 0
    decreases |ks|
  {
    if ks != [] {
      GroupedSumEmpty(ks[..|ks| - 1], key, w);
    }
  }

  /** One more booking adds its weight to the one group it belongs to, if that group is listed. */
  lemma {:induction false} GroupedSumStep<K>(ks: seq<K>, rs: seq<Reserva>, b: Reserva, key: Reserva -> K, w: Reserva -> int)
    requires forall i, j :: 0 <= i < j < |ks| ==> ks[i] != ks[j]
    ensures GroupedSum(ks, rs + [b], key, w) == GroupedSum(ks, rs, key, w) + (if key(b) in ks then w(b) else 0)
    decreases |ks|
  {
    if ks != [] {
      var init := ks[..|ks| - 1];
      var k := ks[|ks| - 1];
      GroupedSumStep(init, rs, b, key, w);
      assert (rs + [b])[..|rs|] == rs;
      var g := Group(rs + [b], key, k);
      assert g == Group(rs, key, k) + (if key(b) == k then [b] else []);
      if key(b) == k {
        assert g[..|g| - 1] == Group(rs, key, k);
      }
      assert key(b) in ks <==> key(b) in init || key(b) == k;
      assert k !in init;
    }
  }

  /**
   * Grouping loses and duplicates nothing: when the listed keys are distinct and
   * cover every booking, the group sums add up to the sum over all bookings.
   */
  lemma {:induction false} GroupedSumWhole<K>(ks: seq<K>, rs: seq<Reserva>, key: Reserva -> K, w: Reserva -> int)
    requires forall i, j :: 0 <= i < j < |ks| ==> ks[i] != ks[j]
    requires forall b :: b in rs ==> key(b) in ks
    ensures GroupedSum(ks, rs, key, w) == SumOf(rs, w)
    decreases |rs|
  {
    if rs == [] {
      GroupedSumEmpty(ks, key, w);
    } else {
      var init := rs[..|rs| - 1];
      var b := rs[|rs| - 1];
      assert rs == init + [b];
      assert forall x :: x in init ==> x in rs;
      GroupedSumWhole(ks, init, key, w);
      GroupedSumStep(ks, init, b, key, w);
    }
  }

  /** The bookings checked in during month `m`. */
  function InMonth(rs: seq<Reserva>, m: Day): (r: seq<Reserva>)
    ensures forall b :: b in r <==> b in rs && MonthOf(b.checkin) == m
  {
    Group(rs, MonthKey, m)
  }

  /** One month of the revenue trend: the month, `Sum('monto_total')` and `Count('id')`. */
  datatype MesTotal = MesTotal(mes: Day, totalCents: int, count: nat)

  function MesEntry(rs: seq<Reserva>, m: Day): MesTotal {
    MesTotal(m, SumOf(InMonth(rs, m), Cents), |InMonth(rs, m)|)
  }

  function TrendOver(ms: seq<Day>, rs: seq<Reserva>): (r: seq<MesTotal>)
    ensures |r| == |ms|
    ensures forall i :: 0 <= i < |r| ==> r[i] == MesEntry(rs, ms[i])
    decreases |ms|
  {
    if ms == [] then []
    else TrendOver(ms[..|ms| - 1], rs) + [MesEntry(rs, ms[|ms| - 1])]
  }

  /**
   * `annotate(mes=TruncMonth('fecha_checkin')).values('mes').annotate(total=Sum('monto_total'),
   * count=Count('id')).order_by('mes')`: one entry per month with bookings, in the
   * ascending order of `Months`, holding that month's booking count and revenue.
   */
  function Trend(rs: seq<Reserva>): (r: seq<MesTotal>)
    ensures |r| == |Months(rs)|
    ensures forall i :: 0 <= i < |r| ==> r[i].mes == Months(rs)[i]
    ensures forall i :: 0 <= i < |r| ==>
      r[i].count == |InMonth(rs, r[i].mes)| && r[i].totalCents == SumOf(InMonth(rs, r[i].mes), Cents)
  {
    TrendOver(Months(rs), rs)
  }

  /** Every trend entry is a month some booking falls in, so its count is at least one. */
  lemma TrendCountsPositive(rs: seq<Reserva>, i: nat)
    requires i < |Trend(rs)|
    ensures Trend(rs)[i].count >= 1
  {
    var m := Months(rs)[i];
    assert m in Months(rs);
    var b :| b in rs && MonthOf(b.checkin) == m;
    assert b in InMonth(rs, m);
  }

  /** Every booking's month has its trend entry. */
  lemma TrendCovers(rs: seq<Reserva>, b: Reserva)
    requires b in rs
    ensures exists i :: 0 <= i < |Trend(rs)| && Trend(rs)[i].mes == MonthOf(b.checkin)
  {
    var ms := Months(rs);
    assert MonthOf(b.checkin) in ms;
    var i :| 0 <= i < |ms| && ms[i] == MonthOf(b.checkin);
    assert Trend(rs)[i].mes == MonthOf(b.checkin);
  }

  function TrendCents(t: seq<MesTotal>): int
    decreases |t|
  {
    if t == [] then 0 else TrendCents(t[..|t| - 1]) + t[|t| - 1].totalCents
  }

  function TrendCount(t: seq<MesTotal>): int
    decreases |t|
  {
    if t == [] then 0 else TrendCount(t[..|t| - 1]) + t[|t| - 1].count
  }

  lemma {:induction false} TrendOverSums(ms: seq<Day>, rs: seq<Reserva>)
    ensures TrendCents(TrendOver(ms, rs)) == GroupedSum(ms, rs, MonthKey, Cents)
    ensures TrendCount(TrendOver(ms, rs)) == GroupedSum(ms, rs, MonthKey, One)
    decreases |ms|
  {
    if ms != [] {
      var init := ms[..|ms| - 1];
      TrendOverSums(init, rs);
      var t := TrendOver(ms, rs);
      assert t[..|t| - 1] == TrendOver(init, rs);
      SumOfOne(InMonth(rs, ms[|ms| - 1]));
    }
  }

  /** Every booking is counted in exactly one month: the trend's counts and revenues add up to the totals. */
  lemma TrendTotals(rs: seq<Reserva>)
    ensures TrendCount(Trend(rs)) == |rs|
    ensures TrendCents(Trend(rs)) == SumOf(rs, Cents)
  {
    var ms := Months(rs);
    AscendingDistinct(ms);
    assert forall b :: b in rs ==> MonthKey(b) in ms;
    TrendOverSums(ms, rs);
    GroupedSumWhole(ms, rs, MonthKey, Cents);
    GroupedSumWhole(ms, rs, MonthKey, One);
    SumOfOne(rs);
  }

  /** A trend entry as the `ingresos` report lists it. */
  function IngresoRow(t: MesTotal): Row {
    [("mes", DateValue(t.mes)), ("total", Money(t.totalCents)), ("count", VInt(t.count))]
  }

  lemma IngresoRowKeys(t: MesTotal)
    ensures Keys(IngresoRow(t)) == CampoNames(Ingresos)
  {
    assert Keys(IngresoRow(t)) == ["mes", "total", "count"];
    assert CampoNames(Ingresos) == ["mes", "total", "count"];
  }

  /** The `ingresos` rows: the trend, each month written as its ISO date and the catalog's fields as keys. */
  function IngresosRows(rs: seq<Reserva>): (r: seq<Row>)
    ensures |r| == |Months(rs)|
    ensures forall i :: 0 <= i < |r| ==> Keys(r[i]) == CampoNames(Ingresos)
    ensures forall i :: 0 <= i < |r| ==> r[i] == IngresoRow(Trend(rs)[i])
  {
    RowsOfTrend(Trend(rs))
  }

  /** One `ingresos` row per trend entry, in order. */
  function RowsOfTrend(t: seq<MesTotal>): (r: seq<Row>)
    ensures |r| == |t|
    ensures forall i :: 0 <= i < |r| ==> Keys(r[i]) == CampoNames(Ingresos)
    ensures forall i :: 0 <= i < |r| ==> r[i] == IngresoRow(t[i])
  {
    forall i | 0 <= i < |t|
      ensures Keys(IngresoRow(t[i])) == CampoNames(Ingresos)
    {
      IngresoRowKeys(t[i]);
    }
    seq(|t|, i requires 0 <= i < |t| => IngresoRow(t[i]))
  }

  /**
   * `item['mes'].date()` as written: `TruncMonth` over a `DateField` gives a
   * `date`, which has no `date()` method, so the call raises for every group
   * (an AttributeError, answered as 500).
   */
  function MesAsWritten(mes: Day): (r: Result<Day>)
    ensures r.Err? && r.status == 500
  {
    Err(500)
  }

  /** The `ingresos` list comprehension as written: it raises at the first month. */
  function IngresosAsWritten(rs: seq<Reserva>): (r: Result<seq<Row>>)
    ensures r.Ok? <==> rs == []
    ensures r.Ok? ==> r.value == []
  {
    var t := Trend(rs);
    MonthsEmpty(rs);
    if t == [] then Ok([])
    else
      match MesAsWritten(t[0].mes)
      case Ok(_) => Ok(IngresosRows(rs))
      case Err(e) => Err(e)
  }

  /** `total_propiedades`: all properties for a superuser, the host's own otherwise, and 1 instead of 0. */
  function PropertyCount(count: nat): (n: nat)
    ensures n >= 1
    ensures count >= 1 ==> n == count
  {
    if count == 0 then 1 else count
  }

  /** One month of the occupancy estimate. */
  datatype OcupacionRow = OcupacionRow(mes: Day, nochesReservadas: nat, nochesPosibles: nat, ocupacion: real)

  /** A month's length times a property count lies between 28 and 31 times that count. */
  lemma PosiblesBounds(d: int, n: nat)
    requires 28 <= d <= 31
    ensures 28 * n <= d * n <= 31 * n
  {
    assert d * n == 28 * n + (d - 28) * n;
    assert 31 * n == d * n + (31 - d) * n;
  }

  /** The row of month `m`: nights booked, nights on offer and their ratio. */
  function OcupacionEntry(rs: seq<Reserva>, m: Day, total: nat): (o: OcupacionRow)
    requires total >= 1
    ensures o.mes == m && o.nochesReservadas == SumOf(InMonth(rs, m), Noches)
    ensures o.nochesPosibles == DaysInMonth(m.year, m.month) * total
    ensures 28 * total <= o.nochesPosibles <= 31 * total
    ensures o.ocupacion == o.nochesReservadas as real / o.nochesPosibles as real
    ensures o.ocupacion >= 0.0
  {
    var reservadas := SumOf(InMonth(rs, m), Noches);
    SumOfNoches(InMonth(rs, m));
    var d := DaysInMonth(m.year, m.month);
    PosiblesBounds(d, total);
    var posibles := d * total;
    OcupacionRow(m, reservadas, posibles, reservadas as real / posibles as real)
  }

  function OcupacionOver(ms: seq<Day>, rs: seq<Reserva>, total: nat): (r: seq<OcupacionRow>)
    requires total >= 1
    ensures |r| == |ms|
    ensures forall i :: 0 <= i < |r| ==> r[i] == OcupacionEntry(rs, ms[i], total)
    decreases |ms|
  {
    if ms == [] then []
    else OcupacionOver(ms[..|ms| - 1], rs, total) + [OcupacionEntry(rs, ms[|ms| - 1], total)]
  }

  /**
   * The `ocupacion` rows: for each month with bookings, ascending, the nights booked
   * that month, the nights the properties offer (days of the month times the
   * property count) and their ratio, which is not capped at 1.
   */
  function Occupancy(rs: seq<Reserva>, propCount: nat): (r: seq<OcupacionRow>)
    ensures |r| == |Months(rs)|
    ensures forall i :: 0 <= i < |r| ==> r[i] == OcupacionEntry(rs, Months(rs)[i], PropertyCount(propCount))
  {
    OcupacionOver(Months(rs), rs, PropertyCount(propCount))
  }

  lemma OcupacionOverSnoc(ms: seq<Day>, m: Day, rs: seq<Reserva>, total: nat)
    requires total >= 1
    ensures OcupacionOver(ms + [m], rs, total) == OcupacionOver(ms, rs, total) + [OcupacionEntry(rs, m, total)]
  {
    assert (ms + [m])[..|ms|] == ms;
  }

  lemma OcupacionOverStep(ms: seq<Day>, i: nat, rs: seq<Reserva>, total: nat)
    requires i < |ms| && total >= 1
    ensures OcupacionOver(ms[..i + 1], rs, total) == OcupacionOver(ms[..i], rs, total) + [OcupacionEntry(rs, ms[i], total)]
  {
    assert ms[..i + 1] == ms[..i] + [ms[i]];
    OcupacionOverSnoc(ms[..i], ms[i], rs, total);
  }

  /** The figures the occupancy loop computes for month `m` make up that month's entry. */
  lemma OcupacionEntryOf(rs: seq<Reserva>, m: Day, total: nat, reservadas: int, posibles: int, ocupacion: real)
    requires total >= 1
    requires reservadas == SumOf(InMonth(rs, m), Noches) && posibles == DaysInMonth(m.year, m.month) * total
    requires ocupacion == if posibles != 0 then reservadas as real / posibles as real else 0.0
    ensures reservadas >= 0 && posibles >= 0
    ensures OcupacionRow(m, reservadas, posibles, ocupacion) == OcupacionEntry(rs, m, total)
  {
    var o := OcupacionEntry(rs, m, total);
    assert o.nochesReservadas == reservadas && o.nochesPosibles == posibles;
  }

  /**
   * The occupancy loop: walk the month groups, compute each month's length the way
   * the source does (first of the next month minus the first of this one) and
   * append one row per month.
   */
  method OccupancyRows(rs: seq<Reserva>, propCount: nat) returns (rows: seq<OcupacionRow>)
    ensures rows == Occupancy(rs, propCount)
  {
    var trend := Months(rs);
    var total := PropertyCount(propCount);
    rows := [];
    var i := 0;
    while i < |trend|
      invariant 0 <= i <= |trend|
      invariant rows == OcupacionOver(trend[..i], rs, total)
    {
      var mes := trend[i];
      var daysInMonth := DaysInMonthViaNextMonth(mes);
      var posibles := daysInMonth * total;
      PosiblesBounds(daysInMonth, total);
      var reservadas := SumOf(InMonth(rs, mes), Noches);
      SumOfNoches(InMonth(rs, mes));
      var ocupacion := if posibles != 0 then reservadas as real / posibles as real else 0.0;
      OcupacionEntryOf(rs, mes, total, reservadas, posibles, ocupacion);
      OcupacionOverStep(trend, i, rs, total);
      rows := rows + [OcupacionRow(mes, reservadas, posibles, ocupacion)];
      i := i + 1;
    }
    assert trend[..|trend|] == trend;
  }

  function OcupacionNights(r: seq<OcupacionRow>): int
    decreases |r|
  {
    if r == [] then 0 else OcupacionNights(r[..|r| - 1]) + r[|r| - 1].nochesReservadas
  }

  lemma {:induction false} OcupacionOverNights(ms: seq<Day>, rs: seq<Reserva>, total: nat)
    requires total >= 1
    ensures OcupacionNights(OcupacionOver(ms, rs, total)) == GroupedSum(ms, rs, MonthKey, Noches)
    decreases |ms|
  {
    if ms != [] {
      OcupacionOverNights(ms[..|ms| - 1], rs, total);
      var r := OcupacionOver(ms, rs, total);
      assert r[..|r| - 1] == OcupacionOver(ms[..|ms| - 1], rs, total);
    }
  }

  /** Every booked night lands in exactly one month's row. */
  lemma OcupacionNightsTotal(rs: seq<Reserva>, propCount: nat)
    ensures OcupacionNights(Occupancy(rs, propCount)) == SumOf(rs, Noches)
  {
    var ms := Months(rs);
    AscendingDistinct(ms);
    assert forall b :: b in rs ==> MonthKey(b) in ms;
    OcupacionOverNights(ms, rs, PropertyCount(propCount));
    GroupedSumWhole(ms, rs, MonthKey, Noches);
  }

  /** The ratio is not capped: one property with 40 nights booked in February 2023 is at 40/28. */
  lemma OcupacionNotCapped(b: Reserva)
    requires b.checkin == Date(2023, 2, 10) && b.cantNoches == 40
    ensures Occupancy([b], 1)[0].ocupacion == 40.0 / 28.0
    ensures Occupancy([b], 1)[0].ocupacion > 1.0
  {
    var m := MonthOf(b.checkin);
    assert [b][..0] == [];
    assert Months([b]) == [m];
    assert InMonth([b], m) == [b];
    assert SumOf([b], Noches) == 40;
    assert DaysInMonth(2023, 2) == 28;
  }

  /** An occupancy entry as the `ocupacion` report lists it. */
  function OcupacionRowValue(o: OcupacionRow): Row {
    [("mes", DateValue(o.mes)), ("noches_reservadas", VInt(o.nochesReservadas)),
     ("noches_posibles", VInt(o.nochesPosibles)), ("ocupacion", VNum(o.ocupacion))]
  }

  lemma OcupacionRowKeys(o: OcupacionRow)
    ensures Keys(OcupacionRowValue(o)) == CampoNames(Ocupacion)
  {
    assert Keys(OcupacionRowValue(o)) == ["mes", "noches_reservadas", "noches_posibles", "ocupacion"];
    assert CampoNames(Ocupacion) == ["mes", "noches_reservadas", "noches_posibles", "ocupacion"];
  }

  /** The `ocupacion` rows: one per month, the catalog's fields as keys. */
  function OcupacionRowsValues(filas: seq<OcupacionRow>): (r: seq<Row>)
    ensures |r| == |filas|
    ensures forall i :: 0 <= i < |r| ==> r[i] == OcupacionRowValue(filas[i]) && Keys(r[i]) == CampoNames(Ocupacion)
  {
    forall i | 0 <= i < |filas|
      ensures Keys(OcupacionRowValue(filas[i])) == CampoNames(Ocupacion)
    {
      OcupacionRowKeys(filas[i]);
    }
    seq(|filas|, i requires 0 <= i < |filas| => OcupacionRowValue(filas[i]))
  }

  /** The occupancy loop as written: `item['mes'].date()` raises at the first month. */
  function OcupacionAsWritten(rs: seq<Reserva>, propCount: nat): (r: Result<seq<OcupacionRow>>)
    ensures r.Ok? <==> rs == []
    ensures r.Ok? ==> r.value == []
  {
    var ms := Months(rs);
    MonthsEmpty(rs);
    if ms == [] then Ok([])
    else
      match MesAsWritten(ms[0])
      case Ok(_) => Ok(Occupancy(rs, propCount))
      case Err(e) => Err(e)
  }

  /** One bar of a chart: the group's key, `Count('id')` and `Sum('monto_total')`. */
  datatype Grupo = Grupo(clave: string, count: nat, totalCents: int)

  function GroupsOver(ks: seq<string>, rs: seq<Reserva>, key: Reserva -> string): (r: seq<Grupo>)
    ensures |r| == |ks|
    ensures forall i :: 0 <= i < |r| ==>
      r[i] == Grupo(ks[i], |Group(rs, key, ks[i])|, SumOf(Group(rs, key, ks[i]), Cents))
    decreases |ks|
  {
    if ks == [] then []
    else
      var k := ks[|ks| - 1];
      GroupsOver(ks[..|ks| - 1], rs, key) + [Grupo(k, |Group(rs, key, k)|, SumOf(Group(rs, key, k), Cents))]
  }

  function KeysOf(rs: seq<Reserva>, key: Reserva -> string): (r: seq<string>)
    ensures |r| == |rs|
    ensures forall i :: 0 <= i < |r| ==> r[i] == key(rs[i])
  {
    seq(|rs|, i requires 0 <= i < |rs| => key(rs[i]))
  }

  function Claves(r: seq<Grupo>): (ks: seq<string>)
    ensures |ks| == |r|
    ensures forall i :: 0 <= i < |r| ==> ks[i] == r[i].clave
  {
    seq(|r|, i requires 0 <= i < |r| => r[i].clave)
  }

  /**
   * `values(key).annotate(count=Count('id'), total=Sum('monto_total'))`: one group
   * per distinct key value among the bookings, each with its count and revenue.
   */
  function Groups(rs: seq<Reserva>, key: Reserva -> string): (r: seq<Grupo>)
    ensures forall i, j :: 0 <= i < j < |r| ==> r[i].clave != r[j].clave
    ensures forall k :: k in Claves(r) <==> k in KeysOf(rs, key)
    ensures forall i :: 0 <= i < |r| ==>
      r[i].count == |Group(rs, key, r[i].clave)| && r[i].totalCents == SumOf(Group(rs, key, r[i].clave), Cents)
  {
    var ks := Dedup(KeysOf(rs, key));
    var r := GroupsOver(ks, rs, key);
    assert Claves(r) == ks;
    r
  }

  /** A key value has a group exactly when some booking carries it. */
  lemma GroupsCover(rs: seq<Reserva>, key: Reserva -> string, k: string)
    ensures k in Claves(Groups(rs, key)) <==> exists b :: b in rs && key(b) == k
  {
    if exists b :: b in rs && key(b) == k {
      var b :| b in rs && key(b) == k;
      var j :| 0 <= j < |rs| && rs[j] == b;
      assert KeysOf(rs, key)[j] == k;
    }
    if k in KeysOf(rs, key) {
      var j :| 0 <= j < |rs| && KeysOf(rs, key)[j] == k;
      assert rs[j] in rs;
    }
  }

  /** No group is empty. */
  lemma GroupsNonEmpty(rs: seq<Reserva>, key: Reserva -> string, i: nat)
    requires i < |Groups(rs, key)|
    ensures Groups(rs, key)[i].count >= 1
  {
    var g := Groups(rs, key)[i];
    assert g.clave in Claves(Groups(rs, key));
    var j :| 0 <= j < |rs| && KeysOf(rs, key)[j] == g.clave;
    assert rs[j] in Group(rs, key, g.clave);
  }

  function ByCount(g: Grupo): int { g.count }
  function ByTotal(g: Grupo): int { g.totalCents }

  /** `reservas_por_estado`: the status groups, most bookings first. */
  function PorEstado(rs: seq<Reserva>): (r: seq<Grupo>)
    ensures multiset(r) == multiset(Groups(rs, StatusKey))
    ensures SortedDesc(r, ByCount)
  {
    SortDesc(Groups(rs, StatusKey), ByCount)
  }

  /** All property groups, highest revenue first. */
  function PropertyRanking(rs: seq<Reserva>): (r: seq<Grupo>)
    ensures multiset(r) == multiset(Groups(rs, PropiedadKey))
    ensures SortedDesc(r, ByTotal)
  {
    SortDesc(Groups(rs, PropiedadKey), ByTotal)
  }

  /**
   * `reservas_por_propiedad`: the ten properties with the highest revenue (fewer
   * when there are fewer), highest first; no property left out earns more than
   * one shown.
   */
  function PorPropiedad(rs: seq<Reserva>): (r: seq<Grupo>)
    ensures |r| == if |PropertyRanking(rs)| <= 10 then |PropertyRanking(rs)| else 10
    ensures SortedDesc(r, ByTotal)
    ensures multiset(r) <= multiset(Groups(rs, PropiedadKey))
    ensures forall i, j :: 0 <= i < |r| <= j < |PropertyRanking(rs)| ==>
      PropertyRanking(rs)[j].totalCents <= r[i].totalCents
  {
    var ranking := PropertyRanking(rs);
    var n := if |ranking| <= 10 then |ranking| else 10;
    TopRanked(ranking, n);
    ranking[..n]
  }

  /** The first `n` groups of a ranking are ranked themselves, drawn from it, and earn no less than the rest. */
  lemma TopRanked(ranking: seq<Grupo>, n: nat)
    requires n <= |ranking| && SortedDesc(ranking, ByTotal)
    ensures SortedDesc(ranking[..n], ByTotal)
    ensures multiset(ranking[..n]) <= multiset(ranking)
    ensures forall i, j :: 0 <= i < n <= j < |ranking| ==> ranking[j].totalCents <= ranking[..n][i].totalCents
  {
    PrefixMultiset(ranking, n);
  }

  /** The `reservas` charts; the monthly trend holds the same groups as the `ingresos` report. */
  datatype Graficos = Graficos(porEstado: seq<Grupo>, porPropiedad: seq<Grupo>, tendencia: seq<MesTotal>)

  /**
   * The status chart holds every status group, most bookings first; the property
   * chart at most ten groups, highest revenue first; the monthly trend one entry
   * per month with bookings, and its counts and revenues add up to the totals.
   */
  function ReservasGraficos(rs: seq<Reserva>): (g: Graficos)
    ensures multiset(g.porEstado) == multiset(Groups(rs, StatusKey)) && SortedDesc(g.porEstado, ByCount)
    ensures |g.porPropiedad| <= 10 && SortedDesc(g.porPropiedad, ByTotal)
    ensures |g.tendencia| == |Months(rs)|
    ensures TrendCount(g.tendencia) == |rs| && TrendCents(g.tendencia) == SumOf(rs, Cents)
  {
    TrendTotals(rs);
    Graficos(PorEstado(rs), PorPropiedad(rs), Trend(rs))
  }

  /** The charts as written: the trend's `.date()` call raises as soon as there is a booking. */
  function ReservasGraficosAsWritten(rs: seq<Reserva>): (r: Result<Graficos>)
    ensures r.Ok? <==> rs == []
  {
    var t := Trend(rs);
    MonthsEmpty(rs);
    if t == [] then Ok(ReservasGraficos(rs))
    else
      match MesAsWritten(t[0].mes)
      case Ok(_) => Ok(ReservasGraficos(rs))
      case Err(e) => Err(e)
  }
}
