/**
 * `_apply_filters`: the report's filter dictionary narrowing its base
 * collection one lookup at a time. Each present, truthy value adds one
 * condition; boolean filters apply only to real booleans; a value the lookup
 * cannot convert (a date that is not ISO text, an id that is not a number)
 * raises, which the views turn into a 500.
 */
module ReportesFilters {
  import opened Wrappers
  import opened Text
  import opened Calendar
  import opened Json
  import opened DrfFields
  import opened Seqs
  import opened ReportesCatalog
  import opened ReportesData

  const ServerError: int := 500

  /** The value stored under `key`, when present and truthy (`if filtros.get(key):`). */
  function Active(filtros: seq<(string, Json)>, key: string): (r: Option<Json>)
    ensures r.Some? <==> Has(filtros, key) && Truthy(Get(filtros, key).value)
    ensures r.Some? ==> r == Get(filtros, key) && Truthy(r.value)
  {
    match Get(filtros, key)
    case Some(v) => if Truthy(v) then Some(v) else None
    case None => None
  }

  /**
   * A date bound as a date lookup converts it: ignored when absent or falsy,
   * ISO `YYYY-MM-DD` text parsed, anything else an error.
   */
  function DateBound(filtros: seq<(string, Json)>, key: string): (r: Result<Option<Day>>)
    ensures Active(filtros, key).None? ==> r == Ok(None)
    ensures r.Ok? && r.value.Some? ==>
      Active(filtros, key).Some? && Active(filtros, key).value.JStr? &&
      ParseIsoDate(Active(filtros, key).value.s) == Some(r.value.value)
    ensures Active(filtros, key).Some? && !Active(filtros, key).value.JStr? ==> r.Err?
  {
    match Active(filtros, key)
    case None => Ok(None)
    case Some(v) =>
      if v.JStr? then
        match ParseIsoDate(v.s)
        case Some(d) => Ok(Some(d))
        case None => Err(ServerError)
      else Err(ServerError)
  }

  /**
   * A text lookup (`status=`, `tipo=`, `ciudad__icontains=`): `Some(t)` compares
   * with the value's `str()`; `Some(None)` stands for a list or dictionary value,
   * which matches no stored text.
   */
  function TextValue(filtros: seq<(string, Json)>, key: string): (r: Option<Option<string>>)
    ensures r.Some? <==> Active(filtros, key).Some?
    ensures r.Some? ==> r.value == PyStr(Active(filtros, key).value)
  {
    match Active(filtros, key)
    case None => None
    case Some(v) => Some(PyStr(v))
  }

  /** Python's `int(x)` for a float: truncation toward zero. */
  function Truncate(x: real): (n: int)
    ensures x >= 0.0 ==> n as real <= x < n as real + 1.0
    ensures x < 0.0 ==> n as real - 1.0 < x <= n as real
  {
    if x >= 0.0 then x.Floor else -((-x).Floor)
  }

  /** The `int()` an integer primary key lookup applies to the filter value. */
  function IdValue(j: Json): (r: Result<int>)
    ensures j.JInt? ==> r == Ok(j.i)
    ensures j.JStr? ==> (r.Ok? <==> ParseInt(j.s).Some?)
    ensures (j.JNull? || j.JArr? || j.JObj?) ==> r.Err?
  {
    match j
    case JInt(i) => Ok(i)
    case JBool(b) => Ok(if b then 1 else 0)
    case JFloat(x, _) => Ok(Truncate(x))
    case JStr(s) => (match ParseInt(s) case Some(n) => Ok(n) case None => Err(ServerError))
    case _ => Err(ServerError)
  }

  /** A boolean filter: applied only when the key is present with a real boolean. */
  function BoolValue(filtros: seq<(string, Json)>, key: string): (r: Option<bool>)
    ensures r.Some? <==> Has(filtros, key) && Get(filtros, key).value.JBool?
    ensures r.Some? ==> Get(filtros, key) == Some(JBool(r.value))
  {
    match Get(filtros, key)
    case Some(JBool(b)) => Some(b)
    case _ => None
  }

  /** A stored text against a text lookup value. */
  predicate TextMatches(stored: string, want: Option<string>) {
    want.Some? && stored == want.value
  }

  predicate NotBefore(d: Day, bound: Option<Day>) {
    bound.None? || !Before(d, bound.value)
  }

  predicate NotAfter(d: Day, bound: Option<Day>) {
    bound.None? || !Before(bound.value, d)
  }

  // ---- bookings (reservas, ingresos, ocupacion) ----

  datatype BookingFilter = BookingFilter(
    desde: Option<Day>,
    hasta: Option<Day>,
    status: Option<Option<string>>,
    pago: Option<Option<string>>,
    propiedad: Option<int>)

  /** The conditions a filter dictionary sets on bookings, or the error converting one of them raises. */
  function BookingFilterOf(filtros: seq<(string, Json)>): (r: Result<BookingFilter>)
    ensures filtros == [] ==> r == Ok(BookingFilter(None, None, None, None, None))
    ensures r.Ok? ==> r.value.status == TextValue(filtros, "status") && r.value.pago == TextValue(filtros, "pago_estado")
    ensures r.Ok? ==> (r.value.propiedad.Some? <==> Active(filtros, "propiedad_id").Some?)
    ensures r.Err? <==>
      DateBound(filtros, "fecha_inicio").Err? || DateBound(filtros, "fecha_fin").Err? ||
      (Active(filtros, "propiedad_id").Some? && IdValue(Active(filtros, "propiedad_id").value).Err?)
  {
    var desde := DateBound(filtros, "fecha_inicio");
    var hasta := DateBound(filtros, "fecha_fin");
    var id := match Active(filtros, "propiedad_id")
      case None => Ok(None)
      case Some(v) => (match IdValue(v) case Ok(n) => Ok(Some(n)) case Err(e) => Err(e));
    if desde.Err? || hasta.Err? || id.Err? then Err(ServerError)
    else Ok(BookingFilter(desde.value, hasta.value, TextValue(filtros, "status"), TextValue(filtros, "pago_estado"), id.value))
  }

  /** A text condition, when set, against a stored text. */
  predicate TextOk(stored: string, want: Option<Option<string>>) {
    want.None? || TextMatches(stored, want.value)
  }

  predicate IdOk(stored: int, want: Option<int>) {
    want.None? || stored == want.value
  }

  /** The booking conditions together: check-in on or after the start, check-out on or before the end, exact texts and id. */
  predicate KeepsBooking(f: BookingFilter, b: Reserva) {
    NotBefore(b.checkin, f.desde) && NotAfter(b.checkout, f.hasta) &&
    TextOk(b.status, f.status) && TextOk(b.pagoEstado, f.pago) && IdOk(b.propiedadId, f.propiedad)
  }

  /**
   * The booking branch of `_apply_filters`, one lookup after another. The values
   * are converted first; a conversion that fails fails the whole call, as the
   * lookup that raises does.
   */
  method FilterBookings(qs: seq<Reserva>, filtros: seq<(string, Json)>) returns (r: Result<seq<Reserva>>)
    ensures r.Ok? <==> BookingFilterOf(filtros).Ok?
    ensures filtros == [] ==> r == Ok(qs)
    ensures r.Ok? ==> Subsequence(r.value, qs)
    ensures r.Ok? ==> forall b :: b in r.value <==> b in qs && KeepsBooking(BookingFilterOf(filtros).value, b)
  {
    if filtros == [] {
      SubsequenceRefl(qs);
      return Ok(qs);
    }
    var spec := BookingFilterOf(filtros);
    if spec.Err? {
      return Err(ServerError);
    }
    var out := NarrowBookings(qs, spec.value);
    return Ok(out);
  }

  /**
   * The lookups of a converted booking filter, applied in the source's order.
   * After the k-th lookup the bookings kept are those that meet the first k
   * conditions (`f0` .. `f4`, then `f`; an absent condition keeps every booking).
   */
  method NarrowBookings(qs: seq<Reserva>, f: BookingFilter) returns (out: seq<Reserva>)
    ensures Subsequence(out, qs)
    ensures forall b :: b in out <==> b in qs && KeepsBooking(f, b)
  {
    var f0 := BookingFilter(None, None, None, None, None);
    var f1 := f0.(desde := f.desde);
    var f2 := f1.(hasta := f.hasta);
    var f3 := f2.(status := f.status);
    var f4 := f3.(pago := f.pago);
    SubsequenceRefl(qs);
    out := qs;
    if f.desde.Some? {
      out := Narrow(qs, out, f0, (b: Reserva) => NotBefore(b.checkin, f.desde), f1);
    }
    if f.hasta.Some? {
      out := Narrow(qs, out, f1, (b: Reserva) => NotAfter(b.checkout, f.hasta), f2);
    }
    if f.status.Some? {
      out := Narrow(qs, out, f2, (b: Reserva) => TextOk(b.status, f.status), f3);
    }
    if f.pago.Some? {
      out := Narrow(qs, out, f3, (b: Reserva) => TextOk(b.pagoEstado, f.pago), f4);
    }
    if f.propiedad.Some? {
      out := Narrow(qs, out, f4, (b: Reserva) => IdOk(b.propiedadId, f.propiedad), f);
    }
  }

  /** One lookup on the bookings kept so far: those that also meet `keep` stay, in order. */
  method Narrow(qs: seq<Reserva>, out: seq<Reserva>, cur: BookingFilter, keep: Reserva -> bool, cur2: BookingFilter)
    returns (next: seq<Reserva>)
    requires Subsequence(out, qs)
    requires forall b :: b in out <==> b in qs && KeepsBooking(cur, b)
    requires forall b :: KeepsBooking(cur2, b) <==> KeepsBooking(cur, b) && keep(b)
    ensures next == Where(out, keep)
    ensures Subsequence(next, qs)
    ensures forall b :: b in next <==> b in qs && KeepsBooking(cur2, b)
  {
    next := Where(out, keep);
    SubsequenceTrans(next, out, qs);
    NarrowMembers(qs, out, next, (b: Reserva) => KeepsBooking(cur, b), keep, (b: Reserva) => KeepsBooking(cur2, b));
  }

  // ---- properties ----

  datatype PropertyFilter = PropertyFilter(tipo: Option<Option<string>>, ciudad: Option<Option<string>>, destino: Option<bool>)

  /** Property filters never raise: texts are compared through their `str()`. */
  function PropertyFilterOf(filtros: seq<(string, Json)>): (r: PropertyFilter)
    ensures filtros == [] ==> r == PropertyFilter(None, None, None)
    ensures r.destino.Some? <==> Has(filtros, "es_destino_turistico") && Get(filtros, "es_destino_turistico").value.JBool?
  {
    PropertyFilter(TextValue(filtros, "tipo"), TextValue(filtros, "ciudad"), BoolValue(filtros, "es_destino_turistico"))
  }

  /** The city condition: the stored city contains the value's text, ignoring case. */
  predicate CityOk(stored: string, want: Option<Option<string>>) {
    want.None? || (want.value.Some? && IContains(stored, want.value.value))
  }

  predicate FlagOk(stored: bool, want: Option<bool>) {
    want.None? || stored == want.value
  }

  /** Exact type, city containing the value ignoring case, and the tourist flag. */
  predicate KeepsProperty(f: PropertyFilter, p: Propiedad) {
    TextOk(p.tipo, f.tipo) && CityOk(p.ciudad, f.ciudad) && FlagOk(p.esDestinoTuristico, f.destino)
  }

  /** The property branch of `_apply_filters`. */
  method FilterProperties(qs: seq<Propiedad>, filtros: seq<(string, Json)>) returns (r: seq<Propiedad>)
    ensures filtros == [] ==> r == qs
    ensures Subsequence(r, qs)
    ensures forall p :: p in r <==> p in qs && KeepsProperty(PropertyFilterOf(filtros), p)
  {
    if filtros == [] {
      SubsequenceRefl(qs);
      return qs;
    }
    r := NarrowProperties(qs, PropertyFilterOf(filtros));
  }

  method NarrowProperties(qs: seq<Propiedad>, f: PropertyFilter) returns (out: seq<Propiedad>)
    ensures Subsequence(out, qs)
    ensures forall p :: p in out <==> p in qs && KeepsProperty(f, p)
  {
    SubsequenceRefl(qs);
    var cur := PropertyFilter(None, None, None);
    out := qs;
    assert forall p :: p in out <==> p in qs && KeepsProperty(cur, p);
    if f.tipo.Some? {
      var next := Where(out, (p: Propiedad) => TextOk(p.tipo, f.tipo));
      SubsequenceTrans(next, out, qs);
      var cur2 := cur.(tipo := f.tipo);
      NarrowMembers(qs, out, next, (p: Propiedad) => KeepsProperty(cur, p), (p: Propiedad) => TextOk(p.tipo, f.tipo),
        (p: Propiedad) => KeepsProperty(cur2, p));
      out, cur := next, cur2;
    }
    if f.ciudad.Some? {
      var next := Where(out, (p: Propiedad) => CityOk(p.ciudad, f.ciudad));
      SubsequenceTrans(next, out, qs);
      var cur2 := cur.(ciudad := f.ciudad);
      NarrowMembers(qs, out, next, (p: Propiedad) => KeepsProperty(cur, p), (p: Propiedad) => CityOk(p.ciudad, f.ciudad),
        (p: Propiedad) => KeepsProperty(cur2, p));
      out, cur := next, cur2;
    }
    if f.destino.Some? {
      var next := Where(out, (p: Propiedad) => FlagOk(p.esDestinoTuristico, f.destino));
      SubsequenceTrans(next, out, qs);
      var cur2 := cur.(destino := f.destino);
      NarrowMembers(qs, out, next, (p: Propiedad) => KeepsProperty(cur, p),
        (p: Propiedad) => FlagOk(p.esDestinoTuristico, f.destino), (p: Propiedad) => KeepsProperty(cur2, p));
      out, cur := next, cur2;
    }
    assert cur == f;
  }

  // ---- invoices and users: a boolean flag and a date range on a timestamp's date ----

  datatype StampFilter = StampFilter(flag: Option<bool>, desde: Option<Day>, hasta: Option<Day>)

  /** `flagKey` is `enviada` for invoices and `is_active` for users. */
  function StampFilterOf(filtros: seq<(string, Json)>, flagKey: string): (r: Result<StampFilter>)
    ensures filtros == [] ==> r == Ok(StampFilter(None, None, None))
    ensures r.Err? <==> DateBound(filtros, "fecha_inicio").Err? || DateBound(filtros, "fecha_fin").Err?
    ensures r.Ok? ==> r.value.flag == BoolValue(filtros, flagKey)
  {
    var desde := DateBound(filtros, "fecha_inicio");
    var hasta := DateBound(filtros, "fecha_fin");
    if desde.Err? || hasta.Err? then Err(ServerError)
    else Ok(StampFilter(BoolValue(filtros, flagKey), desde.value, hasta.value))
  }

  /** The flag, then the timestamp's date on or after the start and on or before the end. */
  predicate KeepsStamped(f: StampFilter, flag: bool, at: Stamp) {
    FlagOk(flag, f.flag) && NotBefore(at.date, f.desde) && NotAfter(at.date, f.hasta)
  }

  /** The invoice branch of `_apply_filters`. */
  method FilterInvoices(qs: seq<Factura>, filtros: seq<(string, Json)>) returns (r: Result<seq<Factura>>)
    ensures r.Ok? <==> StampFilterOf(filtros, "enviada").Ok?
    ensures filtros == [] ==> r == Ok(qs)
    ensures r.Ok? ==> Subsequence(r.value, qs)
    ensures r.Ok? ==> forall f :: f in r.value <==> f in qs && KeepsStamped(StampFilterOf(filtros, "enviada").value, f.enviada, f.creadoEn)
  {
    if filtros == [] {
      SubsequenceRefl(qs);
      return Ok(qs);
    }
    var spec := StampFilterOf(filtros, "enviada");
    if spec.Err? {
      return Err(ServerError);
    }
    var out := NarrowInvoices(qs, spec.value);
    return Ok(out);
  }

  method NarrowInvoices(qs: seq<Factura>, f: StampFilter) returns (out: seq<Factura>)
    ensures Subsequence(out, qs)
    ensures forall x :: x in out <==> x in qs && KeepsStamped(f, x.enviada, x.creadoEn)
  {
    SubsequenceRefl(qs);
    var cur := StampFilter(None, None, None);
    out := qs;
    assert forall x :: x in out <==> x in qs && KeepsStamped(cur, x.enviada, x.creadoEn);
    if f.flag.Some? {
      var next := Where(out, (x: Factura) => FlagOk(x.enviada, f.flag));
      SubsequenceTrans(next, out, qs);
      var cur2 := cur.(flag := f.flag);
      NarrowMembers(qs, out, next, (x: Factura) => KeepsStamped(cur, x.enviada, x.creadoEn),
        (x: Factura) => FlagOk(x.enviada, f.flag), (x: Factura) => KeepsStamped(cur2, x.enviada, x.creadoEn));
      out, cur := next, cur2;
    }
    if f.desde.Some? {
      var next := Where(out, (x: Factura) => NotBefore(x.creadoEn.date, f.desde));
      SubsequenceTrans(next, out, qs);
      var cur2 := cur.(desde := f.desde);
      NarrowMembers(qs, out, next, (x: Factura) => KeepsStamped(cur, x.enviada, x.creadoEn),
        (x: Factura) => NotBefore(x.creadoEn.date, f.desde), (x: Factura) => KeepsStamped(cur2, x.enviada, x.creadoEn));
      out, cur := next, cur2;
    }
    if f.hasta.Some? {
      var next := Where(out, (x: Factura) => NotAfter(x.creadoEn.date, f.hasta));
      SubsequenceTrans(next, out, qs);
      var cur2 := cur.(hasta := f.hasta);
      NarrowMembers(qs, out, next, (x: Factura) => KeepsStamped(cur, x.enviada, x.creadoEn),
        (x: Factura) => NotAfter(x.creadoEn.date, f.hasta), (x: Factura) => KeepsStamped(cur2, x.enviada, x.creadoEn));
      out, cur := next, cur2;
    }
    assert cur == f;
  }

  /** The user branch of `_apply_filters`. */
  method FilterUsers(qs: seq<Usuario>, filtros: seq<(string, Json)>) returns (r: Result<seq<Usuario>>)
    ensures r.Ok? <==> StampFilterOf(filtros, "is_active").Ok?
    ensures filtros == [] ==> r == Ok(qs)
    ensures r.Ok? ==> Subsequence(r.value, qs)
    ensures r.Ok? ==> forall u :: u in r.value <==> u in qs && KeepsStamped(StampFilterOf(filtros, "is_active").value, u.isActive, u.dateJoined)
  {
    if filtros == [] {
      SubsequenceRefl(qs);
      return Ok(qs);
    }
    var spec := StampFilterOf(filtros, "is_active");
    if spec.Err? {
      return Err(ServerError);
    }
    var out := NarrowUsers(qs, spec.value);
    return Ok(out);
  }

  method NarrowUsers(qs: seq<Usuario>, f: StampFilter) returns (out: seq<Usuario>)
    ensures Subsequence(out, qs)
    ensures forall u :: u in out <==> u in qs && KeepsStamped(f, u.isActive, u.dateJoined)
  {
    SubsequenceRefl(qs);
    var cur := StampFilter(None, None, None);
    out := qs;
    assert forall u :: u in out <==> u in qs && KeepsStamped(cur, u.isActive, u.dateJoined);
    if f.flag.Some? {
      var next := Where(out, (u: Usuario) => FlagOk(u.isActive, f.flag));
      SubsequenceTrans(next, out, qs);
      var cur2 := cur.(flag := f.flag);
      NarrowMembers(qs, out, next, (u: Usuario) => KeepsStamped(cur, u.isActive, u.dateJoined),
        (u: Usuario) => FlagOk(u.isActive, f.flag), (u: Usuario) => KeepsStamped(cur2, u.isActive, u.dateJoined));
      out, cur := next, cur2;
    }
    if f.desde.Some? {
      var next := Where(out, (u: Usuario) => NotBefore(u.dateJoined.date, f.desde));
      SubsequenceTrans(next, out, qs);
      var cur2 := cur.(desde := f.desde);
      NarrowMembers(qs, out, next, (u: Usuario) => KeepsStamped(cur, u.isActive, u.dateJoined),
        (u: Usuario) => NotBefore(u.dateJoined.date, f.desde), (u: Usuario) => KeepsStamped(cur2, u.isActive, u.dateJoined));
      out, cur := next, cur2;
    }
    if f.hasta.Some? {
      var next := Where(out, (u: Usuario) => NotAfter(u.dateJoined.date, f.hasta));
      SubsequenceTrans(next, out, qs);
      var cur2 := cur.(hasta := f.hasta);
      NarrowMembers(qs, out, next, (u: Usuario) => KeepsStamped(cur, u.isActive, u.dateJoined),
        (u: Usuario) => NotAfter(u.dateJoined.date, f.hasta), (u: Usuario) => KeepsStamped(cur2, u.isActive, u.dateJoined));
      out, cur := next, cur2;
    }
    assert cur == f;
  }

  /** Whether filtering a collection fails, and how each table is narrowed. */
  function FilterOutcome(c: Collection, filtros: seq<(string, Json)>): Result<()> {
    match c
    case Bookings(_) => if BookingFilterOf(filtros).Ok? then Ok(()) else Err(ServerError)
    case Properties(_) => Ok(())
    case Invoices(_) => if StampFilterOf(filtros, "enviada").Ok? then Ok(()) else Err(ServerError)
    case Users(_) => if StampFilterOf(filtros, "is_active").Ok? then Ok(()) else Err(ServerError)
  }

  /** `Narrowed(a, b)`: `a` is the same table as `b`, with some records left out and the order kept. */
  predicate Narrowed(a: Collection, b: Collection) {
    match b
    case Bookings(rs) => a.Bookings? && Subsequence(a.reservas, rs)
    case Properties(ps) => a.Properties? && Subsequence(a.propiedades, ps)
    case Invoices(fs) => a.Invoices? && Subsequence(a.facturas, fs)
    case Users(us) => a.Users? && Subsequence(a.usuarios, us)
  }

  /** `r` holds exactly the records of `c` that the filters keep. */
  ghost predicate KeptExactly(r: Collection, c: Collection, filtros: seq<(string, Json)>)
    requires FilterOutcome(c, filtros).Ok?
  {
    match c
    case Bookings(rs) =>
      r.Bookings? && forall b :: b in r.reservas <==> b in rs && KeepsBooking(BookingFilterOf(filtros).value, b)
    case Properties(ps) =>
      r.Properties? && forall p :: p in r.propiedades <==> p in ps && KeepsProperty(PropertyFilterOf(filtros), p)
    case Invoices(fs) =>
      r.Invoices? &&
      forall f :: f in r.facturas <==> f in fs && KeepsStamped(StampFilterOf(filtros, "enviada").value, f.enviada, f.creadoEn)
    case Users(us) =>
      r.Users? &&
      forall u :: u in r.usuarios <==> u in us && KeepsStamped(StampFilterOf(filtros, "is_active").value, u.isActive, u.dateJoined)
  }

  /**
   * `_apply_filters(qs, tipo, filtros)`: the result only ever narrows `c`, is `c`
   * itself for an empty dictionary, and fails exactly when a lookup cannot
   * convert its value.
   */
  method ApplyFilters(c: Collection, filtros: seq<(string, Json)>) returns (r: Result<Collection>)
    ensures r.Ok? <==> FilterOutcome(c, filtros).Ok?
    ensures filtros == [] ==> r == Ok(c)
    ensures r.Ok? ==> Narrowed(r.value, c) && KeptExactly(r.value, c, filtros)
    ensures r.Ok? ==> Size(r.value) <= Size(c)
  {
    match c {
      case Bookings(rs) =>
        var f := FilterBookings(rs, filtros);
        r := if f.Ok? then Ok(Bookings(f.value)) else Err(ServerError);
      case Properties(ps) =>
        var f := FilterProperties(ps, filtros);
        r := Ok(Properties(f));
      case Invoices(fs) =>
        var f := FilterInvoices(fs, filtros);
        r := if f.Ok? then Ok(Invoices(f.value)) else Err(ServerError);
      case Users(us) =>
        var f := FilterUsers(us, filtros);
        r := if f.Ok? then Ok(Users(f.value)) else Err(ServerError);
    }
    if r.Ok? {
      NarrowedSize(r.value, c);
    }
  }

  /** Falsy values are ignored: a dictionary whose booking keys hold only falsy values filters nothing. */
  lemma FalsyBookingFiltersIgnored(filtros: seq<(string, Json)>)
    requires forall k :: k in ["fecha_inicio", "fecha_fin", "status", "pago_estado", "propiedad_id"] ==>
      Get(filtros, k).None? || !Truthy(Get(filtros, k).value)
    ensures BookingFilterOf(filtros) == Ok(BookingFilter(None, None, None, None, None))
    ensures forall b: Reserva :: KeepsBooking(BookingFilterOf(filtros).value, b)
  {
    assert Active(filtros, "fecha_inicio").None? && Active(filtros, "fecha_fin").None?;
    assert Active(filtros, "status").None? && Active(filtros, "pago_estado").None?;
    assert Active(filtros, "propiedad_id").None?;
  }

  /** A boolean filter sent as anything but a boolean (the text "true", the number 1) is ignored. */
  lemma NonBooleanFlagIgnored(filtros: seq<(string, Json)>, p: Propiedad)
    requires Get(filtros, "es_destino_turistico").Some? && !Get(filtros, "es_destino_turistico").value.JBool?
    requires TextValue(filtros, "tipo").None? && TextValue(filtros, "ciudad").None?
    ensures KeepsProperty(PropertyFilterOf(filtros), p)
  {
  }

  lemma NarrowedSize(a: Collection, b: Collection)
    requires Narrowed(a, b)
    ensures Size(a) <= Size(b)
  {
    match b
    case Bookings(rs) => SubsequenceLength(a.reservas, rs);
    case Properties(ps) => SubsequenceLength(a.propiedades, ps);
    case Invoices(fs) => SubsequenceLength(a.facturas, fs);
    case Users(us) => SubsequenceLength(a.usuarios, us);
  }
}
