/**
 * The tables the report engine reads, as in-memory sequences of records in
 * their default database order, the `values()` dictionaries it projects them
 * to, and the per-user scope (`_user_scope`): a superuser sees everything, a
 * host sees what hangs off their own properties.
 */
module ReportesData {
  import opened Wrappers
  import opened Calendar
  import opened Accounts
  import opened Seqs
  import opened ReportesCatalog

  /** A `DateField` value: a valid calendar date with a four-digit year. */
  type Day = d: Date | ValidDate(d) && d.year <= 9999 witness Date(2000, 1, 1)

  /** A `DateTimeField` value: its date in the server's time zone and its `isoformat()` text. */
  datatype Stamp = Stamp(date: Day, iso: string)

  /** A booking joined with its property (`propiedad__*`) and its guest (`user__correo`); money in cents. */
  datatype Reserva = Reserva(
    id: int,
    checkin: Day,
    checkout: Day,
    status: string,
    pagoEstado: string,
    montoCents: int,
    descuentoCents: int,
    cantHuesp: nat,
    cantNoches: nat,
    propiedadId: int,
    propiedadNombre: string,
    propietario: int,
    correo: string)

  datatype Propiedad = Propiedad(
    id: int,
    propietario: int,
    nombre: string,
    tipo: string,
    precioNoche: real,
    maxHuespedes: nat,
    ciudad: string,
    departamento: string,
    pais: string,
    esDestinoTuristico: bool,
    creadoEn: Stamp)

  /** An invoice joined with its booking and the booking's property. */
  datatype Factura = Factura(
    id: int,
    nitCi: string,
    nombre: string,
    totalCents: int,
    enviada: bool,
    creadoEn: Stamp,
    reservaId: int,
    propiedadNombre: string,
    propietario: int)

  datatype Usuario = Usuario(
    id: int,
    username: string,
    correo: string,
    nCel: string,
    fechaNac: Option<Day>,
    isActive: bool,
    isSuperuser: bool,
    dateJoined: Stamp)

  datatype Db = Db(reservas: seq<Reserva>, propiedades: seq<Propiedad>, facturas: seq<Factura>, usuarios: seq<Usuario>)

  /** A JSON-ready cell: what `_rows_from_values` leaves in a row. */
  datatype Value = VNull | VBool(b: bool) | VInt(i: int) | VNum(x: real) | VText(s: string)

  /** A dictionary with text keys, in insertion order. */
  type Row = seq<(string, Value)>

  function Keys(row: Row): (r: seq<string>)
    ensures |r| == |row|
    ensures forall i :: 0 <= i < |r| ==> r[i] == row[i].0
  {
    seq(|row|, i requires 0 <= i < |row| => row[i].0)
  }

  /** `row.get(key)`: the value bound to `key`, or `None` (null). */
  function Lookup(row: Row, key: string): (v: Value)
    ensures key !in Keys(row) ==> v == VNull
    ensures key in Keys(row) ==> (key, v) in row
  {
    if row == [] then VNull
    else if row[0].0 == key then row[0].1
    else
      assert Keys(row[1..]) == Keys(row)[1..];
      Lookup(row[1..], key)
  }

  /** `float(Decimal)` of a two-decimal amount: exact here. */
  function Money(cents: int): Value {
    VNum(cents as real / 100.0)
  }

  function DateValue(d: Day): Value {
    VText(IsoDate(d))
  }

  /** The `values()` dictionary of a booking, dates already in ISO form and amounts as numbers. */
  function ReservaItem(r: Reserva): Row {
    [("id", VInt(r.id)),
     ("fecha_checkin", DateValue(r.checkin)),
     ("fecha_checkout", DateValue(r.checkout)),
     ("status", VText(r.status)),
     ("pago_estado", VText(r.pagoEstado)),
     ("monto_total", Money(r.montoCents)),
     ("descuento", Money(r.descuentoCents)),
     ("cant_huesp", VInt(r.cantHuesp)),
     ("cant_noches", VInt(r.cantNoches)),
     ("propiedad__id", VInt(r.propiedadId)),
     ("propiedad__nombre", VText(r.propiedadNombre)),
     ("user__correo", VText(r.correo))]
  }

  function PropiedadItem(p: Propiedad): Row {
    [("id", VInt(p.id)),
     ("nombre", VText(p.nombre)),
     ("tipo", VText(p.tipo)),
     ("precio_noche", VNum(p.precioNoche)),
     ("max_huespedes", VInt(p.maxHuespedes)),
     ("ciudad", VText(p.ciudad)),
     ("departamento", VText(p.departamento)),
     ("pais", VText(p.pais)),
     ("es_destino_turistico", VBool(p.esDestinoTuristico)),
     ("creado_en", VText(p.creadoEn.iso))]
  }

  function FacturaItem(f: Factura): Row {
    [("id", VInt(f.id)),
     ("nit_ci", VText(f.nitCi)),
     ("nombre", VText(f.nombre)),
     ("total", Money(f.totalCents)),
     ("enviada", VBool(f.enviada)),
     ("creado_en", VText(f.creadoEn.iso)),
     ("reserva__id", VInt(f.reservaId)),
     ("reserva__propiedad__nombre", VText(f.propiedadNombre))]
  }

  function UsuarioItem(u: Usuario): Row {
    [("id", VInt(u.id)),
     ("username", VText(u.username)),
     ("correo", VText(u.correo)),
     ("N_Cel", VText(u.nCel)),
     ("fecha_Nac", if u.fechaNac.Some? then DateValue(u.fechaNac.value) else VNull),
     ("is_active", VBool(u.isActive)),
     ("is_superuser", VBool(u.isSuperuser)),
     ("date_joined", VText(u.dateJoined.iso))]
  }

  /** A report's base collection: one of the four tables, narrowed. */
  datatype Collection =
    | Bookings(reservas: seq<Reserva>)
    | Properties(propiedades: seq<Propiedad>)
    | Invoices(facturas: seq<Factura>)
    | Users(usuarios: seq<Usuario>)

  /** The collection's `values()` dictionaries, in collection order. */
  function Items(c: Collection): (r: seq<Row>)
    ensures |r| == Size(c)
  {
    match c
    case Bookings(rs) => seq(|rs|, i requires 0 <= i < |rs| => ReservaItem(rs[i]))
    case Properties(ps) => seq(|ps|, i requires 0 <= i < |ps| => PropiedadItem(ps[i]))
    case Invoices(fs) => seq(|fs|, i requires 0 <= i < |fs| => FacturaItem(fs[i]))
    case Users(us) => seq(|us|, i requires 0 <= i < |us| => UsuarioItem(us[i]))
  }

  function Size(c: Collection): nat {
    match c
    case Bookings(rs) => |rs|
    case Properties(ps) => |ps|
    case Invoices(fs) => |fs|
    case Users(us) => |us|
  }

  /** The table a report type reads. */
  predicate Fits(t: TipoReporte, c: Collection) {
    match t
    case Reservas | Ingresos | Ocupacion => c.Bookings?
    case Propiedades => c.Properties?
    case Facturas => c.Invoices?
    case Usuarios => c.Users?
  }

  /** Every dictionary a table produces has exactly its type's catalog fields, in catalog order. */
  lemma ItemKeysAreCatalogFields(c: Collection, i: nat)
    requires i < Size(c)
    ensures c.Bookings? ==> Keys(Items(c)[i]) == CampoNames(Reservas)
    ensures c.Properties? ==> Keys(Items(c)[i]) == CampoNames(Propiedades)
    ensures c.Invoices? ==> Keys(Items(c)[i]) == CampoNames(Facturas)
    ensures c.Users? ==> Keys(Items(c)[i]) == CampoNames(Usuarios)
  {
    match c
    case Bookings(rs) => ItemKeysAt(c, i, Reservas);
    case Properties(ps) => ItemKeysAt(c, i, Propiedades);
    case Invoices(fs) => ItemKeysAt(c, i, Facturas);
    case Users(us) => ItemKeysAt(c, i, Usuarios);
  }

  /** The same for one table, named by the report type that reads it first. */
  lemma ItemKeysAt(c: Collection, i: nat, t: TipoReporte)
    requires i < Size(c) && t in {Reservas, Propiedades, Facturas, Usuarios} && Fits(t, c)
    ensures Keys(Items(c)[i]) == CampoNames(t)
  {
    match c
    case Bookings(rs) => assert Items(c)[i] == ReservaItem(rs[i]); ReservaKeys(rs[i]);
    case Properties(ps) => assert Items(c)[i] == PropiedadItem(ps[i]); PropiedadKeys(ps[i]);
    case Invoices(fs) => assert Items(c)[i] == FacturaItem(fs[i]); FacturaKeys(fs[i]);
    case Users(us) => assert Items(c)[i] == UsuarioItem(us[i]); UsuarioKeys(us[i]);
  }

  lemma ReservaKeys(r: Reserva)
    ensures Keys(ReservaItem(r)) == CampoNames(Reservas)
  {
    var names := ["id", "fecha_checkin", "fecha_checkout", "status", "pago_estado", "monto_total",
      "descuento", "cant_huesp", "cant_noches", "propiedad__id", "propiedad__nombre", "user__correo"];
    assert Keys(ReservaItem(r)) == names;
    assert CampoNames(Reservas) == names;
  }

  lemma PropiedadKeys(p: Propiedad)
    ensures Keys(PropiedadItem(p)) == CampoNames(Propiedades)
  {
    var names := ["id", "nombre", "tipo", "precio_noche", "max_huespedes", "ciudad", "departamento",
      "pais", "es_destino_turistico", "creado_en"];
    assert Keys(PropiedadItem(p)) == names;
    assert CampoNames(Propiedades) == names;
  }

  lemma FacturaKeys(f: Factura)
    ensures Keys(FacturaItem(f)) == CampoNames(Facturas)
  {
    var names := ["id", "nit_ci", "nombre", "total", "enviada", "creado_en", "reserva__id",
      "reserva__propiedad__nombre"];
    assert Keys(FacturaItem(f)) == names;
    assert CampoNames(Facturas) == names;
  }

  lemma UsuarioKeys(u: Usuario)
    ensures Keys(UsuarioItem(u)) == CampoNames(Usuarios)
  {
    var names := ["id", "username", "correo", "N_Cel", "fecha_Nac", "is_active", "is_superuser", "date_joined"];
    assert Keys(UsuarioItem(u)) == names;
    assert CampoNames(Usuarios) == names;
  }

  /** `Propiedades.objects.filter(user=user)`. */
  function OwnProperties(user: User, db: Db): (r: seq<Propiedad>)
    ensures forall p :: p in r <==> p in db.propiedades && p.propietario == user.id
    ensures Subsequence(r, db.propiedades)
  {
    Where(db.propiedades, (p: Propiedad) => p.propietario == user.id)
  }

  /**
   * `_user_scope` for a catalog type: the base collection, and the user's own
   * properties where the booking-based reports need them (`None` otherwise).
   */
  function UserScope(user: User, t: TipoReporte, db: Db): (r: (Collection, Option<seq<Propiedad>>))
    ensures Fits(t, r.0)
    ensures user.isSuperuser ==> r.1 == None
    ensures user.isSuperuser ==>
      r.0 == (match t
              case Reservas | Ingresos | Ocupacion => Bookings(db.reservas)
              case Propiedades => Properties(db.propiedades)
              case Facturas => Invoices(db.facturas)
              case Usuarios => Users(db.usuarios))
    ensures !user.isSuperuser && OverBookings(t) ==>
      r.1 == Some(OwnProperties(user, db)) &&
      Subsequence(r.0.reservas, db.reservas) &&
      (forall b :: b in r.0.reservas <==> b in db.reservas && b.propietario == user.id)
    ensures !user.isSuperuser && t == Propiedades ==> r == (Properties(OwnProperties(user, db)), None)
    ensures !user.isSuperuser && t == Facturas ==>
      r.1 == None && Subsequence(r.0.facturas, db.facturas) &&
      (forall f :: f in r.0.facturas <==> f in db.facturas && f.propietario == user.id)
    ensures !user.isSuperuser && t == Usuarios ==> r == (Users([]), None)
  {
    if user.isSuperuser then
      match t
      case Reservas | Ingresos | Ocupacion => (Bookings(db.reservas), None)
      case Propiedades => (Properties(db.propiedades), None)
      case Facturas => (Invoices(db.facturas), None)
      case Usuarios => (Users(db.usuarios), None)
    else
      var own := OwnProperties(user, db);
      match t
      case Reservas | Ingresos | Ocupacion =>
        (Bookings(Where(db.reservas, (b: Reserva) => b.propietario == user.id)), Some(own))
      case Propiedades => (Properties(own), None)
      case Facturas => (Invoices(Where(db.facturas, (f: Factura) => f.propietario == user.id)), None)
      case Usuarios => (Users([]), None)
  }

  /**
   * `_user_scope` on the wire name: it yields a collection exactly for the
   * catalog's names, so the "not authorised" branch after it is never taken
   * for a type the catalog lists.
   */
  function ScopeFor(user: User, tipo: string, db: Db): (r: Option<Collection>)
    ensures r.Some? <==> MetaFor(tipo).Some?
    ensures r.Some? ==> r.value == UserScope(user, ParseTipo(tipo).value, db).0
  {
    match ParseTipo(tipo)
    case Some(t) => Some(UserScope(user, t, db).0)
    case None => None
  }

  /** A host never sees another host's bookings, properties or invoices, and sees no user accounts. */
  lemma HostSeesOnlyOwnData(user: User, t: TipoReporte, db: Db)
    requires !user.isSuperuser
    ensures var c := UserScope(user, t, db).0;
      (c.Bookings? ==> forall b :: b in c.reservas ==> b.propietario == user.id) &&
      (c.Properties? ==> forall p :: p in c.propiedades ==> p.propietario == user.id) &&
      (c.Invoices? ==> forall f :: f in c.facturas ==> f.propietario == user.id) &&
      (c.Users? ==> c.usuarios == [])
  {
  }
}
