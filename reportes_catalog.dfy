/**
 * The report catalog: the six report types and, for each, the fields a report
 * may show, the filters it understands and the groupings it offers.
 */
module ReportesCatalog {
  import opened Wrappers

  datatype TipoReporte = Reservas | Propiedades | Usuarios | Ingresos | Facturas | Ocupacion

  /** The wire name of a report type. */
  function TipoCode(t: TipoReporte): string {
    match t
    case Reservas => "reservas"
    case Propiedades => "propiedades"
    case Usuarios => "usuarios"
    case Ingresos => "ingresos"
    case Facturas => "facturas"
    case Ocupacion => "ocupacion"
  }

  const TipoCodes: set<string> := {"reservas", "propiedades", "usuarios", "ingresos", "facturas", "ocupacion"}

  /** The report type a wire name denotes, if any. */
  function ParseTipo(s: string): (r: Option<TipoReporte>)
    ensures r.Some? <==> s in TipoCodes
    ensures r.Some? ==> TipoCode(r.value) == s
  {
    if s == "reservas" then Some(Reservas)
    else if s == "propiedades" then Some(Propiedades)
    else if s == "usuarios" then Some(Usuarios)
    else if s == "ingresos" then Some(Ingresos)
    else if s == "facturas" then Some(Facturas)
    else if s == "ocupacion" then Some(Ocupacion)
    else None
  }

  /** Wire names identify report types: parsing a type's name gives the type back. */
  lemma TipoRoundTrip(t: TipoReporte)
    ensures TipoCode(t) in TipoCodes
    ensures ParseTipo(TipoCode(t)) == Some(t)
  {
  }

  /** Report types that list database rows (as opposed to monthly aggregates). */
  predicate ListsRows(t: TipoReporte) {
    t == Reservas || t == Propiedades || t == Facturas || t == Usuarios
  }

  /** Report types computed from bookings. */
  predicate OverBookings(t: TipoReporte) {
    t == Reservas || t == Ingresos || t == Ocupacion
  }

  /** A catalog entry for a field or a filter: its name, its display title and its kind. */
  datatype Entry = Entry(name: string, title: string, kind: string)

  datatype Meta = Meta(title: string, campos: seq<Entry>, filtros: seq<Entry>, agrupaciones: seq<string>)

  function ReservasFiltros(): seq<Entry> {
    [Entry("fecha_inicio", "Fecha inicio (check-in >=)", "date"),
     Entry("fecha_fin", "Fecha fin (check-out <=)", "date"),
     Entry("status", "Estado reserva", "string"),
     Entry("pago_estado", "Estado pago", "string"),
     Entry("propiedad_id", "Propiedad", "number")]
  }

  function ReservasMeta(): Meta {
    Meta("Reservas",
      [Entry("id", "ID", "number"),
       Entry("fecha_checkin", "Check-in", "date"),
       Entry("fecha_checkout", "Check-out", "date"),
       Entry("status", "Estado", "string"),
       Entry("pago_estado", "Estado de pago", "string"),
       Entry("monto_total", "Monto total", "money"),
       Entry("descuento", "Descuento", "money"),
       Entry("cant_huesp", "Cantidad huéspedes", "number"),
       Entry("cant_noches", "Noches", "number"),
       Entry("propiedad__id", "ID Propiedad", "number"),
       Entry("propiedad__nombre", "Propiedad", "string"),
       Entry("user__correo", "Correo huésped", "string")],
      ReservasFiltros(),
      ["status", "propiedad", "mes"])
  }

  function PropiedadesMeta(): Meta {
    Meta("Propiedades",
      [Entry("id", "ID", "number"),
       Entry("nombre", "Nombre", "string"),
       Entry("tipo", "Tipo", "string"),
       Entry("precio_noche", "Precio/noche", "money"),
       Entry("max_huespedes", "Máx. huéspedes", "number"),
       Entry("ciudad", "Ciudad", "string"),
       Entry("departamento", "Departamento", "string"),
       Entry("pais", "País", "string"),
       Entry("es_destino_turistico", "Destino turístico", "bool"),
       Entry("creado_en", "Creado", "datetime")],
      [Entry("tipo", "Tipo", "string"),
       Entry("ciudad", "Ciudad", "string"),
       Entry("es_destino_turistico", "Destino turístico", "bool")],
      ["tipo", "ciudad"])
  }

  function FacturasMeta(): Meta {
    Meta("Facturas",
      [Entry("id", "ID", "number"),
       Entry("nit_ci", "NIT/CI", "string"),
       Entry("nombre", "Nombre", "string"),
       Entry("total", "Total", "money"),
       Entry("enviada", "Enviada", "bool"),
       Entry("creado_en", "Creado", "datetime"),
       Entry("reserva__id", "ID Reserva", "number"),
       Entry("reserva__propiedad__nombre", "Propiedad", "string")],
      [Entry("enviada", "Enviada", "bool"),
       Entry("fecha_inicio", "Fecha inicio (creado >=)", "date"),
       Entry("fecha_fin", "Fecha fin (creado <=)", "date")],
      ["enviada", "mes"])
  }

  function UsuariosMeta(): Meta {
    Meta("Usuarios (solo admin)",
      [Entry("id", "ID", "number"),
       Entry("username", "Username", "string"),
       Entry("correo", "Correo", "string"),
       Entry("N_Cel", "Celular", "string"),
       Entry("fecha_Nac", "Fecha nac.", "date"),
       Entry("is_active", "Activo", "bool"),
       Entry("is_superuser", "Admin", "bool"),
       Entry("date_joined", "Registro", "datetime")],
      [Entry("is_active", "Activo", "bool"),
       Entry("fecha_inicio", "Fecha inicio (registro >=)", "date"),
       Entry("fecha_fin", "Fecha fin (registro <=)", "date")],
      ["is_active", "mes"])
  }

  function IngresosMeta(): Meta {
    Meta("Ingresos (derivado de reservas)",
      [Entry("mes", "Mes", "string"),
       Entry("total", "Total", "money"),
       Entry("count", "Reservas", "number")],
      ReservasFiltros(),
      ["mes"])
  }

  function OcupacionMeta(): Meta {
    Meta("Ocupación (estimada)",
      [Entry("mes", "Mes", "string"),
       Entry("noches_reservadas", "Noches reservadas", "number"),
       Entry("noches_posibles", "Noches posibles", "number"),
       Entry("ocupacion", "Ocupación", "percent")],
      ReservasFiltros(),
      ["mes"])
  }

  /** The catalog entry of a report type. */
  function MetaOf(t: TipoReporte): Meta {
    match t
    case Reservas => ReservasMeta()
    case Propiedades => PropiedadesMeta()
    case Usuarios => UsuariosMeta()
    case Ingresos => IngresosMeta()
    case Facturas => FacturasMeta()
    case Ocupacion => OcupacionMeta()
  }

  /** `_meta_reportes().get(tipo)`: the entry for a wire name, absent outside the six types. */
  function MetaFor(s: string): (r: Option<Meta>)
    ensures r.Some? <==> s in TipoCodes
    ensures r.Some? ==> r == Some(MetaOf(ParseTipo(s).value))
  {
    match ParseTipo(s)
    case Some(t) => Some(MetaOf(t))
    case None => None
  }

  function Names(entries: seq<Entry>): (r: seq<string>)
    ensures |r| == |entries|
    ensures forall i :: 0 <= i < |r| ==> r[i] == entries[i].name
  {
    seq(|entries|, i requires 0 <= i < |entries| => entries[i].name)
  }

  /** The names of the fields a report of type `t` may show. */
  function CampoNames(t: TipoReporte): seq<string> {
    Names(MetaOf(t).campos)
  }

  /** `set(meta['campos'].keys())`. */
  function CampoSet(t: TipoReporte): set<string> {
    set c | c in CampoNames(t)
  }

  /**
   * The catalog's shape: field counts per type, the derived types reuse the
   * booking filters and group only by month.
   */
  lemma CatalogShape()
    ensures |CampoNames(Reservas)| == 12 && |CampoNames(Propiedades)| == 10
    ensures |CampoNames(Facturas)| == 8 && |CampoNames(Usuarios)| == 8
    ensures |CampoNames(Ingresos)| == 3 && |CampoNames(Ocupacion)| == 4
    ensures MetaOf(Ingresos).filtros == MetaOf(Reservas).filtros == MetaOf(Ocupacion).filtros
    ensures MetaOf(Ingresos).agrupaciones == MetaOf(Ocupacion).agrupaciones == ["mes"]
  {
  }
}
