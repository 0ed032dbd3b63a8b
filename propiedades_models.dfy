/**
 * The `Propiedades` model: its choice tables, its field defaults and the
 * `esta_disponible` property that combines the publication flag with the
 * deactivation (baja) state.
 */
module PropiedadesModel {
  import opened Wrappers
  import opened Calendar

  /** The `TIPO` choices. */
  datatype Tipo = Departamento | Casa | Cabana

  /** The `ESTADO_BAJA` choices. */
  datatype EstadoBaja = Activa | BajaTemporal | BajaIndefinida

  function TipoCode(t: Tipo): string {
    match t
    case Departamento => "Departamento"
    case Casa => "Casa"
    case Cabana => "Cabaña"
  }

  /** A `tipo` value as stored text; `None` for text outside the choices. */
  function ParseTipo(s: string): (t: Option<Tipo>)
    ensures t.Some? ==> TipoCode(t.value) == s
    ensures t.None? ==> s != "Departamento" && s != "Casa" && s != "Cabaña"
  {
    if s == "Departamento" then Some(Departamento)
    else if s == "Casa" then Some(Casa)
    else if s == "Cabaña" then Some(Cabana)
    else None
  }

  lemma TipoRoundTrip(t: Tipo)
    ensures ParseTipo(TipoCode(t)) == Some(t)
  {
  }

  function EstadoCode(e: EstadoBaja): string {
    match e
    case Activa => "activa"
    case BajaTemporal => "baja_temporal"
    case BajaIndefinida => "baja_indefinida"
  }

  function ParseEstado(s: string): (e: Option<EstadoBaja>)
    ensures e.Some? ==> EstadoCode(e.value) == s
    ensures e.None? ==> s != "activa" && s != "baja_temporal" && s != "baja_indefinida"
  {
    if s == "activa" then Some(Activa)
    else if s == "baja_temporal" then Some(BajaTemporal)
    else if s == "baja_indefinida" then Some(BajaIndefinida)
    else None
  }

  lemma EstadoRoundTrip(e: EstadoBaja)
    ensures ParseEstado(EstadoCode(e)) == Some(e)
  {
  }

  /** The codes of the `CARACTERISTICAS` choices, in their declared order. */
  const CaracteristicaCodes: seq<string> := [
    "wifi", "aire_acondicionado", "calefaccion", "cocina", "tv", "lavadora",
    "piscina", "jardin", "terraza", "parrilla", "estacionamiento",
    "caja_fuerte", "vigilancia", "extintor",
    "accesible_silla_ruedas", "ascensor"]

  /** The columns of a property row outside the deactivation (baja) columns. */
  datatype Ficha = Ficha(
    id: int, user: int, nombre: string, descripcion: string, tipo: Tipo, caracteristicas: seq<string>,
    status: bool, precioNoche: real, descuento: real, cantBath: int, cantHab: int, maxHuespedes: int,
    pets: bool, latitud: Option<real>, longitud: Option<real>, direccionCompleta: string,
    ciudad: string, provincia: string, pais: string, departamento: string, esDestinoTuristico: bool)

  /** A property row: the model's columns, without the timestamps. */
  class Propiedad {
    const id: int
    var user: int
    var nombre: string
    var descripcion: string
    var tipo: Tipo
    var caracteristicas: seq<string>
    var status: bool
    var precioNoche: real
    var descuento: real
    var cantBath: int
    var cantHab: int
    var maxHuespedes: int
    var pets: bool
    var latitud: Option<real>
    var longitud: Option<real>
    var direccionCompleta: string
    var ciudad: string
    var provincia: string
    var pais: string
    var departamento: string
    var esDestinoTuristico: bool
    var estadoBaja: EstadoBaja
    var fechaBajaInicio: Option<Date>
    var fechaBajaFin: Option<Date>
    var motivoBaja: string

    /** `esta_disponible`: published and not deactivated. */
    predicate EstaDisponible()
      reads this
    {
      status && estadoBaja == Activa
    }

    /** Every column of the row except the four deactivation columns. */
    function Datos(): Ficha
      reads `user, `nombre, `descripcion, `tipo, `caracteristicas, `status, `precioNoche, `descuento, `cantBath,
            `cantHab, `maxHuespedes, `pets, `latitud, `longitud, `direccionCompleta, `ciudad, `provincia, `pais,
            `departamento, `esDestinoTuristico
    {
      Ficha(id, user, nombre, descripcion, tipo, caracteristicas, status, precioNoche, descuento, cantBath,
            cantHab, maxHuespedes, pets, latitud, longitud, direccionCompleta, ciudad, provincia, pais,
            departamento, esDestinoTuristico)
    }

    /** A new row with every field the caller does not give at its model default. */
    constructor (id: int, user: int, nombre: string, descripcion: string, direccionCompleta: string)
      ensures Datos() == Ficha(id, user, nombre, descripcion, Casa, [], true, 0.0, 0.0, 0, 0, 1, false, None, None,
                               direccionCompleta, "", "", "Bolivia", "", false)
      ensures estadoBaja == Activa && fechaBajaInicio.None? && fechaBajaFin.None? && motivoBaja == ""
      ensures EstaDisponible()
    {
      this.id := id;
      this.user := user;
      this.nombre := nombre;
      this.descripcion := descripcion;
      tipo := Casa;
      caracteristicas := [];
      status := true;
      precioNoche := 0.0;
      descuento := 0.0;
      cantBath := 0;
      cantHab := 0;
      maxHuespedes := 1;
      pets := false;
      latitud := None;
      longitud := None;
      this.direccionCompleta := direccionCompleta;
      ciudad := "";
      provincia := "";
      pais := "Bolivia";
      departamento := "";
      esDestinoTuristico := false;
      estadoBaja := Activa;
      fechaBajaInicio := None;
      fechaBajaFin := None;
      motivoBaja := "";
    }

    /** A new row holding the columns `f` and the deactivation columns given. */
    constructor Registrada(f: Ficha, estadoBaja: EstadoBaja, fechaBajaInicio: Option<Date>,
                           fechaBajaFin: Option<Date>, motivoBaja: string)
      ensures Datos() == f
      ensures this.estadoBaja == estadoBaja && this.fechaBajaInicio == fechaBajaInicio
      ensures this.fechaBajaFin == fechaBajaFin && this.motivoBaja == motivoBaja
      ensures EstaDisponible() <==> f.status && estadoBaja == Activa
    {
      id, user, nombre, descripcion, tipo, caracteristicas := f.id, f.user, f.nombre, f.descripcion, f.tipo, f.caracteristicas;
      status, precioNoche, descuento, cantBath, cantHab := f.status, f.precioNoche, f.descuento, f.cantBath, f.cantHab;
      maxHuespedes, pets, latitud, longitud := f.maxHuespedes, f.pets, f.latitud, f.longitud;
      direccionCompleta, ciudad, provincia, pais := f.direccionCompleta, f.ciudad, f.provincia, f.pais;
      departamento, esDestinoTuristico := f.departamento, f.esDestinoTuristico;
      this.estadoBaja, this.fechaBajaInicio, this.fechaBajaFin, this.motivoBaja := estadoBaja, fechaBajaInicio, fechaBajaFin, motivoBaja;
    }
  }
}
