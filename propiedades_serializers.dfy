/**
 * `PropiedadesSerializer` and `DarBajaPropiedadSerializer`: the field checks a
 * property payload and a deactivation payload must pass, the derived
 * `tiene_ubicacion`, and the owner assignment on create.
 */
module PropiedadesSerializers {
  import opened Wrappers
  import opened Text
  import opened Json
  import DrfFields
  import opened Calendar
  import opened Accounts
  import opened PropiedadesModel

  /** The first element that is not a `CARACTERISTICAS` code, which the error message names. */
  function FirstInvalid(value: seq<string>): (bad: Option<nat>)
    ensures bad.None? <==> forall k :: 0 <= k < |value| ==> value[k] in CaracteristicaCodes
    ensures bad.Some? ==> bad.value < |value| && value[bad.value] !in CaracteristicaCodes
                          && forall k :: 0 <= k < bad.value ==> value[k] in CaracteristicaCodes
  {
    if value == [] then None
    else if value[0] !in CaracteristicaCodes then Some(0)
    else
      var rest := FirstInvalid(value[1..]);
      if rest.None? then None else Some(rest.value + 1)
  }

  /**
   * `caracteristicas`: absent means the empty list; a list is accepted only when every
   * element is one of the codes, and is kept as given (order and repetitions).
   */
  function ValidateCaracteristicas(value: Option<seq<string>>): (r: Option<seq<string>>)
    ensures value.None? ==> r == Some([])
    ensures value.Some? ==> (r.Some? <==> forall k :: 0 <= k < |value.value| ==> value.value[k] in CaracteristicaCodes)
    ensures value.Some? && r.Some? ==> r.value == value.value
  {
    if value.None? then Some([])
    else if FirstInvalid(value.value).None? then value
    else None
  }

  /**
   * `latitud` and `longitud`: optional, nullable `FloatField`s whose `validate_*`
   * hook bounds the value to [-bound, bound]. Absent or null give no coordinate.
   */
  function Coordinate(j: Option<Json>, bound: real, floatOf: string -> Option<real>): (r: Option<Option<real>>)
    ensures j.None? || j == Some(JNull) ==> r == Some(None)
    ensures j.Some? && j.value.JInt? ==>
              (r.Some? <==> -bound <= j.value.i as real <= bound) && (r.Some? ==> r.value == Some(j.value.i as real))
    ensures j.Some? && j.value.JFloat? ==> (r.Some? <==> -bound <= j.value.x <= bound) && (r.Some? ==> r.value == Some(j.value.x))
    ensures r.Some? && r.value.Some? ==> -bound <= r.value.value <= bound
    ensures j.Some? && (j.value.JArr? || j.value.JObj?) ==> r.None?
  {
    if j.None? || j.value.JNull? then Some(None)
    else
      var x := DrfFields.FloatField(j.value, floatOf);
      if x.Some? && -bound <= x.value <= bound then Some(x) else None
  }

  /** `get_tiene_ubicacion`: both coordinates are present. */
  function TieneUbicacion(p: Propiedad): (b: bool)
    reads p
    ensures b <==> p.latitud.Some? && p.longitud.Some?
  {
    p.latitud.Some? && p.longitud.Some?
  }

  /**
   * A required DRF `CharField(max_length=maxLen)`: present, not null, stripped of
   * surrounding white space, not blank once stripped, and at most `maxLen`
   * characters after stripping.
   */
  function RequiredText(v: Option<Json>, maxLen: nat): (r: Option<string>)
    ensures v.None? ==> r.None?
    ensures v.Some? && v.value.JStr? && '\0' !in v.value.s ==>
              (r.Some? <==> !AllSpaces(v.value.s) && |Strip(v.value.s)| <= maxLen)
              && (r.Some? ==> r.value == Strip(v.value.s))
    ensures v.Some? && (v.value.JNull? || v.value.JBool? || v.value.JArr? || v.value.JObj?) ==> r.None?
    ensures r.Some? ==> r.value != [] && |r.value| <= maxLen
  {
    if v.None? then None
    else
      var t := DrfFields.RequiredText(v.value);
      if t.Some? && |t.value| <= maxLen then t else None
  }

  /** An optional DRF `CharField(max_length=maxLen, allow_blank=True)`; absent gives the column default `d`. */
  function OptionalText(j: Option<Json>, d: string, maxLen: nat): (r: Option<string>)
    ensures j.None? ==> r == Some(d)
    ensures j.Some? && DrfFields.Blank(j.value) ==> r == Some("")
    ensures j.Some? && j.value.JStr? && !DrfFields.Blank(j.value) && '\0' !in j.value.s ==>
              r == (if |Strip(j.value.s)| <= maxLen then Some(Strip(j.value.s)) else None)
    ensures j.Some? && (j.value.JNull? || j.value.JBool? || j.value.JArr? || j.value.JObj?) ==> r.None?
    ensures j.Some? && r.Some? ==> |r.value| <= maxLen
  {
    if j.None? then Some(d)
    else
      var c := DrfFields.CharField(j.value, true, false);
      if c.Some? && c.value.Some? && |c.value.value| <= maxLen then Some(c.value.value) else None
  }

  /** An optional `BooleanField`; absent gives the column default `d`. */
  function OptionalBool(j: Option<Json>, d: bool): (r: Option<bool>)
    ensures j.None? ==> r == Some(d)
    ensures j.Some? ==> r == DrfFields.BooleanField(j.value)
  {
    if j.None? then Some(d) else DrfFields.BooleanField(j.value)
  }

  /** An optional `FloatField` whose column default is 0. */
  function OptionalFloat(j: Option<Json>, floatOf: string -> Option<real>): (r: Option<real>)
    ensures j.None? ==> r == Some(0.0)
    ensures j.Some? ==> r == DrfFields.FloatField(j.value, floatOf)
  {
    if j.None? then Some(0.0) else DrfFields.FloatField(j.value, floatOf)
  }

  /** The range PostgreSQL gives an `IntegerField` column, which Django turns into the field's bounds. */
  const IntMin: int := -2147483648
  const IntMax: int := 2147483647

  /** An optional `IntegerField(min_value=lo, max_value=hi)`; absent gives the column default `d`. */
  function OptionalInteger(j: Option<Json>, d: int, lo: int, hi: int): (r: Option<int>)
    ensures j.None? ==> r == Some(d)
    ensures j.Some? ==> (r.Some? <==> DrfFields.IntegerField(j.value).Some? && lo <= DrfFields.IntegerField(j.value).value <= hi)
    ensures j.Some? && r.Some? ==> r == DrfFields.IntegerField(j.value)
  {
    if j.None? then Some(d)
    else
      var n := DrfFields.IntegerField(j.value);
      if n.Some? && lo <= n.value <= hi then n else None
  }

  /** An optional `estado_baja` `ChoiceField`; absent gives `activa`. */
  function OptionalEstado(j: Option<Json>): (r: Option<EstadoBaja>)
    ensures j.None? ==> r == Some(Activa)
    ensures j.Some? ==> (r.Some? <==> DrfFields.ChoiceField(j.value, {"activa", "baja_temporal", "baja_indefinida"}).Some?)
    ensures j.Some? && r.Some? ==> j.value.JStr? ==> EstadoCode(r.value) == j.value.s
  {
    if j.None? then Some(Activa)
    else
      var c := DrfFields.ChoiceField(j.value, {"activa", "baja_temporal", "baja_indefinida"});
      if c.None? then None else ParseEstado(c.value)
  }

  /** An optional, nullable `DateField` read with `parse_date`; absent or null give no date. */
  function OptionalDate(j: Option<Json>): (r: Option<Option<Date>>)
    ensures j.None? || j == Some(JNull) ==> r == Some(None)
    ensures j.Some? && j.value.JStr? ==> (r.Some? <==> ParseIsoDate(j.value.s).Some?) && (r.Some? ==> r.value == ParseIsoDate(j.value.s))
    ensures j.Some? && !j.value.JNull? && !j.value.JStr? ==> r.None?
  {
    if j.None? then Some(None)
    else
      match j.value
      case JNull => Some(None)
      case JStr(s) => if ParseIsoDate(s).Some? then Some(ParseIsoDate(s)) else None
      case _ => None
  }

  /**
   * The fields a client sends to create a property, each absent or its decoded JSON
   * value; `user` is whatever the client claims.
   */
  datatype PropertyInput = PropertyInput(
    nombre: Option<Json>, descripcion: Option<Json>, tipo: Option<string>,
    caracteristicas: Option<seq<string>>, latitud: Option<Json>, longitud: Option<Json>,
    direccionCompleta: Option<Json>, user: Option<int>,
    status: Option<Json>, precioNoche: Option<Json>, descuento: Option<Json>,
    cantBath: Option<Json>, cantHab: Option<Json>, maxHuespedes: Option<Json>, pets: Option<Json>,
    ciudad: Option<Json>, provincia: Option<Json>, pais: Option<Json>, departamento: Option<Json>,
    esDestinoTuristico: Option<Json>, estadoBaja: Option<Json>,
    fechaBajaInicio: Option<Json>, fechaBajaFin: Option<Json>, motivoBaja: Option<Json>)

  /** The validated values of the fields the model gives a default to. */
  datatype Extras = Extras(
    status: bool, precioNoche: real, descuento: real, cantBath: int, cantHab: int, maxHuespedes: int,
    pets: bool, ciudad: string, provincia: string, pais: string, departamento: string,
    esDestinoTuristico: bool, estadoBaja: EstadoBaja, fechaBajaInicio: Option<Date>,
    fechaBajaFin: Option<Date>, motivoBaja: string)

  /** The column defaults of those fields. */
  const DefaultExtras: Extras :=
    Extras(true, 0.0, 0.0, 0, 0, 1, false, "", "", "Bolivia", "", false, Activa, None, None, "")

  /**
   * The optional writable fields of `PropiedadesSerializer`, each checked by the
   * field the model column gives it (`max_huespedes` is a positive integer column,
   * the texts are `CharField`s of at most 50 characters, `motivo_baja` of 200);
   * `None` means status 400.
   */
  function ValidateExtras(input: PropertyInput, floatOf: string -> Option<real>): (r: Option<Extras>)
    ensures r.Some? <==>
      OptionalBool(input.status, true).Some? && OptionalFloat(input.precioNoche, floatOf).Some?
      && OptionalFloat(input.descuento, floatOf).Some? && OptionalInteger(input.cantBath, 0, IntMin, IntMax).Some?
      && OptionalInteger(input.cantHab, 0, IntMin, IntMax).Some? && OptionalInteger(input.maxHuespedes, 1, 0, IntMax).Some?
      && OptionalBool(input.pets, false).Some? && OptionalText(input.ciudad, "", 50).Some?
      && OptionalText(input.provincia, "", 50).Some? && OptionalText(input.pais, "Bolivia", 50).Some?
      && OptionalText(input.departamento, "", 50).Some? && OptionalBool(input.esDestinoTuristico, false).Some?
      && OptionalEstado(input.estadoBaja).Some? && OptionalDate(input.fechaBajaInicio).Some?
      && OptionalDate(input.fechaBajaFin).Some? && OptionalText(input.motivoBaja, "", 200).Some?
    ensures r.Some? ==>
      Some(r.value.status) == OptionalBool(input.status, true)
      && Some(r.value.precioNoche) == OptionalFloat(input.precioNoche, floatOf)
      && Some(r.value.descuento) == OptionalFloat(input.descuento, floatOf)
      && Some(r.value.cantBath) == OptionalInteger(input.cantBath, 0, IntMin, IntMax)
      && Some(r.value.cantHab) == OptionalInteger(input.cantHab, 0, IntMin, IntMax)
      && Some(r.value.maxHuespedes) == OptionalInteger(input.maxHuespedes, 1, 0, IntMax)
      && Some(r.value.pets) == OptionalBool(input.pets, false)
      && Some(r.value.ciudad) == OptionalText(input.ciudad, "", 50)
      && Some(r.value.provincia) == OptionalText(input.provincia, "", 50)
      && Some(r.value.pais) == OptionalText(input.pais, "Bolivia", 50)
      && Some(r.value.departamento) == OptionalText(input.departamento, "", 50)
      && Some(r.value.esDestinoTuristico) == OptionalBool(input.esDestinoTuristico, false)
      && Some(r.value.estadoBaja) == OptionalEstado(input.estadoBaja)
      && Some(r.value.fechaBajaInicio) == OptionalDate(input.fechaBajaInicio)
      && Some(r.value.fechaBajaFin) == OptionalDate(input.fechaBajaFin)
      && Some(r.value.motivoBaja) == OptionalText(input.motivoBaja, "", 200)
    ensures r.Some? ==> 0 <= r.value.maxHuespedes <= IntMax && |r.value.ciudad| <= 50 && |r.value.motivoBaja| <= 200
  {
    var status := OptionalBool(input.status, true);
    var precio := OptionalFloat(input.precioNoche, floatOf);
    var descuento := OptionalFloat(input.descuento, floatOf);
    var bath := OptionalInteger(input.cantBath, 0, IntMin, IntMax);
    var hab := OptionalInteger(input.cantHab, 0, IntMin, IntMax);
    var huespedes := OptionalInteger(input.maxHuespedes, 1, 0, IntMax);
    var pets := OptionalBool(input.pets, false);
    var ciudad := OptionalText(input.ciudad, "", 50);
    var provincia := OptionalText(input.provincia, "", 50);
    var pais := OptionalText(input.pais, "Bolivia", 50);
    var departamento := OptionalText(input.departamento, "", 50);
    var destino := OptionalBool(input.esDestinoTuristico, false);
    var estado := OptionalEstado(input.estadoBaja);
    var inicio := OptionalDate(input.fechaBajaInicio);
    var fin := OptionalDate(input.fechaBajaFin);
    var motivo := OptionalText(input.motivoBaja, "", 200);
    if status.Some? && precio.Some? && descuento.Some? && bath.Some? && hab.Some? && huespedes.Some?
       && pets.Some? && ciudad.Some? && provincia.Some? && pais.Some? && departamento.Some?
       && destino.Some? && estado.Some? && inicio.Some? && fin.Some? && motivo.Some?
    then Some(Extras(status.value, precio.value, descuento.value, bath.value, hab.value, huespedes.value,
                     pets.value, ciudad.value, provincia.value, pais.value, departamento.value, destino.value,
                     estado.value, inicio.value, fin.value, motivo.value))
    else None
  }

  /** A payload that sends none of the optional fields gets exactly the column defaults. */
  lemma AbsentExtrasAreDefaults(input: PropertyInput, floatOf: string -> Option<real>)
    requires input.status.None? && input.precioNoche.None? && input.descuento.None? && input.cantBath.None?
    requires input.cantHab.None? && input.maxHuespedes.None? && input.pets.None? && input.ciudad.None?
    requires input.provincia.None? && input.pais.None? && input.departamento.None? && input.esDestinoTuristico.None?
    requires input.estadoBaja.None? && input.fechaBajaInicio.None? && input.fechaBajaFin.None? && input.motivoBaja.None?
    ensures ValidateExtras(input, floatOf) == Some(DefaultExtras)
  {
  }

  datatype ValidInput = ValidInput(
    nombre: string, descripcion: string, tipo: Tipo, caracteristicas: seq<string>,
    latitud: Option<real>, longitud: Option<real>, direccionCompleta: string, extras: Extras)

  /**
   * `is_valid()` of `PropiedadesSerializer`; `None` means status 400. The client's
   * `user` is never read; `floatOf` is Python's `float()` on text.
   */
  function Validate(input: PropertyInput, floatOf: string -> Option<real>): (r: Option<ValidInput>)
    ensures r.Some? <==>
              RequiredText(input.nombre, 20).Some? && RequiredText(input.descripcion, 200).Some?
              && input.tipo.Some? && ParseTipo(input.tipo.value).Some?
              && ValidateCaracteristicas(input.caracteristicas).Some?
              && Coordinate(input.latitud, 90.0, floatOf).Some? && Coordinate(input.longitud, 180.0, floatOf).Some?
              && RequiredText(input.direccionCompleta, 200).Some?
              && ValidateExtras(input, floatOf).Some?
    ensures r.Some? ==> Some(r.value.nombre) == RequiredText(input.nombre, 20)
                        && Some(r.value.descripcion) == RequiredText(input.descripcion, 200)
                        && Some(r.value.direccionCompleta) == RequiredText(input.direccionCompleta, 200)
                        && TipoCode(r.value.tipo) == input.tipo.value
                        && Some(r.value.caracteristicas) == ValidateCaracteristicas(input.caracteristicas)
                        && Some(r.value.latitud) == Coordinate(input.latitud, 90.0, floatOf)
                        && Some(r.value.longitud) == Coordinate(input.longitud, 180.0, floatOf)
                        && Some(r.value.extras) == ValidateExtras(input, floatOf)
    ensures r.Some? ==> |r.value.nombre| <= 20 && forall k :: 0 <= k < |r.value.caracteristicas| ==> r.value.caracteristicas[k] in CaracteristicaCodes
  {
    var nombre := RequiredText(input.nombre, 20);
    var descripcion := RequiredText(input.descripcion, 200);
    var tipo := if input.tipo.Some? then ParseTipo(input.tipo.value) else None;
    var caracteristicas := ValidateCaracteristicas(input.caracteristicas);
    var latitud := Coordinate(input.latitud, 90.0, floatOf);
    var longitud := Coordinate(input.longitud, 180.0, floatOf);
    var direccion := RequiredText(input.direccionCompleta, 200);
    var extras := ValidateExtras(input, floatOf);
    if nombre.Some? && descripcion.Some? && tipo.Some? && caracteristicas.Some?
       && latitud.Some? && longitud.Some? && direccion.Some? && extras.Some?
    then Some(ValidInput(nombre.value, descripcion.value, tipo.value, caracteristicas.value, latitud.value,
                         longitud.value, direccion.value, extras.value))
    else None
  }

  /**
   * `create` of a validated payload: the row belongs to the requesting user, whatever
   * the payload claimed, and carries every validated field; the fields the payload did
   * not send hold their column defaults (see `AbsentExtrasAreDefaults`).
   */
  method Create(id: int, v: ValidInput, requester: User) returns (p: Propiedad)
    ensures fresh(p)
    ensures p.Datos() == Ficha(id, requester.id, v.nombre, v.descripcion, v.tipo, v.caracteristicas,
                               v.extras.status, v.extras.precioNoche, v.extras.descuento, v.extras.cantBath,
                               v.extras.cantHab, v.extras.maxHuespedes, v.extras.pets, v.latitud, v.longitud,
                               v.direccionCompleta, v.extras.ciudad, v.extras.provincia, v.extras.pais,
                               v.extras.departamento, v.extras.esDestinoTuristico)
    ensures p.estadoBaja == v.extras.estadoBaja && p.fechaBajaInicio == v.extras.fechaBajaInicio
    ensures p.fechaBajaFin == v.extras.fechaBajaFin && p.motivoBaja == v.extras.motivoBaja
    ensures TieneUbicacion(p) <==> v.latitud.Some? && v.longitud.Some?
    ensures p.EstaDisponible() <==> v.extras.status && v.extras.estadoBaja == Activa
  {
    var e := v.extras;
    var f := Ficha(id, requester.id, v.nombre, v.descripcion, v.tipo, v.caracteristicas, e.status, e.precioNoche,
                   e.descuento, e.cantBath, e.cantHab, e.maxHuespedes, e.pets, v.latitud, v.longitud,
                   v.direccionCompleta, e.ciudad, e.provincia, e.pais, e.departamento, e.esDestinoTuristico);
    p := new Propiedad.Registrada(f, e.estadoBaja, e.fechaBajaInicio, e.fechaBajaFin, e.motivoBaja);
  }

  /** A validated `DarBajaPropiedadSerializer` payload. */
  datatype Baja = Baja(temporal: bool, fechaFin: Option<Date>, motivo: Option<string>)

  /** The deactivation payload as sent; each field absent or its text. */
  datatype BajaInput = BajaInput(tipoBaja: Option<string>, fechaBajaFin: Option<string>, motivoBaja: Option<string>)

  /**
   * An optional DRF `CharField(max_length=200)`: when present it is stripped, must not be
   * blank, must hold no NUL character, and must fit.
   */
  function OptionalMotivo(v: Option<string>): (r: Option<Option<string>>)
    ensures v.None? ==> r == Some(None)
    ensures v.Some? ==> (r.Some? <==> !AllSpaces(v.value) && '\0' !in v.value && |Strip(v.value)| <= 200)
    ensures v.Some? && r.Some? ==> r.value == Some(Strip(v.value))
  {
    if v.None? then Some(None)
    else
      var t := Strip(v.value);
      if t == [] || '\0' in v.value || |t| > 200 then None else Some(Some(t))
  }

  /**
   * `DarBajaPropiedadSerializer.is_valid()`: `tipo_baja` is required and one of
   * `temporal`, `indefinida`; `fecha_baja_fin` is optional and must be an ISO date;
   * `motivo_baja` is optional. `None` means status 400.
   */
  function ValidateBaja(input: BajaInput): (r: Option<Baja>)
    ensures r.Some? ==> input.tipoBaja.Some? && (input.tipoBaja.value == "temporal" || input.tipoBaja.value == "indefinida")
    ensures r.Some? ==> (r.value.temporal <==> input.tipoBaja.value == "temporal")
    ensures r.Some? ==> (r.value.fechaFin.Some? <==> input.fechaBajaFin.Some?)
    ensures r.Some? && input.fechaBajaFin.Some? ==> r.value.fechaFin == ParseIsoDate(input.fechaBajaFin.value)
    ensures r.Some? && r.value.motivo.Some? ==> |r.value.motivo.value| <= 200
    ensures input.tipoBaja.None? || input.tipoBaja.value !in {"temporal", "indefinida"} ==> r.None?
    ensures input.fechaBajaFin.Some? && ParseIsoDate(input.fechaBajaFin.value).None? ==> r.None?
    ensures r.Some? <==> (input.tipoBaja == Some("temporal") || input.tipoBaja == Some("indefinida"))
                         && (input.fechaBajaFin.None? || ParseIsoDate(input.fechaBajaFin.value).Some?)
                         && OptionalMotivo(input.motivoBaja).Some?
    ensures r.Some? ==> r.value.motivo == OptionalMotivo(input.motivoBaja).value
  {
    var motivo := OptionalMotivo(input.motivoBaja);
    if input.tipoBaja.None? || input.tipoBaja.value !in {"temporal", "indefinida"} then None
    else if input.fechaBajaFin.Some? && ParseIsoDate(input.fechaBajaFin.value).None? then None
    else if motivo.None? then None
    else
      var fin := if input.fechaBajaFin.Some? then ParseIsoDate(input.fechaBajaFin.value) else None;
      Some(Baja(input.tipoBaja.value == "temporal", fin, motivo.value))
  }
}
