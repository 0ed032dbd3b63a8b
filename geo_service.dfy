/**
 * `GeoService`: the tourist-destination lookup, the Bolivia bounding box, and how
 * a geocoding result is written onto a property.
 */
module GeoService {
  import opened Wrappers
  import opened Text
  import opened PropiedadesModel

  /** The keys of the `destinos_turisticos` table: cities, natural and cultural sites, departments. */
  const Destinos: set<string> := {
    "santa cruz de la sierra", "la paz", "sucre", "cochabamba", "potosí", "potosi", "oruro", "tarija",
    "uyuni", "salar de uyuni", "copacabana", "lago titicaca", "samaipata", "el fuerte de samaipata",
    "rurrenabaque", "madidi", "coroico", "los yungas", "torotoro", "tupiza",
    "san ignacio de velasco", "misiones jesuíticas", "valle de la luna", "tiwanaku",
    "santa cruz", "chuquisaca", "beni", "pando"}

  /**
   * The lookup key of a name: lower-cased, then stripped; a missing name gives `''`
   * (for the empty name both branches of the source give `''`).
   */
  function Key(name: Option<string>): (k: string)
    ensures k == [] || (!IsSpace(k[0]) && !IsSpace(k[|k| - 1]))
    ensures name.None? || AllSpaces(name.value) ==> k == ""
  {
    if name.None? then ""
    else
      SpacesLower(name.value);
      Strip(Lower(name.value))
  }

  /** Lower-casing leaves white space alone. */
  lemma SpacesLower(s: string)
    ensures AllSpaces(s) ==> Lower(s) == s && AllSpaces(Lower(s))
  {
    if AllSpaces(s) {
      var l := Lower(s);
      assert forall i :: 0 <= i < |s| ==> !IsUpper(s[i]) && l[i] == s[i];
    }
  }

  /** `_es_destino_turistico`: either name, normalised, is a key of the table. */
  function EsDestinoTuristico(ciudad: Option<string>, departamento: Option<string>): (b: bool)
    ensures b <==> Key(ciudad) in Destinos || Key(departamento) in Destinos
    ensures (ciudad.None? || ciudad.value == "") && (departamento.None? || departamento.value == "") ==> !b
  {
    NoBlankDestino();
    Key(ciudad) in Destinos || Key(departamento) in Destinos
  }

  /** No destination is the empty key. */
  lemma NoBlankDestino()
    ensures "" !in Destinos
  {
    assert forall d | d in Destinos :: |d| >= 4;
  }

  /** White space and case do not matter: a name lower-cases alike and surrounded by blanks gives the same key. */
  lemma KeyInsensitive(p: string, a: string, b: string, q: string)
    requires AllSpaces(p) && AllSpaces(q)
    requires Lower(a) == Lower(b)
    ensures Key(Some(p + a + q)) == Key(Some(b))
  {
    SpacesLower(p);
    SpacesLower(q);
    LowerAppend(p + a, q);
    LowerAppend(p, a);
    assert Lower(p + a + q) == p + Lower(a) + q;
    StripSurrounded(p, Lower(a), q);
  }

  /** Hence the destination decision is insensitive to case and surrounding white space in the city name. */
  lemma DestinoInsensitive(p: string, a: string, b: string, q: string, departamento: Option<string>)
    requires AllSpaces(p) && AllSpaces(q)
    requires Lower(a) == Lower(b)
    ensures EsDestinoTuristico(Some(p + a + q), departamento) == EsDestinoTuristico(Some(b), departamento)
  {
    KeyInsensitive(p, a, b, q);
  }

  /** `validar_coordenadas_bolivia`: inside the box [-22.9, -9.7] x [-69.6, -57.5], bounds included. */
  function ValidarCoordenadasBolivia(latitud: real, longitud: real): (b: bool)
    ensures b ==> -90.0 <= latitud <= 90.0 && -180.0 <= longitud <= 180.0
    ensures b <==> -22.9 <= latitud <= -9.7 && -69.6 <= longitud <= -57.5
  {
    -22.9 <= latitud <= -9.7 && -69.6 <= longitud <= -57.5
  }

  /** What the geocoder answered; an absent text field is `None`. */
  datatype GeoResult = GeoResult(
    exito: bool, latitud: real, longitud: real,
    direccionCompleta: Option<string>, ciudad: Option<string>, provincia: Option<string>,
    departamento: Option<string>, pais: Option<string>)

  /** The address the update geocodes: the argument when given and non-empty, else the stored one. */
  function AddressFor(p: Propiedad, direccion: Option<string>): string
    reads p
  {
    if direccion.None? || direccion.value == "" then p.direccionCompleta else direccion.value
  }

  /** The coordinate and address columns written from a geocoding answer. */
  method WriteUbicacion(p: Propiedad, latitud: real, longitud: real, direccion: string)
    modifies p
    ensures p.Datos() == old(p.Datos()).(latitud := Some(latitud), longitud := Some(longitud), direccionCompleta := direccion)
    ensures p.estadoBaja == old(p.estadoBaja) && p.fechaBajaInicio == old(p.fechaBajaInicio)
    ensures p.fechaBajaFin == old(p.fechaBajaFin) && p.motivoBaja == old(p.motivoBaja)
  {
    p.latitud := Some(latitud);
    p.longitud := Some(longitud);
    p.direccionCompleta := direccion;
  }

  /** The place-name columns and the destination flag written from a geocoding answer. */
  method WriteRegion(p: Propiedad, ciudad: string, provincia: string, departamento: string, pais: string, destino: bool)
    modifies p
    ensures p.Datos() == old(p.Datos()).(ciudad := ciudad, provincia := provincia, departamento := departamento,
                                         pais := pais, esDestinoTuristico := destino)
    ensures p.estadoBaja == old(p.estadoBaja) && p.fechaBajaInicio == old(p.fechaBajaInicio)
    ensures p.fechaBajaFin == old(p.fechaBajaFin) && p.motivoBaja == old(p.motivoBaja)
  {
    p.ciudad := ciudad;
    p.provincia := provincia;
    p.departamento := departamento;
    p.pais := pais;
    p.esDestinoTuristico := destino;
  }

  /**
   * The assignments made from a successful geocoding answer; `destino` is the
   * destination decision for its names. Missing names are stored blank, a missing
   * country as `Bolivia`; every other column is left as it was.
   */
  method WriteGeo(p: Propiedad, geo: GeoResult, destino: bool)
    modifies p
    ensures p.Datos() == old(p.Datos()).(latitud := Some(geo.latitud), longitud := Some(geo.longitud),
                                         direccionCompleta := geo.direccionCompleta.GetOr(""),
                                         ciudad := geo.ciudad.GetOr(""), provincia := geo.provincia.GetOr(""),
                                         departamento := geo.departamento.GetOr(""),
                                         pais := geo.pais.GetOr("Bolivia"), esDestinoTuristico := destino)
    ensures p.estadoBaja == old(p.estadoBaja) && p.fechaBajaInicio == old(p.fechaBajaInicio)
    ensures p.fechaBajaFin == old(p.fechaBajaFin) && p.motivoBaja == old(p.motivoBaja)
  {
    WriteUbicacion(p, geo.latitud, geo.longitud, geo.direccionCompleta.GetOr(""));
    WriteRegion(p, geo.ciudad.GetOr(""), geo.provincia.GetOr(""), geo.departamento.GetOr(""), geo.pais.GetOr("Bolivia"), destino);
  }

  /**
   * `actualizar_geodatos_propiedad`. A blank address fails before any geocoding and
   * leaves the property alone; `geo` is the geocoder's answer for the address, and
   * only a successful answer is written onto the property (the caller saves it).
   */
  method ActualizarGeodatos(p: Propiedad, direccion: Option<string>, geo: GeoResult) returns (ok: bool)
    modifies p
    ensures ok <==> !AllSpaces(old(AddressFor(p, direccion))) && geo.exito
    ensures !ok ==> unchanged(p)
    ensures ok ==>
              p.Datos() == old(p.Datos()).(latitud := Some(geo.latitud), longitud := Some(geo.longitud),
                                           direccionCompleta := geo.direccionCompleta.GetOr(""),
                                           ciudad := geo.ciudad.GetOr(""), provincia := geo.provincia.GetOr(""),
                                           departamento := geo.departamento.GetOr(""), pais := geo.pais.GetOr("Bolivia"),
                                           esDestinoTuristico := EsDestinoTuristico(Some(geo.ciudad.GetOr("")),
                                                                                    Some(geo.departamento.GetOr(""))))
              && p.estadoBaja == old(p.estadoBaja) && p.fechaBajaInicio == old(p.fechaBajaInicio)
              && p.fechaBajaFin == old(p.fechaBajaFin) && p.motivoBaja == old(p.motivoBaja)
  {
    var dir := AddressFor(p, direccion);
    if Strip(dir) == [] {
      return false;
    }
    if !geo.exito {
      return false;
    }
    var destino := EsDestinoTuristico(Some(geo.ciudad.GetOr("")), Some(geo.departamento.GetOr("")));
    WriteGeo(p, geo, destino);
    ok := true;
  }
}
