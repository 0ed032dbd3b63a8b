/**
 * The frontend's property list filter: a free-text search, a type, a maximum
 * nightly price and a minimum number of rooms.
 */
module PropiedadesFilters {
  import opened Wrappers
  import opened Text
  import opened Seqs

  /**
   * A property as the list receives it from the API. `direccion` is the field the
   * filter reads; the API's property records do not carry it (they carry
   * `direccionCompleta`), so it is `None` for them.
   */
  datatype ListedPropiedad = ListedPropiedad(
    id: int,
    nombre: string,
    tipo: string,
    precioNoche: real,
    cantHab: int,
    direccion: Option<string>,
    direccionCompleta: string)

  datatype Filters = Filters(search: string, tipo: string, precioMax: real, habitaciones: int, category: string)

  /** The state the hook starts in, and the one `resetFilters` restores. */
  const DefaultFilters: Filters := Filters("", "all", 5000.0, 0, "all")

  /** `resetFilters`: every filter back to its default, whatever it was. */
  function ResetFilters(f: Filters): (r: Filters)
    ensures r.search == "" && r.tipo == "all" && r.precioMax == 5000.0 && r.habitaciones == 0 && r.category == "all"
  {
    DefaultFilters
  }

  predicate MatchesTipo(f: Filters, p: ListedPropiedad) {
    f.tipo == "all" || p.tipo == f.tipo
  }

  predicate MatchesPrecio(f: Filters, p: ListedPropiedad) {
    p.precioNoche <= f.precioMax
  }

  predicate MatchesHabitaciones(f: Filters, p: ListedPropiedad) {
    f.habitaciones == 0 || p.cantHab >= f.habitaciones
  }

  /**
   * The search test as written: an empty search matches, then the name, then
   * `direccion.toLowerCase()`, which throws (`None`) when the property has no `direccion`.
   */
  function MatchesSearchAsWritten(f: Filters, p: ListedPropiedad): (r: Option<bool>)
    ensures r.None? <==> f.search != "" && !IContains(p.nombre, f.search) && p.direccion.None?
  {
    if f.search == "" || IContains(p.nombre, f.search) then Some(true)
    else
      match p.direccion
      case Some(d) => Some(IContains(d, f.search))
      case None => None
  }

  /** `filterPropiedades` as written; `None` when the callback throws for some property. */
  function FilterAsWritten(f: Filters, props: seq<ListedPropiedad>): (r: Option<seq<ListedPropiedad>>)
    ensures r.None? <==> exists p :: p in props && MatchesSearchAsWritten(f, p).None?
  {
    if props == [] then Some([])
    else
      var last := props[|props| - 1];
      assert forall p :: p in props <==> p in props[..|props| - 1] || p == last;
      match FilterAsWritten(f, props[..|props| - 1])
      case None => None
      case Some(init) =>
        match MatchesSearchAsWritten(f, last)
        case None => None
        case Some(m) =>
          Some(init + (if m && MatchesTipo(f, last) && MatchesPrecio(f, last) && MatchesHabitaciones(f, last) then [last] else []))
  }

  /** A property from the API whose name does not contain a non-empty search makes the filter throw. */
  lemma FilterThrowsOnApiRows(f: Filters, p: ListedPropiedad)
    requires f.search != "" && !IContains(p.nombre, f.search) && p.direccion.None?
    ensures FilterAsWritten(f, [p]) == None
  {
    assert p in [p];
  }

  /** The search the filter evidently means: name or full address, case-insensitively. */
  predicate MatchesSearch(f: Filters, p: ListedPropiedad) {
    f.search == "" || IContains(p.nombre, f.search) || IContains(p.direccionCompleta, f.search)
  }

  predicate Keeps(f: Filters, p: ListedPropiedad) {
    MatchesSearch(f, p) && MatchesTipo(f, p) && MatchesPrecio(f, p) && MatchesHabitaciones(f, p)
  }

  /** `filterPropiedades` reading the full address: the properties every filter accepts, in list order. */
  function FilterPropiedades(f: Filters, props: seq<ListedPropiedad>): (r: seq<ListedPropiedad>)
    ensures forall p :: p in r <==> p in props && Keeps(f, p)
    ensures Subsequence(r, props)
    ensures forall p :: p in r ==> p.precioNoche <= f.precioMax && (f.habitaciones > 0 ==> p.cantHab >= f.habitaciones)
  {
    if props == [] then []
    else
      var last := props[|props| - 1];
      var init := props[..|props| - 1];
      assert forall p :: p in props <==> p in init || p == last;
      var rest := FilterPropiedades(f, init);
      if Keeps(f, last) then
        var r := rest + [last];
        assert r[..|r| - 1] == rest && r[|r| - 1] == props[|props| - 1];
        r
      else
        assert rest == [] || Subsequence(rest, props[..|props| - 1]);
        rest
  }

  /** With the default filters exactly the properties priced at most 5000 a night remain. */
  lemma DefaultFiltersKeepAffordable(props: seq<ListedPropiedad>)
    ensures forall p :: p in FilterPropiedades(DefaultFilters, props) <==> p in props && p.precioNoche <= 5000.0
  {
  }

  /** An empty search matches every property. */
  lemma EmptySearchMatchesAll(f: Filters, p: ListedPropiedad)
    requires f.search == ""
    ensures MatchesSearch(f, p) && MatchesSearchAsWritten(f, p) == Some(true)
  {
  }
}
