/**
 * `listar_bitacora`: the audit-log listing. The caller sees their own entries (a
 * superuser sees all), newest first, optionally narrowed by a case-insensitive
 * search, twenty per page.
 */
module BitacoraViews {
  import opened Wrappers
  import opened Text
  import opened Sorting
  import opened Accounts
  import opened Json

  /** The user an entry belongs to, as `select_related('usuario')` loads it. */
  datatype Autor = Autor(id: int, username: string, firstName: string, lastName: string)

  /**
   * A stored `bitacora` row; `detalles` is its JSON column as stored, `creadoEn` the
   * creation instant as a number.
   */
  datatype LogRow = LogRow(
    id: int, usuario: Autor, accion: string, modulo: string, detalles: Json,
    ipAddress: Option<string>, userAgent: string, creadoEn: int)

  /** One element of the `bitacoras` list of the response. */
  datatype Rendered = Rendered(
    id: int, usuarioId: int, username: string, nombreCompleto: string,
    accion: string, modulo: string, detalles: Json, ipAddress: Option<string>, userAgent: string, creadoEn: int)

  datatype Listing = Listing(bitacoras: seq<Rendered>, total: nat, pagina: int, totalPaginas: nat)

  const PageSize: nat := 20

  function LoggedAt(r: LogRow): int {
    r.creadoEn
  }

  /** The caller's own entries, in table order. */
  function OwnEntries(rows: seq<LogRow>, user: int): (r: seq<LogRow>)
    ensures |r| <= |rows|
    ensures forall k :: 0 <= k < |r| ==> r[k] in rows && r[k].usuario.id == user
    ensures forall e :: e in rows && e.usuario.id == user ==> e in r
  {
    if rows == [] then []
    else
      var init, last := rows[..|rows| - 1], rows[|rows| - 1];
      assert rows == init + [last];
      OwnEntries(init, user) + (if last.usuario.id == user then [last] else [])
  }

  /** The base queryset: everything for a superuser, otherwise the caller's own entries; newest first (`Meta.ordering`). */
  function Visible(rows: seq<LogRow>, user: User): (r: seq<LogRow>)
    ensures SortedDesc(r, LoggedAt)
    ensures user.isSuperuser ==> multiset(r) == multiset(rows)
    ensures !user.isSuperuser ==> multiset(r) == multiset(OwnEntries(rows, user.id))
    ensures forall k :: 0 <= k < |r| ==> r[k] in rows && (user.isSuperuser || r[k].usuario.id == user.id)
  {
    var r := SortDesc(if user.isSuperuser then rows else OwnEntries(rows, user.id), LoggedAt);
    assert forall k :: 0 <= k < |r| ==> r[k] in multiset(r);
    r
  }

  predicate Matches(e: LogRow, search: string) {
    IContains(e.usuario.username, search) || IContains(e.accion, search) || IContains(e.modulo, search)
  }

  /** The `search` filter: skipped for the empty term, otherwise an order-preserving filter by `Matches`. */
  function Search(rows: seq<LogRow>, search: string): (r: seq<LogRow>)
    ensures search == "" ==> r == rows
    ensures |r| <= |rows|
    ensures forall k :: 0 <= k < |r| ==> r[k] in rows && Matches(r[k], search)
    ensures forall e :: e in rows && Matches(e, search) ==> e in r
  {
    if search == "" then rows
    else if rows == [] then []
    else
      var init, last := rows[..|rows| - 1], rows[|rows| - 1];
      assert rows == init + [last];
      assert forall e :: e in rows <==> e in init || e == last;
      Search(init, search) + (if Matches(last, search) then [last] else [])
  }

  /** With the empty term every entry matches, so skipping the filter loses nothing. */
  lemma EmptySearchMatchesAll(e: LogRow)
    ensures Matches(e, "")
  {
    ContainsEmpty(Lower(e.usuario.username));
  }

  /** `(total + page_size - 1) // page_size`: the number of pages. */
  function TotalPaginas(total: nat): (n: nat)
    ensures n * PageSize >= total
    ensures n > 0 ==> (n - 1) * PageSize < total
    ensures n == 0 <==> total == 0
  {
    (total + PageSize - 1) / PageSize
  }

  function MinNat(a: nat, b: nat): nat {
    if a <= b then a else b
  }

  /** The slice `[(page - 1) * 20 : page * 20]` of a sequence, for a page of at least 1. */
  function PageOf(rows: seq<LogRow>, page: int): (r: seq<LogRow>)
    requires page >= 1
    ensures |r| <= PageSize
    ensures forall k :: 0 <= k < |r| ==> (page - 1) * PageSize + k < |rows| && r[k] == rows[(page - 1) * PageSize + k]
    ensures (page - 1) * PageSize + |r| == MinNat(page * PageSize, |rows|) || (|r| == 0 && (page - 1) * PageSize >= |rows|)
  {
    rows[MinNat((page - 1) * PageSize, |rows|)..MinNat(page * PageSize, |rows|)]
  }

  /** Every entry of the listing lies on exactly the page its index says, and that page exists. */
  lemma {:induction false} EntryOnItsPage(rows: seq<LogRow>, i: nat)
    requires i < |rows|
    ensures 1 <= i / PageSize + 1 <= TotalPaginas(|rows|)
    ensures PageOf(rows, i / PageSize + 1)[i % PageSize] == rows[i]
  {
    var p := i / PageSize + 1;
    assert (p - 1) * PageSize + i % PageSize == i;
  }

  /** Pages after the last one are empty. */
  lemma PastLastPageEmpty(rows: seq<LogRow>, page: int)
    requires page > TotalPaginas(|rows|)
    ensures PageOf(rows, page) == []
  {
    var n := TotalPaginas(|rows|);
    assert (page - 1) * PageSize >= n * PageSize;
  }

  /** `nombre_completo`: first and last name joined by a space and stripped, or the username when that is empty. */
  function NombreCompleto(a: Autor): string {
    var joined := Strip(a.firstName + " " + a.lastName);
    if joined == [] then a.username else joined
  }

  /** The username stands in exactly when both names are blank; otherwise the name shown has no surrounding white space. */
  lemma NombreCompletoBlank(a: Autor)
    ensures AllSpaces(a.firstName) && AllSpaces(a.lastName) ==> NombreCompleto(a) == a.username
    ensures !(AllSpaces(a.firstName) && AllSpaces(a.lastName)) ==>
              var n := NombreCompleto(a);
              n != [] && !IsSpace(n[0]) && !IsSpace(n[|n| - 1])
  {
    JoinedSpaces(a.firstName, a.lastName);
  }

  lemma JoinedSpaces(f: string, l: string)
    ensures AllSpaces(f + " " + l) <==> AllSpaces(f) && AllSpaces(l)
  {
    var j := f + " " + l;
    if AllSpaces(j) {
      assert forall i :: 0 <= i < |f| ==> f[i] == j[i];
      assert forall i :: 0 <= i < |l| ==> l[i] == j[|f| + 1 + i];
    }
  }

  /** Names without surrounding white space are shown as `first last`. */
  lemma FullNameJoined(a: Autor)
    requires a.firstName != [] && !IsSpace(a.firstName[0])
    requires a.lastName != [] && !IsSpace(a.lastName[|a.lastName| - 1])
    ensures NombreCompleto(a) == a.firstName + " " + a.lastName
  {
    var joined := a.firstName + " " + a.lastName;
    assert joined[0] == a.firstName[0];
    assert joined[|joined| - 1] == a.lastName[|a.lastName| - 1];
    assert !AllSpaces(joined);
    StripUnspaced(joined);
  }

  /** One element of `datos_bitacora`: the entry's columns, with its author's id, username and full name. */
  function Render(e: LogRow): (r: Rendered)
    ensures r.id == e.id && r.usuarioId == e.usuario.id && r.username == e.usuario.username
    ensures r.nombreCompleto == NombreCompleto(e.usuario)
    ensures r.accion == e.accion && r.modulo == e.modulo && r.detalles == e.detalles
    ensures r.ipAddress == e.ipAddress && r.userAgent == e.userAgent && r.creadoEn == e.creadoEn
  {
    Rendered(e.id, e.usuario.id, e.usuario.username, NombreCompleto(e.usuario),
             e.accion, e.modulo, e.detalles, e.ipAddress, e.userAgent, e.creadoEn)
  }

  /** The `bitacoras` list: one rendered element per entry of the page, in order. */
  function RenderAll(page: seq<LogRow>): (r: seq<Rendered>)
    ensures |r| == |page|
  {
    if page == [] then [] else RenderAll(page[..|page| - 1]) + [Render(page[|page| - 1])]
  }

  /** Element k of the `bitacoras` list renders entry k of the page, `detalles` included. */
  lemma {:induction false} RenderAllAt(page: seq<LogRow>, k: nat)
    requires k < |page|
    ensures RenderAll(page)[k] == Render(page[k])
    ensures RenderAll(page)[k].detalles == page[k].detalles && RenderAll(page)[k].id == page[k].id
    decreases |page|
  {
    if k < |page| - 1 {
      RenderAllAt(page[..|page| - 1], k);
    }
  }

  /** The base queryset narrowed by the search term. */
  function Filtered(rows: seq<LogRow>, user: User, search: Option<string>): seq<LogRow> {
    Search(Visible(rows, user), search.GetOr(""))
  }

  /**
   * The `page` query parameter: `1` when absent, otherwise Python's `int` of the text;
   * `None` when that raises.
   */
  function PageParam(page: Option<string>): (p: Option<int>)
    ensures page.None? ==> p == Some(1)
    ensures page.Some? ==> p == ParseInt(page.value)
  {
    if page.None? then Some(1) else ParseInt(page.value)
  }

  /**
   * `listar_bitacora`. A page that is not an integer, or below 1 (a negative slice
   * bound, which querysets refuse), ends in the view's `except` branch: status 500.
   */
  method ListarBitacora(rows: seq<LogRow>, user: User, search: Option<string>, page: Option<string>)
    returns (r: Result<Listing>)
    ensures PageParam(page).None? ==> r == Err(500)
    ensures PageParam(page).Some? && PageParam(page).value < 1 ==> r == Err(500)
    ensures PageParam(page).Some? && PageParam(page).value >= 1 ==>
              r.Ok? && r.value.total == |Filtered(rows, user, search)| && r.value.pagina == PageParam(page).value
              && r.value.totalPaginas == TotalPaginas(|Filtered(rows, user, search)|)
              && r.value.bitacoras == RenderAll(PageOf(Filtered(rows, user, search), PageParam(page).value))
  {
    var p := PageParam(page);
    if p.None? || p.value < 1 {
      return Err(500);
    }
    var qs := Filtered(rows, user, search);
    var datos := RenderPage(PageOf(qs, p.value));
    r := Ok(Listing(datos, |qs|, p.value, TotalPaginas(|qs|)));
  }

  /** The loop that builds `datos_bitacora`, one rendered entry per row of the page. */
  method RenderPage(bitacoras: seq<LogRow>) returns (datos: seq<Rendered>)
    ensures datos == RenderAll(bitacoras)
  {
    datos := [];
    for k := 0 to |bitacoras|
      invariant datos == RenderAll(bitacoras[..k])
    {
      assert bitacoras[..k + 1][..k] == bitacoras[..k];
      datos := datos + [Render(bitacoras[k])];
    }
    assert bitacoras[..|bitacoras|] == bitacoras;
  }
}
