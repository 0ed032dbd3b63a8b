/**
 * Row projection for the report types that list records: which fields are
 * shown (`campos`), the per-row dictionaries `_rows_from_values` builds, the
 * optional ordering and the `limite` cut.
 */
module ReportesRows {
  import opened Wrappers
  import opened Seqs
  import opened Sorting
  import opened ReportesCatalog
  import opened ReportesData

  const MaxDefaultCampos: nat := 10

  function Min(a: int, b: int): int {
    if a <= b then a else b
  }

  /**
   * The fields a report shows: the requested names the catalog knows, in the
   * order asked; with none requested, the first ten names of the catalog's field
   * set in `order`, its iteration order (Python does not fix the order of a set).
   */
  function SelectCampos(t: TipoReporte, requested: seq<string>, order: seq<string>): (r: seq<string>)
    ensures forall c :: c in r ==> c in CampoSet(t)
    ensures requested != [] ==> Subsequence(r, requested) && forall c :: c in r <==> c in requested && c in CampoSet(t)
    ensures requested == [] ==> Subsequence(r, order[..Min(MaxDefaultCampos, |order|)]) && |r| <= MaxDefaultCampos
  {
    var base := if requested == [] then order[..Min(MaxDefaultCampos, |order|)] else requested;
    Where(base, (c: string) => c in CampoSet(t))
  }

  /** With no fields requested and `order` listing the field set, the first ten of `order` are shown. */
  lemma DefaultCampos(t: TipoReporte, order: seq<string>)
    requires forall c :: c in order <==> c in CampoSet(t)
    ensures SelectCampos(t, [], order) == order[..Min(MaxDefaultCampos, |order|)]
  {
    var base := order[..Min(MaxDefaultCampos, |order|)];
    assert forall c :: c in base ==> c in order;
    WhereAll(base, (c: string) => c in CampoSet(t));
  }

  /** `row[k] = v`: overwrite in place when `k` is a key, append otherwise. */
  function SetKey(row: Row, k: string, v: Value): (r: Row)
    ensures Keys(r) == if k in Keys(row) then Keys(row) else Keys(row) + [k]
  {
    if row == [] then
      KeysCons((k, v), []);
      [(k, v)]
    else if row[0].0 == k then
      var r := [(k, v)] + row[1..];
      KeysCons((k, v), row[1..]);
      KeysCons(row[0], row[1..]);
      r
    else
      var rest := SetKey(row[1..], k, v);
      var r := [row[0]] + rest;
      KeysCons(row[0], row[1..]);
      KeysCons(row[0], rest);
      r
  }

  lemma KeysCons(p: (string, Value), rest: Row)
    ensures Keys([p] + rest) == [p.0] + Keys(rest)
    ensures Keys([p] + rest)[1..] == Keys(rest)
  {
    var r := [p] + rest;
    assert [p] + rest == r;
    assert forall i :: 1 <= i < |r| ==> r[i] == rest[i - 1];
  }

  /** After `row[k] = v`, `k` reads `v` and every other key reads what it did. */
  lemma {:induction false} SetKeyLookup(row: Row, k: string, v: Value, j: string)
    ensures Lookup(SetKey(row, k, v), j) == if j == k then v else Lookup(row, j)
  {
    if row != [] && row[0].0 != k {
      SetKeyLookup(row[1..], k, v, j);
      var r := SetKey(row, k, v);
      assert r[1..] == SetKey(row[1..], k, v);
    }
  }

  /**
   * The row `_rows_from_values` builds from one `values()` dictionary: one key per
   * selected field, in first-appearance order, holding the dictionary's value
   * (null for a name it lacks).
   */
  function Project(item: Row, campos: seq<string>): (r: Row)
    ensures Keys(r) == Dedup(campos)
    ensures forall c :: c in campos ==> Lookup(r, c) == Lookup(item, c)
  {
    if campos == [] then []
    else
      var init := campos[..|campos| - 1];
      var c := campos[|campos| - 1];
      var r := SetKey(Project(item, init), c, Lookup(item, c));
      forall x | x in campos
        ensures Lookup(r, x) == Lookup(item, x)
      {
        SetKeyLookup(Project(item, init), c, Lookup(item, c), x);
      }
      r
  }

  /** One row, field after field (the inner loop of `_rows_from_values`). */
  method ProjectRow(item: Row, campos: seq<string>) returns (row: Row)
    ensures row == Project(item, campos)
  {
    row := [];
    var k := 0;
    while k < |campos|
      invariant 0 <= k <= |campos|
      invariant row == Project(item, campos[..k])
    {
      assert campos[..k + 1][..k] == campos[..k];
      row := SetKey(row, campos[k], Lookup(item, campos[k]));
      k := k + 1;
    }
    assert campos[..|campos|] == campos;
  }

  /** `_rows_from_values(values_qs, campos)`: one row per dictionary, in order. */
  method RowsFromValues(items: seq<Row>, campos: seq<string>) returns (rows: seq<Row>)
    ensures |rows| == |items|
    ensures forall i :: 0 <= i < |items| ==> rows[i] == Project(items[i], campos)
  {
    rows := [];
    var i := 0;
    while i < |items|
      invariant 0 <= i <= |items|
      invariant |rows| == i
      invariant forall j :: 0 <= j < i ==> rows[j] == Project(items[j], campos)
    {
      var row := ProjectRow(items[i], campos);
      rows := rows + [row];
      i := i + 1;
    }
  }

  /** `int(limite or 100)`: zero means the default. */
  function EffectiveLimite(limite: int): (r: int)
    ensures r != 0
    ensures limite != 0 ==> r == limite
    ensures limite == 0 ==> r == 100
  {
    if limite == 0 then 100 else limite
  }

  /** Whether `ordenamiento` applies: it must be one of the shown fields. */
  predicate OrdersBy(ordenamiento: Option<string>, campos: seq<string>) {
    ordenamiento.Some? && ordenamiento.value != "" && ordenamiento.value in campos
  }

  /**
   * `values_qs.order_by(ordenamiento)` when it applies, the default order otherwise.
   * `collation` ranks the column's values as the database compares them.
   */
  function OrderItems(items: seq<Row>, ordenamiento: Option<string>, campos: seq<string>, collation: Value -> int): (r: seq<Row>)
    ensures multiset(r) == multiset(items) && |r| == |items|
    ensures OrdersBy(ordenamiento, campos) ==>
      forall i, j :: 0 <= i < j < |r| ==>
        collation(Lookup(r[i], ordenamiento.value)) <= collation(Lookup(r[j], ordenamiento.value))
    ensures !OrdersBy(ordenamiento, campos) ==> r == items
  {
    if OrdersBy(ordenamiento, campos) then
      var key := ordenamiento.value;
      SortDesc(items, (x: Row) => -collation(Lookup(x, key)))
    else items
  }

  /** The records a listing report shows, in the order shown: ordered, then the first `lim`. */
  function Listed(items: seq<Row>, ordenamiento: Option<string>, campos: seq<string>, lim: nat, collation: Value -> int): (r: seq<Row>)
    ensures |r| == Min(lim, |items|)
    ensures multiset(r) <= multiset(items)
    ensures !OrdersBy(ordenamiento, campos) ==> r == items[..Min(lim, |items|)]
    ensures OrdersBy(ordenamiento, campos) ==>
      forall i, j :: 0 <= i < j < |r| ==>
        collation(Lookup(r[i], ordenamiento.value)) <= collation(Lookup(r[j], ordenamiento.value))
  {
    var ordered := OrderItems(items, ordenamiento, campos, collation);
    var n := Min(lim, |ordered|);
    assert ordered == ordered[..n] + ordered[n..];
    assert multiset(ordered) == multiset(ordered[..n]) + multiset(ordered[n..]);
    ordered[..n]
  }

  /**
   * With an ordering, the listed records are the first `lim` of the whole
   * collection: together with the records left out they are the collection, and no
   * record left out ranks before a listed one.
   */
  lemma ListedRanksFirst(items: seq<Row>, ordenamiento: Option<string>, campos: seq<string>, lim: nat, collation: Value -> int)
    requires OrdersBy(ordenamiento, campos)
    ensures var r := Listed(items, ordenamiento, campos, lim, collation);
            var rest := OrderItems(items, ordenamiento, campos, collation)[Min(lim, |items|)..];
            multiset(r) + multiset(rest) == multiset(items)
            && forall x, y :: x in r && y in rest ==>
                 collation(Lookup(x, ordenamiento.value)) <= collation(Lookup(y, ordenamiento.value))
  {
    var ordered := OrderItems(items, ordenamiento, campos, collation);
    var n := Min(lim, |items|);
    assert Listed(items, ordenamiento, campos, lim, collation) == ordered[..n];
    assert ordered == ordered[..n] + ordered[n..];
    SplitRanks(ordered, n, (x: Row) => collation(Lookup(x, ordenamiento.value)));
  }

  /** Cutting a sequence sorted by `rank` leaves no element of the tail ranked before one of the head. */
  lemma SplitRanks(s: seq<Row>, n: nat, rank: Row -> int)
    requires n <= |s|
    requires forall i, j :: 0 <= i < j < |s| ==> rank(s[i]) <= rank(s[j])
    ensures forall x, y :: x in s[..n] && y in s[n..] ==> rank(x) <= rank(y)
  {
    forall x, y | x in s[..n] && y in s[n..]
      ensures rank(x) <= rank(y)
    {
      var i :| 0 <= i < n && s[..n][i] == x;
      var j :| 0 <= j < |s| - n && s[n..][j] == y;
      assert s[i] == x && s[n + j] == y;
    }
  }


  /**
   * The rows of a listing report: the listed records projected to the shown
   * fields. A negative limit is an error, as slicing a queryset with one is.
   */
  function ListRows(items: seq<Row>, campos: seq<string>, ordenamiento: Option<string>, limite: int, collation: Value -> int): (r: Result<seq<Row>>)
    ensures r.Err? <==> EffectiveLimite(limite) < 0
    ensures r.Err? ==> r.status == 500
    ensures r.Ok? ==> |r.value| == Min(EffectiveLimite(limite), |items|) && |r.value| <= EffectiveLimite(limite)
    ensures r.Ok? ==> forall i :: 0 <= i < |r.value| ==> Keys(r.value[i]) == Dedup(campos)
    ensures r.Ok? ==> forall i :: 0 <= i < |r.value| ==>
      r.value[i] == Project(Listed(items, ordenamiento, campos, EffectiveLimite(limite), collation)[i], campos)
  {
    var lim := EffectiveLimite(limite);
    if lim < 0 then Err(500)
    else
      var taken := Listed(items, ordenamiento, campos, lim, collation);
      Ok(seq(|taken|, i requires 0 <= i < |taken| => Project(taken[i], campos)))
  }

  /** With the ordering applied, the listed rows ascend in the ordering column. */
  lemma ListRowsOrdered(items: seq<Row>, campos: seq<string>, ordenamiento: Option<string>, limite: int, collation: Value -> int)
    requires OrdersBy(ordenamiento, campos) && EffectiveLimite(limite) >= 0
    ensures var r := ListRows(items, campos, ordenamiento, limite, collation).value;
      forall i, j :: 0 <= i < j < |r| ==>
        collation(Lookup(r[i], ordenamiento.value)) <= collation(Lookup(r[j], ordenamiento.value))
  {
    var key := ordenamiento.value;
    var taken := Listed(items, ordenamiento, campos, EffectiveLimite(limite), collation);
    var r := ListRows(items, campos, ordenamiento, limite, collation).value;
    forall i, j | 0 <= i < j < |r|
      ensures collation(Lookup(r[i], key)) <= collation(Lookup(r[j], key))
    {
      assert Lookup(r[i], key) == Lookup(taken[i], key);
      assert Lookup(r[j], key) == Lookup(taken[j], key);
    }
  }

  /** Without a usable ordering the first `limite` records are listed in collection order. */
  lemma ListRowsUnordered(items: seq<Row>, campos: seq<string>, ordenamiento: Option<string>, limite: int, collation: Value -> int)
    requires !OrdersBy(ordenamiento, campos) && EffectiveLimite(limite) >= 0
    ensures var r := ListRows(items, campos, ordenamiento, limite, collation).value;
      forall i :: 0 <= i < |r| ==> r[i] == Project(items[i], campos)
  {
  }
}
