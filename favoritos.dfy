/** Favourite properties: one row per (user, property) pair, toggled on and off. */
module Favoritos {
  import opened Wrappers

  datatype Favorito = Favorito(usuario: int, propiedad: int)

  /** The membership change a toggle makes: remove the pair if present, add it otherwise. */
  function Toggled(s: set<Favorito>, f: Favorito): (r: set<Favorito>)
    ensures f in r <==> f !in s
    ensures forall g :: g != f ==> (g in r <==> g in s)
  {
    if f in s then s - {f} else s + {f}
  }

  /** Toggling the same pair twice restores the original favourites. */
  lemma ToggleTwice(s: set<Favorito>, f: Favorito)
    ensures Toggled(Toggled(s, f), f) == s
  {
  }

  predicate Distinct(rows: seq<Favorito>) {
    forall i, j :: 0 <= i < j < |rows| ==> rows[i] != rows[j]
  }

  function Without(rows: seq<Favorito>, f: Favorito): (r: seq<Favorito>)
    ensures forall g :: g in r <==> g in rows && g != f
    ensures Distinct(rows) ==> Distinct(r)
  {
    if rows == [] then []
    else
      var init := Without(rows[..|rows| - 1], f);
      var last := rows[|rows| - 1];
      if last == f then init
      else
        assert Distinct(rows) ==> last !in rows[..|rows| - 1];
        init + [last]
  }

  /** `listar_favoritos`: the requester's favourites only. */
  function ListarFavoritos(rows: seq<Favorito>, user: int): (r: seq<Favorito>)
    ensures forall g :: g in r <==> g in rows && g.usuario == user
  {
    if rows == [] then []
    else ListarFavoritos(rows[..|rows| - 1], user) + (if rows[|rows| - 1].usuario == user then [rows[|rows| - 1]] else [])
  }

  /** The `favoritos` table; `unique_together` keeps each pair at most once. */
  class FavoritosTable {
    var rows: seq<Favorito>

    ghost predicate Valid()
      reads this
    {
      Distinct(rows)
    }

    ghost function Pairs(): set<Favorito>
      reads this
    {
      set g | g in rows
    }

    constructor ()
      ensures Valid() && rows == []
    {
      rows := [];
    }

    /**
     * `toggle_favorito`: an invalid payload (no integer `propiedad_id`) gets 400 and
     * a property that does not exist or whose `status` is false gets 404, both
     * without change; otherwise the pair is removed if present and added if absent,
     * and the reported `es_favorito` is its membership afterwards.
     */
    method ToggleFavorito(user: int, propiedadId: Option<int>, propertyStatus: map<int, bool>)
      returns (status: int, esFavorito: bool)
      requires Valid()
      modifies this
      ensures Valid()
      ensures status == 400 <==> propiedadId.None?
      ensures status == 404 <==> propiedadId.Some? && !(propiedadId.value in propertyStatus && propertyStatus[propiedadId.value])
      ensures status == 200 || status == 400 || status == 404
      ensures status != 200 ==> rows == old(rows)
      ensures status == 200 ==>
        var f := Favorito(user, propiedadId.value);
        Pairs() == Toggled(old(Pairs()), f) && (esFavorito <==> f in rows)
    {
      if propiedadId.None? {
        return 400, false;
      }
      var p := propiedadId.value;
      if !(p in propertyStatus && propertyStatus[p]) {
        return 404, false;
      }
      var f := Favorito(user, p);
      if f in rows {
        rows := Without(rows, f);
        esFavorito := false;
      } else {
        rows := rows + [f];
        esFavorito := true;
      }
      status := 200;
    }
  }
}
