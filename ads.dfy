/**
 * Advertisements: the general list, the public list of ads running now, and the
 * staff-only switch that turns an ad on or off.
 */
module Ads {
  import opened Accounts
  import opened Sorting

  /** An ad row; `fechaInicio`, `fechaFin`, `creadoEn` and instants in general are numbers that order instants. */
  datatype Publicidad = Publicidad(id: int, titulo: string, tipo: string, fechaInicio: int, fechaFin: int, activa: bool, creadoEn: int)

  /** The key of the model's default ordering, `-creado_en`. */
  function CreadoEn(p: Publicidad): int {
    p.creadoEn
  }

  /** `Publicidad.objects.filter(activa=True)`. */
  function Activas(s: seq<Publicidad>): (r: seq<Publicidad>)
    ensures forall p :: p in r <==> p in s && p.activa
    ensures |r| <= |s|
  {
    if s == [] then []
    else
      var last := s[|s| - 1];
      assert forall p :: p in s <==> p in s[..|s| - 1] || p == last;
      Activas(s[..|s| - 1]) + (if last.activa then [last] else [])
  }

  /** Running at `ahora`: active, and `fecha_inicio <= ahora <= fecha_fin`, both bounds included. */
  predicate EnCurso(p: Publicidad, ahora: int) {
    p.activa && p.fechaInicio <= ahora <= p.fechaFin
  }

  /** `Publicidad.objects.filter(activa=True, fecha_inicio__lte=ahora, fecha_fin__gte=ahora)` before ordering. */
  function EnCursoRows(s: seq<Publicidad>, ahora: int): (r: seq<Publicidad>)
    ensures forall p :: p in r <==> p in s && EnCurso(p, ahora)
    ensures |r| <= |Activas(s)|
  {
    if s == [] then []
    else
      var last := s[|s| - 1];
      assert forall p :: p in s <==> p in s[..|s| - 1] || p == last;
      EnCursoRows(s[..|s| - 1], ahora) + (if EnCurso(last, ahora) then [last] else [])
  }

  /** `PublicidadActivaList.get_queryset` with the current instant as input: the running ads, newest first. */
  function ActivasAhora(s: seq<Publicidad>, ahora: int): (r: seq<Publicidad>)
    ensures forall p :: p in r <==> p in s && EnCurso(p, ahora)
    ensures multiset(r) == multiset(EnCursoRows(s, ahora))
    ensures SortedDesc(r, CreadoEn)
    ensures |r| <= |Activas(s)|
  {
    var r := SortDesc(EnCursoRows(s, ahora), CreadoEn);
    assert forall p :: p in r <==> p in multiset(r);
    r
  }

  /** The table with the ad at index `k` switched over. */
  function Flipped(s: seq<Publicidad>, k: nat): (r: seq<Publicidad>)
    requires k < |s|
    ensures |r| == |s| && r[k].activa == !s[k].activa
    ensures forall i :: 0 <= i < |s| && i != k ==> r[i] == s[i]
  {
    s[k := s[k].(activa := !s[k].activa)]
  }

  /** Switching the same ad twice restores the table. */
  lemma FlipTwice(s: seq<Publicidad>, k: nat)
    requires k < |s|
    ensures Flipped(Flipped(s, k), k) == s
  {
  }

  function IndexOfId(s: seq<Publicidad>, pk: int): (k: nat)
    ensures k <= |s|
    ensures forall i :: 0 <= i < k ==> s[i].id != pk
    ensures k < |s| ==> s[k].id == pk
  {
    if s == [] then 0 else if s[0].id == pk then 0 else 1 + IndexOfId(s[1..], pk)
  }

  class AdTable {
    var ads: seq<Publicidad>

    /** The primary key: no two ads share an id. */
    ghost predicate Valid()
      reads this
    {
      forall i, j :: 0 <= i < j < |ads| ==> ads[i].id != ads[j].id
    }

    constructor()
      ensures ads == [] && Valid()
    {
      ads := [];
    }

    /** `PublicidadList.get_queryset`: staff and superusers see every ad, others only active ones; newest first. */
    function Listar(user: User): (r: seq<Publicidad>)
      reads this
      ensures StaffOrSuperuser(user) ==> multiset(r) == multiset(ads)
      ensures !StaffOrSuperuser(user) ==> multiset(r) == multiset(Activas(ads))
      ensures !StaffOrSuperuser(user) ==> forall p :: p in r <==> p in ads && p.activa
      ensures SortedDesc(r, CreadoEn)
    {
      var r := SortDesc(if StaffOrSuperuser(user) then ads else Activas(ads), CreadoEn);
      assert forall p :: p in r <==> p in multiset(r);
      r
    }

    /**
     * `ToggleActiva.post`: 403 for anyone but staff and superusers, 404 for an unknown
     * id, otherwise that ad's `activa` is flipped and its new value returned.
     */
    method ToggleActiva(user: User, pk: int) returns (status: int, activa: bool)
      requires Valid()
      modifies this
      ensures Valid()
      ensures status == 403 <==> !StaffOrSuperuser(user)
      ensures status == 404 <==> StaffOrSuperuser(user) && forall p :: p in old(ads) ==> p.id != pk
      ensures status != 200 ==> ads == old(ads)
      ensures status == 403 || status == 404 || status == 200
      ensures status == 200 ==>
        exists k :: 0 <= k < |old(ads)| && old(ads)[k].id == pk &&
          ads == Flipped(old(ads), k) && activa == !old(ads)[k].activa
      ensures status == 200 ==>
        |ads| == |old(ads)| && forall i :: 0 <= i < |ads| ==>
          ads[i].id == old(ads)[i].id && (ads[i].id != pk ==> ads[i] == old(ads)[i])
    {
      if !StaffOrSuperuser(user) {
        return 403, false;
      }
      var k := IndexOfId(ads, pk);
      if k == |ads| {
        assert forall p :: p in ads ==> p.id != pk by {
          forall p | p in ads ensures p.id != pk {
            var i :| 0 <= i < |ads| && ads[i] == p;
          }
        }
        return 404, false;
      }
      assert ads[k] in ads;
      ads := Flipped(ads, k);
      return 200, ads[k].activa;
    }
  }
}
