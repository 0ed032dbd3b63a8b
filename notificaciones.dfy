/**
 * The notification endpoints: who sees which notifications, the unread list,
 * marking every unread notification of the requester as read, and marking one
 * notification read or unread.
 */
module Notificaciones {
  import opened Wrappers
  import opened Json
  import opened DrfFields
  import opened Sorting
  import opened Accounts

  /** A notification row; `creadoEn` is its creation instant as a number that orders instants. */
  datatype Notificacion = Notificacion(id: int, usuario: int, titulo: string, tipo: string, leida: bool, creadoEn: int)

  function CreadoEn(n: Notificacion): int {
    n.creadoEn
  }

  /** The notifications addressed to `user`, in table order. */
  function Own(s: seq<Notificacion>, user: int): (r: seq<Notificacion>)
    ensures forall n :: n in r <==> n in s && n.usuario == user
  {
    if s == [] then []
    else
      var last := s[|s| - 1];
      assert forall n :: n in s <==> n in s[..|s| - 1] || n == last;
      Own(s[..|s| - 1], user) + (if last.usuario == user then [last] else [])
  }

  /** `filter(usuario=user, leida=False)`, in table order. */
  function Unread(s: seq<Notificacion>, user: int): (r: seq<Notificacion>)
    ensures forall n :: n in r <==> n in s && n.usuario == user && !n.leida
  {
    if s == [] then []
    else
      var last := s[|s| - 1];
      assert forall n :: n in s <==> n in s[..|s| - 1] || n == last;
      Unread(s[..|s| - 1], user) + (if last.usuario == user && !last.leida then [last] else [])
  }

  /** One row after `filter(usuario=user, leida=False).update(leida=True)`. */
  function Mark(n: Notificacion, user: int): Notificacion {
    if n.usuario == user && !n.leida then n.(leida := true) else n
  }

  /** The whole table after the bulk update. */
  function MarkedAll(s: seq<Notificacion>, user: int): (r: seq<Notificacion>)
    ensures |r| == |s|
    ensures forall k :: 0 <= k < |s| ==> r[k] == Mark(s[k], user)
  {
    if s == [] then [] else MarkedAll(s[..|s| - 1], user) + [Mark(s[|s| - 1], user)]
  }

  /**
   * After the bulk update the requester has no unread notification left, every
   * other user's rows are as they were, and only `leida` changed in the requester's rows.
   */
  lemma MarkedAllClears(s: seq<Notificacion>, user: int)
    ensures Unread(MarkedAll(s, user), user) == []
    ensures forall k :: 0 <= k < |s| && s[k].usuario != user ==> MarkedAll(s, user)[k] == s[k]
    ensures forall k :: 0 <= k < |s| && s[k].usuario == user ==> MarkedAll(s, user)[k] == s[k].(leida := true)
  {
  }

  /** The body of `MarcarLeida`: an object whose `leida` is a `BooleanField(default=True)`. */
  function LeidaPayload(data: Json): (r: Option<bool>)
    ensures data.JObj? && !Has(data.members, "leida") ==> r == Some(true)
    ensures r.Some? <==> data.JObj? && (!Has(data.members, "leida") || BooleanField(Get(data.members, "leida").value).Some?)
    ensures r.Some? && data.JObj? && Has(data.members, "leida") ==> r == BooleanField(Get(data.members, "leida").value)
  {
    match data
    case JObj(members) =>
      (match Get(members, "leida")
       case None => Some(true)
       case Some(v) => BooleanField(v))
    case _ => None
  }

  /**
   * The row `MarcarLeida` may act on: its id is `pk`, and it belongs to the requester
   * or to any account that is staff or superuser (`privileged` holds those accounts' ids).
   */
  predicate Reachable(n: Notificacion, pk: int, user: int, privileged: set<int>) {
    n.id == pk && (n.usuario == user || n.usuario in privileged)
  }

  function FindReachable(s: seq<Notificacion>, pk: int, user: int, privileged: set<int>): (k: nat)
    ensures k <= |s|
    ensures forall i :: 0 <= i < k ==> !Reachable(s[i], pk, user, privileged)
    ensures k < |s| ==> Reachable(s[k], pk, user, privileged)
  {
    if s == [] then 0
    else if Reachable(s[0], pk, user, privileged) then 0
    else 1 + FindReachable(s[1..], pk, user, privileged)
  }

  class NotificationTable {
    var rows: seq<Notificacion>

    /** The primary key: no two notifications share an id. */
    ghost predicate Valid()
      reads this
    {
      forall i, j :: 0 <= i < j < |rows| ==> rows[i].id != rows[j].id
    }

    constructor()
      ensures rows == [] && Valid()
    {
      rows := [];
    }

    /** `NotificacionList.get_queryset`: staff and superusers see every notification, others their own; newest first. */
    function Listar(user: User): (r: seq<Notificacion>)
      reads this
      ensures SortedDesc(r, CreadoEn)
      ensures forall n :: n in r <==> n in rows && (StaffOrSuperuser(user) || n.usuario == user.id)
      ensures StaffOrSuperuser(user) ==> |r| == |rows|
    {
      var r := SortDesc(if StaffOrSuperuser(user) then rows else Own(rows, user.id), CreadoEn);
      assert forall n :: n in r <==> n in multiset(r);
      r
    }

    /** `NotificacionesNoLeidas`: the requester's unread notifications, newest first. */
    function NoLeidas(user: User): (r: seq<Notificacion>)
      reads this
      ensures SortedDesc(r, CreadoEn)
      ensures forall n :: n in r <==> n in rows && n.usuario == user.id && !n.leida
    {
      var r := SortDesc(Unread(rows, user.id), CreadoEn);
      assert forall n :: n in r <==> n in multiset(r);
      r
    }

    /**
     * `MarcarTodasLeidas.post`: every unread notification of the requester becomes
     * read, and the answer is how many there were.
     */
    method MarcarTodasLeidas(user: User) returns (count: nat)
      requires Valid()
      modifies this
      ensures Valid()
      ensures rows == MarkedAll(old(rows), user.id)
      ensures count == |Unread(old(rows), user.id)|
      ensures Unread(rows, user.id) == []
    {
      var out: seq<Notificacion> := [];
      count := 0;
      var k := 0;
      while k < |rows|
        invariant 0 <= k <= |rows|
        invariant out == MarkedAll(rows[..k], user.id)
        invariant count == |Unread(rows[..k], user.id)|
      {
        var n := rows[k];
        assert rows[..k + 1][..k] == rows[..k];
        if n.usuario == user.id && !n.leida {
          count := count + 1;
        }
        out := out + [Mark(n, user.id)];
        k := k + 1;
      }
      assert rows[..|rows|] == rows;
      MarkedAllClears(rows, user.id);
      rows := out;
    }

    /**
     * `MarcarLeida.post`: 404 when no reachable notification has that id, 400 when the
     * payload is invalid, otherwise `leida` of that one row takes the payload's value.
     */
    method MarcarLeida(user: User, pk: int, data: Json, privileged: set<int>) returns (status: int)
      requires Valid()
      modifies this
      ensures Valid()
      ensures status == 404 <==> forall n :: n in old(rows) ==> !Reachable(n, pk, user.id, privileged)
      ensures status == 400 <==> status != 404 && LeidaPayload(data).None?
      ensures status == 200 <==> status != 404 && LeidaPayload(data).Some?
      ensures status != 200 ==> rows == old(rows)
      ensures status == 200 ==>
        exists k :: 0 <= k < |old(rows)| && Reachable(old(rows)[k], pk, user.id, privileged) &&
          rows == old(rows)[k := old(rows)[k].(leida := LeidaPayload(data).value)]
      ensures status == 200 ==>
        |rows| == |old(rows)| && forall i :: 0 <= i < |rows| ==>
          rows[i].id == old(rows)[i].id && (rows[i].id != pk ==> rows[i] == old(rows)[i])
    {
      var k := FindReachable(rows, pk, user.id, privileged);
      if k == |rows| {
        assert forall n :: n in rows ==> !Reachable(n, pk, user.id, privileged) by {
          forall n | n in rows ensures !Reachable(n, pk, user.id, privileged) {
            var i :| 0 <= i < |rows| && rows[i] == n;
          }
        }
        return 404;
      }
      assert rows[k] in rows;
      match LeidaPayload(data)
      case None =>
        return 400;
      case Some(v) =>
        rows := rows[k := rows[k].(leida := v)];
        return 200;
    }
  }
}
