/**
 * The property views: the public listing, the authenticated listing, and the
 * deactivate / reactivate endpoints, which look the property up (owner, or staff
 * and superusers for any property) and update its baja fields in place.
 */
module PropiedadesViews {
  import opened Wrappers
  import opened Seqs
  import opened Calendar
  import opened Accounts
  import opened PropiedadesModel
  import opened PropiedadesSerializers

  /** `PropiedadesPublicList.get_queryset`: published and active properties, in table order. */
  function PublicList(props: seq<Propiedad>): (r: seq<Propiedad>)
    reads set p | p in props
    ensures |r| <= |props|
    ensures forall k :: 0 <= k < |r| ==> r[k] in props && r[k].EstaDisponible()
    ensures forall p :: p in props && p.status && p.estadoBaja == Activa ==> p in r
    ensures Subsequence(r, props)
  {
    if props == [] then []
    else
      var last := props[|props| - 1];
      var rest := PublicList(props[..|props| - 1]);
      if last.status && last.estadoBaja == Activa then
        var r := rest + [last];
        assert r[..|r| - 1] == rest && r[|r| - 1] == last;
        r
      else rest
  }

  /** The caller's own properties, in table order. */
  function OwnProps(props: seq<Propiedad>, user: int): (r: seq<Propiedad>)
    reads set p | p in props
    ensures |r| <= |props|
    ensures forall k :: 0 <= k < |r| ==> r[k] in props && r[k].user == user
    ensures forall p :: p in props && p.user == user ==> p in r
    ensures Subsequence(r, props)
  {
    if props == [] then []
    else
      var last := props[|props| - 1];
      var rest := OwnProps(props[..|props| - 1], user);
      if last.user == user then
        var r := rest + [last];
        assert r[..|r| - 1] == rest && r[|r| - 1] == last;
        r
      else rest
  }

  /** `PropiedadesList.get_queryset`: everything for staff and superusers, otherwise the caller's own. */
  function ListFor(props: seq<Propiedad>, user: User): (r: seq<Propiedad>)
    reads set p | p in props
    ensures StaffOrSuperuser(user) ==> r == props
    ensures !StaffOrSuperuser(user) ==> forall k :: 0 <= k < |r| ==> r[k] in props && r[k].user == user.id
    ensures forall p :: p in props && (StaffOrSuperuser(user) || p.user == user.id) ==> p in r
  {
    if StaffOrSuperuser(user) then props else OwnProps(props, user.id)
  }

  predicate MayAct(p: Propiedad, user: User)
    reads p
  {
    StaffOrSuperuser(user) || p.user == user.id
  }

  /**
   * `Propiedades.objects.get(pk=pk)` for staff and superusers, `get(pk=pk, user=user)`
   * for anyone else; `None` is the `DoesNotExist` branch.
   */
  function Lookup(props: seq<Propiedad>, pk: int, user: User): (r: Option<Propiedad>)
    reads set p | p in props
    ensures r.Some? ==> r.value in props && r.value.id == pk && MayAct(r.value, user)
    ensures r.None? ==> forall p :: p in props && p.id == pk ==> !MayAct(p, user)
  {
    if props == [] then None
    else if props[0].id == pk && MayAct(props[0], user) then Some(props[0])
    else Lookup(props[1..], pk, user)
  }

  /** The new `estado_baja` of a deactivation: `temporal` gives `baja_temporal`, the other choice `baja_indefinida`. */
  function EstadoFor(b: Baja): (e: EstadoBaja)
    ensures e != Activa
    ensures e == BajaTemporal <==> b.temporal
  {
    if b.temporal then BajaTemporal else BajaIndefinida
  }

  /** Writes the four deactivation columns and nothing else. */
  method WriteBaja(p: Propiedad, estado: EstadoBaja, inicio: Option<Date>, fin: Option<Date>, motivo: string)
    modifies p
    ensures p.Datos() == old(p.Datos())
    ensures p.estadoBaja == estado && p.fechaBajaInicio == inicio && p.fechaBajaFin == fin && p.motivoBaja == motivo
  {
    p.estadoBaja := estado;
    p.fechaBajaInicio := inicio;
    p.fechaBajaFin := fin;
    p.motivoBaja := motivo;
  }

  /** The assignments of `dar_baja_propiedad` on the object. */
  method ApplyBaja(p: Propiedad, b: Baja, today: Date)
    modifies p
    ensures p.estadoBaja == EstadoFor(b) && !p.EstaDisponible()
    ensures p.fechaBajaInicio == Some(today) && p.fechaBajaFin == b.fechaFin && p.motivoBaja == b.motivo.GetOr("")
    ensures p.Datos() == old(p.Datos())
  {
    WriteBaja(p, EstadoFor(b), Some(today), b.fechaFin, b.motivo.GetOr(""));
  }

  /** The assignments of `reactivar_propiedad` on the object. */
  method ApplyReactivar(p: Propiedad)
    modifies p
    ensures p.estadoBaja == Activa && p.fechaBajaInicio.None? && p.fechaBajaFin.None? && p.motivoBaja == ""
    ensures p.EstaDisponible() <==> p.status
    ensures p.Datos() == old(p.Datos())
  {
    WriteBaja(p, Activa, None, None, "");
  }

  /**
   * `dar_baja_propiedad`: 404 when the lookup fails, 400 when the payload does not
   * validate (nothing changes in either case), otherwise 200 after the update.
   */
  method DarBajaPropiedad(props: seq<Propiedad>, pk: int, user: User, input: BajaInput, today: Date)
    returns (status: int)
    modifies set p | p in props
    ensures old(Lookup(props, pk, user)).None? ==> status == 404
    ensures old(Lookup(props, pk, user)).Some? && ValidateBaja(input).None? ==> status == 400
    ensures status != 200 ==> forall q :: q in props ==> unchanged(q)
    ensures status == 200 ==>
              var t := old(Lookup(props, pk, user)).value;
              ValidateBaja(input).Some? && t.estadoBaja == EstadoFor(ValidateBaja(input).value)
              && !t.EstaDisponible() && t.fechaBajaInicio == Some(today)
              && t.fechaBajaFin == ValidateBaja(input).value.fechaFin
              && t.motivoBaja == ValidateBaja(input).value.motivo.GetOr("")
              && t.Datos() == old(t.Datos())
              && forall q :: q in props && q != t ==> unchanged(q)
    ensures old(Lookup(props, pk, user)).Some? && ValidateBaja(input).Some? ==> status == 200
  {
    var target := Lookup(props, pk, user);
    if target.None? {
      return 404;
    }
    var baja := ValidateBaja(input);
    if baja.None? {
      return 400;
    }
    ApplyBaja(target.value, baja.value, today);
    status := 200;
  }

  /** `reactivar_propiedad`: 404 when the lookup fails, otherwise 200 with the baja fields cleared. */
  method ReactivarPropiedad(props: seq<Propiedad>, pk: int, user: User) returns (status: int)
    modifies set p | p in props
    ensures old(Lookup(props, pk, user)).None? ==> status == 404 && forall q :: q in props ==> unchanged(q)
    ensures old(Lookup(props, pk, user)).Some? ==>
              var t := old(Lookup(props, pk, user)).value;
              status == 200 && t.estadoBaja == Activa && t.fechaBajaInicio.None? && t.fechaBajaFin.None?
              && t.motivoBaja == "" && (t.EstaDisponible() <==> t.status) && t.Datos() == old(t.Datos())
              && forall q :: q in props && q != t ==> unchanged(q)
  {
    var target := Lookup(props, pk, user);
    if target.None? {
      return 404;
    }
    ApplyReactivar(target.value);
    status := 200;
  }
}
