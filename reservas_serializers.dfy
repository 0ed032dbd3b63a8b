/**
 * The booking serializers: the derived `total_noches` and `esta_activa` fields,
 * `validate` (the same rules as the model's `clean`, first failure only), and the
 * amount computed by `create` and recomputed by `update`.
 */
module ReservasSerializers {
  import opened Wrappers
  import opened Calendar
  import opened ReservasModel

  /** `get_total_noches`: the days between the two dates, 0 when one is missing. */
  function TotalNoches(checkin: Option<Date>, checkout: Option<Date>): (n: int)
    requires checkin.Some? ==> ValidDate(checkin.value)
    requires checkout.Some? ==> ValidDate(checkout.value)
    ensures checkin.None? || checkout.None? ==> n == 0
    ensures checkin.Some? && checkout.Some? ==>
      (n > 0 <==> Before(checkin.value, checkout.value))
      && DayNumber(checkin.value) + n == DayNumber(checkout.value)
  {
    if checkin.Some? && checkout.Some? then
      DayNumberOrder(checkin.value, checkout.value);
      DaysBetween(checkin.value, checkout.value)
    else 0
  }

  /** `get_esta_activa`. */
  predicate EstaActiva(s: Status) {
    s == Pendiente || s == Aceptada || s == Confirmada
  }

  /** Every active booking blocks its dates, but a completed one blocks them without being active. */
  lemma ActiveAndBlocking(s: Status)
    ensures EstaActiva(s) ==> Blocking(s)
    ensures Blocking(s) && !EstaActiva(s) <==> s == Completada
  {
  }

  /**
   * `validate`: the rules are checked only when both dates were sent; the first
   * failing one is reported (checkout order, past check-in, then overlap under key `fechas`).
   */
  function Validate(checkin: Option<Date>, checkout: Option<Date>, propiedad: Option<int>,
                    instance: Option<int>, today: Date, rows: seq<Booking>): (r: Option<ErrorKey>)
    ensures checkin.None? || checkout.None? ==> r.None?
    ensures r.Some? ==> r.value != AllKey
    ensures r == Some(FechasKey) ==>
      (propiedad.Some? && HasConflict(rows, propiedad.value, checkin.value, checkout.value, instance))
    ensures checkin.Some? && checkout.Some? ==>
      (r.None? <==>
        (Before(checkin.value, checkout.value) && !Before(checkin.value, today)
         && (propiedad.None? || !HasConflict(rows, propiedad.value, checkin.value, checkout.value, instance))))
  {
    if checkin.Some? && checkout.Some? then
      var ci, co := checkin.value, checkout.value;
      if !Before(ci, co) then Some(FechaCheckoutKey)
      else if Before(ci, today) then Some(FechaCheckinKey)
      else if propiedad.Some? && HasConflict(rows, propiedad.value, ci, co, instance) then Some(FechasKey)
      else None
    else None
  }

  /**
   * The serializer and the model accept exactly the same bookings, and the
   * serializer's error is one the model reports too (`fechas` standing for `__all__`).
   */
  lemma ValidateAgreesWithClean(b: Booking, self: Option<int>, today: Date, rows: seq<Booking>)
    ensures var r := Validate(Some(b.checkin), Some(b.checkout), Some(b.propiedad), self, today, rows);
      var errs := CleanErrors(b, self, today, rows);
      (r.None? <==> errs == {})
      && (r.Some? ==> (if r.value == FechasKey then AllKey else r.value) in errs)
  {
  }

  /** The amount `create` stores: nights times the nightly price, plus every service price. */
  function CreateAmount(cantNoches: int, precioNoche: real, servicios: seq<Service>): (amount: real)
    ensures cantNoches >= 0 && precioNoche >= 0.0 && (forall k :: 0 <= k < |servicios| ==> servicios[k].precio >= 0.0)
      ==> amount >= 0.0
  {
    NonNegativeSum(servicios);
    cantNoches as real * precioNoche + SumPrices(servicios)
  }

  lemma {:induction false} NonNegativeSum(s: seq<Service>)
    ensures (forall k :: 0 <= k < |s| ==> s[k].precio >= 0.0) ==> SumPrices(s) >= 0.0
  {
    if s != [] {
      NonNegativeSum(s[..|s| - 1]);
    }
  }

  /** The writable fields of a new booking; `monto_total` is read-only, so a client cannot send it. */
  datatype NewBooking = NewBooking(
    propiedad: int,
    checkin: Date,
    checkout: Date,
    status: Option<Status>,
    pago: Option<PaymentStatus>,
    cantNoches: nat,
    cantHuesp: nat,
    descuento: Option<real>,
    servicios: seq<Service>)

  /**
   * A create request: `validate` (400 on failure), then `create` computes the
   * amount and saves with the requesting user (201).
   */
  method Create(table: BookingTable, user: int, input: NewBooking, precioNoche: real, now: int, today: Date)
    returns (status: int, saved: Booking)
    requires table.Valid() && ValidDate(input.checkin) && ValidDate(input.checkout)
    modifies table
    ensures table.Valid()
    ensures status == 201 || status == 400
    ensures status == 400 <==>
      Validate(Some(input.checkin), Some(input.checkout), Some(input.propiedad), None, today, old(table.rows)).Some?
    ensures status == 400 ==> table.rows == old(table.rows) && table.notices == old(table.notices)
    ensures status == 201 ==>
      table.rows == old(table.rows) + [saved]
      && table.notices == old(table.notices) + [NuevaReserva(saved.id)]
      && saved.id == old(table.nextId) && saved.user == user && saved.propiedad == input.propiedad
      && saved.checkin == input.checkin && saved.checkout == input.checkout
      && saved.status == input.status.GetOr(DefaultStatus) && saved.pago == input.pago.GetOr(DefaultPayment)
      && saved.montoTotal == CreateAmount(input.cantNoches, precioNoche, input.servicios)
      && saved.servicios == input.servicios
    ensures NoDoubleBooking(old(table.rows)) ==> NoDoubleBooking(table.rows)
  {
    saved := Booking(0, input.propiedad, user, input.checkin, input.checkout,
                     input.status.GetOr(DefaultStatus), input.pago.GetOr(DefaultPayment),
                     CreateAmount(input.cantNoches, precioNoche, input.servicios),
                     input.descuento.GetOr(0.0), input.cantNoches, input.cantHuesp, input.servicios, now);
    if Validate(Some(input.checkin), Some(input.checkout), Some(input.propiedad), None, today, table.rows).Some? {
      status := 400;
      return;
    }
    ValidateAgreesWithClean(saved.(id := table.nextId), None, today, table.rows);
    var errs;
    errs, saved := table.Save(saved, true, today);
    status := 201;
  }

  /** The writable fields an update may send; absent ones keep their stored value. */
  datatype Patch = Patch(
    checkin: Option<Date>,
    checkout: Option<Date>,
    propiedad: Option<int>,
    status: Option<Status>,
    pago: Option<PaymentStatus>,
    cantNoches: Option<nat>,
    cantHuesp: Option<nat>,
    descuento: Option<real>)

  predicate PatchWellFormed(p: Patch) {
    (p.checkin.Some? ==> ValidDate(p.checkin.value)) && (p.checkout.Some? ==> ValidDate(p.checkout.value))
  }

  /** `ModelSerializer.update`: each sent field overwrites the stored one. */
  function ApplyPatch(b: Booking, p: Patch): (r: Booking)
    ensures r.id == b.id && r.user == b.user && r.montoTotal == b.montoTotal
    ensures r.servicios == b.servicios && r.creadoEn == b.creadoEn
    ensures p == Patch(None, None, None, None, None, None, None, None) ==> r == b
  {
    b.(checkin := p.checkin.GetOr(b.checkin), checkout := p.checkout.GetOr(b.checkout),
       propiedad := p.propiedad.GetOr(b.propiedad), status := p.status.GetOr(b.status),
       pago := p.pago.GetOr(b.pago), cantNoches := p.cantNoches.GetOr(b.cantNoches),
       cantHuesp := p.cantHuesp.GetOr(b.cantHuesp), descuento := p.descuento.GetOr(b.descuento))
  }

  /** The overlap query excludes the booking's own row, so what that row holds does not matter. */
  lemma ConflictIgnoresOwnRow(rows: seq<Booking>, k: nat, x: Booking, propiedad: int, ci: Date, co: Date)
    requires k < |rows| && x.id == rows[k].id
    ensures HasConflict(rows[k := x], propiedad, ci, co, Some(x.id)) == HasConflict(rows, propiedad, ci, co, Some(x.id))
  {
    var r := rows[k := x];
    if HasConflict(r, propiedad, ci, co, Some(x.id)) {
      var i :| 0 <= i < |r| && Conflict(r[i], propiedad, ci, co, Some(x.id));
      assert i != k && Conflict(rows[i], propiedad, ci, co, Some(x.id));
    }
    if HasConflict(rows, propiedad, ci, co, Some(x.id)) {
      var i :| 0 <= i < |rows| && Conflict(rows[i], propiedad, ci, co, Some(x.id));
      assert i != k && Conflict(r[i], propiedad, ci, co, Some(x.id));
    }
  }

  /** The row an accepted update leaves behind. */
  function UpdatedBooking(before: Booking, patch: Patch, servicios: Option<seq<Service>>): (r: Booking)
    ensures servicios.None? ==> r.montoTotal == before.montoTotal && r.servicios == before.servicios
    ensures servicios.Some? ==>
      r.montoTotal == before.montoTotal + SumPrices(servicios.value) && r.servicios == servicios.value
  {
    var merged := ApplyPatch(before, patch);
    if servicios.None? then merged
    else merged.(servicios := servicios.value, montoTotal := before.montoTotal + SumPrices(servicios.value))
  }

  /** Repeated updates that send services keep adding their prices to the amount. */
  lemma UpdatesAccumulate(b: Booking, p1: Patch, s1: seq<Service>, p2: Patch, s2: seq<Service>)
    ensures UpdatedBooking(UpdatedBooking(b, p1, Some(s1)), p2, Some(s2)).montoTotal
         == b.montoTotal + SumPrices(s1) + SumPrices(s2)
  {
  }

  /**
   * An update request on the stored booking `id`: `validate` on the sent fields
   * (400), then the model save of the merged booking, whose `clean` failure is not a
   * DRF error (500). When `servicios` is sent the services are replaced and
   * `monto_total` becomes `calcular_total()`, i.e. the stored amount plus the new
   * services, and the booking is saved again.
   */
  method Update(table: BookingTable, id: int, patch: Patch, servicios: Option<seq<Service>>, today: Date)
    returns (status: int)
    requires table.Valid() && PatchWellFormed(patch) && IndexOfId(table.rows, id).Some?
    modifies table
    ensures table.Valid()
    ensures status == 400 || status == 500 || status == 200
    ensures status == 400 <==>
      Validate(patch.checkin, patch.checkout, patch.propiedad, Some(id), today, old(table.rows)).Some?
    ensures status == 500 <==> status != 400 && CleanErrors(
      ApplyPatch(old(table.rows)[IndexOfId(old(table.rows), id).value], patch), Some(id), today, old(table.rows)) != {}
    ensures status != 200 ==> table.rows == old(table.rows) && table.notices == old(table.notices)
    ensures status == 200 ==>
      var k := IndexOfId(old(table.rows), id).value;
      table.rows == old(table.rows)[k := UpdatedBooking(old(table.rows)[k], patch, servicios)]
      && table.notices == old(table.notices)
         + SaveNotices(false, Some(old(table.rows)[k]), ApplyPatch(old(table.rows)[k], patch))
    ensures NoDoubleBooking(old(table.rows)) ==> NoDoubleBooking(table.rows)
  {
    var k := IndexOfId(table.rows, id).value;
    var before := table.rows[k];
    if Validate(patch.checkin, patch.checkout, patch.propiedad, Some(id), today, table.rows).Some? {
      status := 400;
      return;
    }
    status := SaveUpdate(table, k, patch, servicios, today);
  }

  /** The part of `update` after validation: the first save, then the services and the second save. */
  method SaveUpdate(table: BookingTable, k: nat, patch: Patch, servicios: Option<seq<Service>>, today: Date)
    returns (status: int)
    requires table.Valid() && PatchWellFormed(patch) && k < |table.rows|
    modifies table
    ensures table.Valid()
    ensures status == 500 || status == 200
    ensures status == 500 <==>
      CleanErrors(ApplyPatch(old(table.rows)[k], patch), Some(old(table.rows)[k].id), today, old(table.rows)) != {}
    ensures status == 500 ==> table.rows == old(table.rows) && table.notices == old(table.notices)
    ensures status == 200 ==>
      table.rows == old(table.rows)[k := UpdatedBooking(old(table.rows)[k], patch, servicios)]
      && table.notices == old(table.notices)
         + SaveNotices(false, Some(old(table.rows)[k]), ApplyPatch(old(table.rows)[k], patch))
    ensures NoDoubleBooking(old(table.rows)) ==> NoDoubleBooking(table.rows)
  {
    var before := table.rows[k];
    var merged := ApplyPatch(before, patch);
    ghost var updated := UpdatedBooking(before, patch, servicios);
    assert servicios.None? ==> updated == merged;
    assert servicios.Some? ==>
      updated == merged.(servicios := servicios.value, montoTotal := merged.montoTotal + SumPrices(servicios.value));
    var errs, saved := table.Save(merged, false, today);
    if errs != {} {
      status := 500;
      return;
    }
    status := 200;
    assert table.rows == old(table.rows)[k := merged];
    if servicios.Some? {
      SetServicesAndResave(table, k, merged, servicios.value, today);
    }
  }

  /**
   * `reserva.servicios.set(...)`, `monto_total = calcular_total()` and the second
   * save: that save cannot fail, because `clean` ignores the booking's own row and
   * nothing it checks has changed since the first save.
   */
  method SetServicesAndResave(table: BookingTable, k: nat, merged: Booking, servicios: seq<Service>, today: Date)
    requires table.Valid() && k < |table.rows| && table.rows[k] == merged
    requires CleanErrors(merged, Some(merged.id), today, table.rows) == {}
    modifies table
    ensures table.Valid()
    ensures table.rows == old(table.rows)[k := merged.(servicios := servicios, montoTotal := merged.montoTotal + SumPrices(servicios))]
    ensures table.notices == old(table.notices)
    ensures NoDoubleBooking(old(table.rows)) ==> NoDoubleBooking(table.rows)
  {
    var withServices := merged.(servicios := servicios);
    var total := CalcularTotal(withServices);
    var last := withServices.(montoTotal := total);
    ConflictIgnoresOwnRow(table.rows, k, last, last.propiedad, last.checkin, last.checkout);
    assert table.rows[k := last][k := merged] == table.rows;
    IndexOfStoredId(table.rows, k);
    var errs, saved := table.Save(last, false, today);
    QuietSave(merged, last);
  }
}
