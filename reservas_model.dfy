/**
 * The booking model: its status and payment enums, the `clean` rules (date order,
 * no past check-in, no overlap with another live booking of the same property),
 * `save` (clean, persist, then notify) and `calcular_total`.
 */
module ReservasModel {
  import opened Wrappers
  import opened Calendar

  datatype Status = Pendiente | Aceptada | Rechazada | Confirmada | Cancelada | Completada
  datatype PaymentStatus = PagoPendiente | Pagado | Reembolsado | Fallido

  /** The text stored in the `status` column. */
  function StatusCode(s: Status): string {
    match s
    case Pendiente => "pendiente"
    case Aceptada => "aceptada"
    case Rechazada => "rechazada"
    case Confirmada => "confirmada"
    case Cancelada => "cancelada"
    case Completada => "completada"
  }

  /** The text stored in the `pago_estado` column. */
  function PaymentCode(p: PaymentStatus): string {
    match p
    case PagoPendiente => "pendiente"
    case Pagado => "pagado"
    case Reembolsado => "reembolsado"
    case Fallido => "fallido"
  }

  const DefaultStatus: Status := Pendiente
  const DefaultPayment: PaymentStatus := PagoPendiente

  /** Both columns default to the text `pendiente`, and distinct values are stored as distinct texts. */
  lemma DefaultsArePendiente()
    ensures StatusCode(DefaultStatus) == PaymentCode(DefaultPayment) == "pendiente"
    ensures forall s, t :: StatusCode(s) == StatusCode(t) ==> s == t
    ensures forall p, q :: PaymentCode(p) == PaymentCode(q) ==> p == q
  {
  }

  /** A linked `Servicio` with its price. */
  datatype Service = Service(id: int, precio: real)

  datatype Booking = Booking(
    id: int,
    propiedad: int,
    user: int,
    checkin: Date,
    checkout: Date,
    status: Status,
    pago: PaymentStatus,
    montoTotal: real,
    descuento: real,
    cantNoches: nat,
    cantHuesp: nat,
    servicios: seq<Service>,
    creadoEn: int)

  predicate WellFormed(b: Booking) {
    ValidDate(b.checkin) && ValidDate(b.checkout)
  }

  /** Cancelled and rejected bookings never block dates. */
  predicate Blocking(s: Status) {
    s != Cancelada && s != Rechazada
  }

  /** `fecha_checkin__lt=checkout, fecha_checkout__gt=checkin`. */
  predicate Overlaps(b: Booking, checkin: Date, checkout: Date) {
    Before(b.checkin, checkout) && Before(checkin, b.checkout)
  }

  /** Night `x` (a day number) lies in the half-open stay `[checkin, checkout)`. */
  predicate InStay(x: int, checkin: Date, checkout: Date)
    requires ValidDate(checkin) && ValidDate(checkout)
  {
    DayNumber(checkin) <= x < DayNumber(checkout)
  }

  /** The overlap test is exactly "the two half-open stays share a night". */
  lemma OverlapsIffSharedNight(b: Booking, checkin: Date, checkout: Date)
    requires WellFormed(b) && ValidDate(checkin) && ValidDate(checkout)
    requires Before(b.checkin, b.checkout) && Before(checkin, checkout)
    ensures Overlaps(b, checkin, checkout)
        <==> exists x :: InStay(x, b.checkin, b.checkout) && InStay(x, checkin, checkout)
  {
    DayNumberOrder(b.checkin, checkout);
    DayNumberOrder(checkin, b.checkout);
    DayNumberOrder(b.checkin, b.checkout);
    DayNumberOrder(checkin, checkout);
    if Overlaps(b, checkin, checkout) {
      var x := if DayNumber(b.checkin) <= DayNumber(checkin) then DayNumber(checkin) else DayNumber(b.checkin);
      assert InStay(x, b.checkin, b.checkout) && InStay(x, checkin, checkout);
    }
  }

  /** One row returned by the overlap query of `clean` for a booking whose primary key is `self`. */
  predicate Conflict(b: Booking, propiedad: int, checkin: Date, checkout: Date, self: Option<int>) {
    b.propiedad == propiedad && Overlaps(b, checkin, checkout) && Blocking(b.status)
    && (self.None? || b.id != self.value)
  }

  predicate HasConflict(rows: seq<Booking>, propiedad: int, checkin: Date, checkout: Date, self: Option<int>) {
    exists i :: 0 <= i < |rows| && Conflict(rows[i], propiedad, checkin, checkout, self)
  }

  /** The keys of the error dictionary `clean` raises with. */
  datatype ErrorKey = FechaCheckoutKey | FechaCheckinKey | AllKey | FechasKey

  /**
   * `clean`: every failed rule adds its key and all of them are reported together;
   * `self` is the primary key (`None` for a booking not yet saved).
   */
  function CleanErrors(b: Booking, self: Option<int>, today: Date, rows: seq<Booking>): (errs: set<ErrorKey>)
    ensures FechaCheckoutKey in errs <==> !Before(b.checkin, b.checkout)
    ensures FechaCheckinKey in errs <==> Before(b.checkin, today)
    ensures AllKey in errs <==> HasConflict(rows, b.propiedad, b.checkin, b.checkout, self)
    ensures FechasKey !in errs
  {
    (if !Before(b.checkin, b.checkout) then {FechaCheckoutKey} else {})
    + (if Before(b.checkin, today) then {FechaCheckinKey} else {})
    + (if HasConflict(rows, b.propiedad, b.checkin, b.checkout, self) then {AllKey} else {})
  }

  /** A live table never holds two blocking bookings of one property that share a night. */
  predicate NoDoubleBooking(rows: seq<Booking>) {
    forall i, j :: 0 <= i < |rows| && 0 <= j < |rows| && i != j
      && rows[i].propiedad == rows[j].propiedad
      && Blocking(rows[i].status) && Blocking(rows[j].status)
      ==> !Overlaps(rows[i], rows[j].checkin, rows[j].checkout)
  }

  predicate UniqueIds(rows: seq<Booking>) {
    forall i, j :: 0 <= i < j < |rows| ==> rows[i].id != rows[j].id
  }

  function IndexOfId(rows: seq<Booking>, id: int): (k: Option<nat>)
    ensures k.Some? ==> k.value < |rows| && rows[k.value].id == id
    ensures k.None? ==> forall i :: 0 <= i < |rows| ==> rows[i].id != id
  {
    if rows == [] then None
    else if rows[|rows| - 1].id == id then Some(|rows| - 1)
    else IndexOfId(rows[..|rows| - 1], id)
  }

  lemma IndexOfStoredId(rows: seq<Booking>, k: nat)
    requires UniqueIds(rows) && k < |rows|
    ensures IndexOfId(rows, rows[k].id) == Some(k)
  {
    var j := IndexOfId(rows, rows[k].id).value;
    assert rows[j].id == rows[k].id;
  }

  /** The notifier chosen after a save. */
  datatype Notice =
    | NuevaReserva(reserva: int)
    | ReservaConfirmada(reserva: int)
    | ReservaAceptada(reserva: int)
    | ReservaCancelada(reserva: int, porAnfitrion: bool)
    | ReservaRechazada(reserva: int)
    | ReservaCompletada(reserva: int)
    | PagoRecibido(reserva: int)
    | PagoFallido(reserva: int)

  /**
   * `notificar_cambio_estado`: the if-elif chain tests the new status first, so
   * at most one branch applies; each also requires the old status to differ.
   */
  function StatusNotice(id: int, prev: Status, cur: Status): (n: Option<Notice>)
    ensures n.None? <==> (prev == cur || cur == Pendiente)
    ensures n == Some(ReservaCancelada(id, true)) <==> (cur == Cancelada && prev != Cancelada)
    ensures n == Some(ReservaConfirmada(id)) <==> (cur == Confirmada && prev != Confirmada)
  {
    match cur
    case Confirmada => if prev != Confirmada then Some(ReservaConfirmada(id)) else None
    case Aceptada => if prev != Aceptada then Some(ReservaAceptada(id)) else None
    case Cancelada => if prev != Cancelada then Some(ReservaCancelada(id, true)) else None
    case Rechazada => if prev != Rechazada then Some(ReservaRechazada(id)) else None
    case Completada => if prev != Completada then Some(ReservaCompletada(id)) else None
    case Pendiente => None
  }

  /** `notificar_cambio_pago`. */
  function PaymentNotice(id: int, prev: PaymentStatus, cur: PaymentStatus): (n: Option<Notice>)
    ensures n == Some(PagoRecibido(id)) <==> (cur == Pagado && prev != Pagado)
    ensures n == Some(PagoFallido(id)) <==> (cur == Fallido && prev != Fallido)
    ensures n.None? <==> (cur == prev || cur == PagoPendiente || cur == Reembolsado)
  {
    match cur
    case Pagado => if prev != Pagado then Some(PagoRecibido(id)) else None
    case Fallido => if prev != Fallido then Some(PagoFallido(id)) else None
    case PagoPendiente => None
    case Reembolsado => None
  }

  function OptionToSeq<T>(o: Option<T>): seq<T> {
    if o.Some? then [o.value] else []
  }

  /**
   * The notifiers `save` runs after persisting: the creation notifier for a new
   * booking; otherwise the status notifier only when the status changed, then the
   * payment notifier only when the payment status changed.
   */
  function SaveNotices(adding: bool, prev: Option<Booking>, b: Booking): (ns: seq<Notice>)
    ensures adding ==> ns == [NuevaReserva(b.id)]
    ensures !adding ==> forall k :: 0 <= k < |ns| ==> !ns[k].NuevaReserva?
    ensures |ns| <= 2
  {
    if adding then [NuevaReserva(b.id)]
    else if prev.None? then []
    else
      (if prev.value.status != b.status then OptionToSeq(StatusNotice(b.id, prev.value.status, b.status)) else [])
      + (if prev.value.pago != b.pago then OptionToSeq(PaymentNotice(b.id, prev.value.pago, b.pago)) else [])
  }

  /** A status change notifies exactly once, except a change back to `pendiente`, which notifies nothing. */
  lemma StatusChangeNotifiesOnce(prev: Booking, b: Booking)
    requires prev.status != b.status && prev.pago == b.pago
    ensures |SaveNotices(false, Some(prev), b)| == if b.status == Pendiente then 0 else 1
  {
  }

  /** Saving without changing status or payment notifies nothing. */
  lemma QuietSave(prev: Booking, b: Booking)
    requires prev.status == b.status && prev.pago == b.pago
    ensures SaveNotices(false, Some(prev), b) == []
  {
  }

  function SumPrices(s: seq<Service>): real {
    if s == [] then 0.0 else SumPrices(s[..|s| - 1]) + s[|s| - 1].precio
  }

  /** `calcular_total`: the stored amount plus the price of every linked service. */
  method CalcularTotal(b: Booking) returns (total: real)
    ensures total == b.montoTotal + SumPrices(b.servicios)
  {
    total := b.montoTotal;
    var i := 0;
    while i < |b.servicios|
      invariant 0 <= i <= |b.servicios|
      invariant total == b.montoTotal + SumPrices(b.servicios[..i])
    {
      assert b.servicios[..i + 1][..i] == b.servicios[..i];
      total := total + b.servicios[i].precio;
      i := i + 1;
    }
    assert b.servicios[..i] == b.servicios;
  }

  /** The `reservas` table with the notifications sent so far and the next primary key. */
  class BookingTable {
    var rows: seq<Booking>
    var notices: seq<Notice>
    var nextId: int

    ghost predicate Valid()
      reads this
    {
      nextId >= 1
      && (forall i :: 0 <= i < |rows| ==> 1 <= rows[i].id < nextId && WellFormed(rows[i]))
      && UniqueIds(rows)
    }

    constructor ()
      ensures Valid() && rows == [] && notices == [] && nextId == 1
    {
      rows := [];
      notices := [];
      nextId := 1;
    }

    /**
     * `Reservas.save`: read the stored status and payment, run `clean`, persist,
     * then choose the notifiers. A new booking (`adding`) receives the next
     * primary key; an existing one replaces its row. A rejected save changes nothing.
     */
    method Save(b: Booking, adding: bool, today: Date) returns (errs: set<ErrorKey>, saved: Booking)
      requires Valid() && WellFormed(b)
      requires !adding ==> IndexOfId(rows, b.id).Some?
      modifies this
      ensures Valid()
      ensures saved == if adding then b.(id := old(nextId)) else b
      ensures errs == CleanErrors(saved, if adding then None else Some(b.id), today, old(rows))
      ensures errs != {} ==> rows == old(rows) && notices == old(notices) && nextId == old(nextId)
      ensures errs == {} && adding ==>
        rows == old(rows) + [saved] && nextId == old(nextId) + 1
        && notices == old(notices) + [NuevaReserva(saved.id)]
      ensures errs == {} && !adding ==>
        var k := IndexOfId(old(rows), b.id).value;
        rows == old(rows)[k := b] && nextId == old(nextId)
        && notices == old(notices) + SaveNotices(false, Some(old(rows)[k]), b)
      ensures NoDoubleBooking(old(rows)) ==> NoDoubleBooking(rows)
    {
      saved := if adding then b.(id := nextId) else b;
      var self := if adding then None else Some(b.id);
      errs := CleanErrors(saved, self, today, rows);
      if errs != {} {
        return;
      }
      if adding {
        if NoDoubleBooking(rows) {
          NoDoubleBookingAppend(rows, saved);
        }
        rows := rows + [saved];
        nextId := nextId + 1;
        notices := notices + [NuevaReserva(saved.id)];
      } else {
        var k := IndexOfId(rows, b.id).value;
        var prev := rows[k];
        if NoDoubleBooking(rows) {
          NoDoubleBookingReplace(rows, k, b);
        }
        rows := rows[k := b];
        notices := notices + SaveNotices(false, Some(prev), b);
      }
    }
  }

  lemma NoDoubleBookingAppend(rows: seq<Booking>, b: Booking)
    requires NoDoubleBooking(rows)
    requires !HasConflict(rows, b.propiedad, b.checkin, b.checkout, None)
    ensures NoDoubleBooking(rows + [b])
  {
    var r := rows + [b];
    forall i, j | 0 <= i < |r| && 0 <= j < |r| && i != j
      && r[i].propiedad == r[j].propiedad && Blocking(r[i].status) && Blocking(r[j].status)
      ensures !Overlaps(r[i], r[j].checkin, r[j].checkout)
    {
      if i == |rows| {
        assert !Conflict(rows[j], b.propiedad, b.checkin, b.checkout, None);
      } else if j == |rows| {
        assert !Conflict(rows[i], b.propiedad, b.checkin, b.checkout, None);
      }
    }
  }

  lemma NoDoubleBookingReplace(rows: seq<Booking>, k: nat, b: Booking)
    requires NoDoubleBooking(rows) && UniqueIds(rows)
    requires k < |rows| && rows[k].id == b.id
    requires !HasConflict(rows, b.propiedad, b.checkin, b.checkout, Some(b.id))
    ensures NoDoubleBooking(rows[k := b])
  {
    var r := rows[k := b];
    forall i, j | 0 <= i < |r| && 0 <= j < |r| && i != j
      && r[i].propiedad == r[j].propiedad && Blocking(r[i].status) && Blocking(r[j].status)
      ensures !Overlaps(r[i], r[j].checkin, r[j].checkout)
    {
      if i == k {
        assert rows[j].id != b.id by {
          if j < k { assert rows[j].id != rows[k].id; } else { assert rows[k].id != rows[j].id; }
        }
        assert !Conflict(rows[j], b.propiedad, b.checkin, b.checkout, Some(b.id));
      } else if j == k {
        assert rows[i].id != b.id by {
          if i < k { assert rows[i].id != rows[k].id; } else { assert rows[k].id != rows[i].id; }
        }
        assert !Conflict(rows[i], b.propiedad, b.checkin, b.checkout, Some(b.id));
      }
    }
  }

  /** A booking whose check-in is already past can never be saved, whatever else changes. */
  lemma PastCheckinNeverSaves(b: Booking, self: Option<int>, today: Date, rows: seq<Booking>)
    requires Before(b.checkin, today)
    ensures CleanErrors(b, self, today, rows) != {}
  {
  }
}
