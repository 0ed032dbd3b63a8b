/**
 * The booking views: who sees which bookings, and the occupied-dates endpoint,
 * which expands every live booking of a property into the days it occupies.
 */
module ReservasViews {
  import opened Calendar
  import opened Sorting
  import opened Accounts
  import opened ReservasModel

  function CreatedAt(b: Booking): int {
    b.creadoEn
  }

  /**
   * `ReservaListCreate.get_queryset`: a superuser sees every booking, anyone else
   * only their own, newest first. The second half of the admin test compares the
   * user's role object with two strings, which a model instance never equals, so
   * the role plays no part.
   */
  function VisibleBookings(rows: seq<Booking>, user: User): (r: seq<Booking>)
    ensures SortedDesc(r, CreatedAt)
    ensures user.isSuperuser ==> multiset(r) == multiset(rows)
    ensures !user.isSuperuser ==> multiset(r) == multiset(Own(rows, user.id))
    ensures forall k :: 0 <= k < |r| ==> r[k] in rows && (user.isSuperuser || r[k].user == user.id)
  {
    var r := if user.isSuperuser then SortDesc(rows, CreatedAt) else SortDesc(Own(rows, user.id), CreatedAt);
    assert forall k :: 0 <= k < |r| ==> r[k] in multiset(r);
    r
  }

  function Own(rows: seq<Booking>, user: int): (r: seq<Booking>)
    ensures forall k :: 0 <= k < |r| ==> r[k] in rows && r[k].user == user
    ensures forall b :: b in rows && b.user == user ==> b in r
  {
    if rows == [] then []
    else Own(rows[..|rows| - 1], user) + (if rows[|rows| - 1].user == user then [rows[|rows| - 1]] else [])
  }

  /** `Reservas.objects.filter(propiedad_id=p).exclude(status__in=['cancelada', 'rechazada'])`. */
  function LiveOf(rows: seq<Booking>, propiedad: int): (r: seq<Booking>)
    ensures |r| <= |rows|
    ensures forall k :: 0 <= k < |r| ==> r[k] in rows && r[k].propiedad == propiedad && Blocking(r[k].status)
    ensures forall b :: b in rows && b.propiedad == propiedad && Blocking(b.status) ==> b in r
  {
    if rows == [] then []
    else
      var last := rows[|rows| - 1];
      LiveOf(rows[..|rows| - 1], propiedad) + (if last.propiedad == propiedad && Blocking(last.status) then [last] else [])
  }

  /** The days of the stay `[checkin, checkout)`, one after the other. */
  function StayDays(checkin: Date, checkout: Date): (r: seq<Date>)
    requires ValidDate(checkin) && ValidDate(checkout)
    ensures forall k :: 0 <= k < |r| ==> ValidDate(r[k]) && DayNumber(r[k]) == DayNumber(checkin) + k
    ensures |r| == if Before(checkin, checkout) then DaysBetween(checkin, checkout) else 0
    decreases DayNumber(checkout) - DayNumber(checkin)
  {
    DayNumberOrder(checkin, checkout);
    if Before(checkin, checkout) then
      var next := NextDay(checkin);
      DayNumberOrder(next, checkout);
      [checkin] + StayDays(next, checkout)
    else []
  }

  /** A day is listed for a stay exactly when it lies in `[checkin, checkout)`; the checkout day never is. */
  lemma StayDaysMembership(checkin: Date, checkout: Date, d: Date)
    requires ValidDate(checkin) && ValidDate(checkout) && ValidDate(d)
    ensures d in StayDays(checkin, checkout) <==> InStay(DayNumber(d), checkin, checkout)
    ensures checkout !in StayDays(checkin, checkout)
  {
    var r := StayDays(checkin, checkout);
    DayNumberOrder(checkin, checkout);
    if InStay(DayNumber(d), checkin, checkout) {
      var k := DayNumber(d) - DayNumber(checkin);
      DayNumberOrder(r[k], d);
    }
  }

  /** Within one stay the listed days are strictly ascending and consecutive. */
  lemma StayDaysConsecutive(checkin: Date, checkout: Date, k: nat)
    requires ValidDate(checkin) && ValidDate(checkout)
    requires k + 1 < |StayDays(checkin, checkout)|
    ensures var r := StayDays(checkin, checkout); r[k + 1] == NextDay(r[k]) && Before(r[k], r[k + 1])
  {
    var r := StayDays(checkin, checkout);
    DayNumberOrder(r[k + 1], NextDay(r[k]));
    DayNumberOrder(r[k], r[k + 1]);
  }

  predicate AllWellFormed(rows: seq<Booking>) {
    forall k :: 0 <= k < |rows| ==> WellFormed(rows[k])
  }

  /** The days of all the stays, booking after booking; overlapping stays repeat days. */
  function OccupiedDays(bs: seq<Booking>): (r: seq<Date>)
    requires AllWellFormed(bs)
    ensures forall k :: 0 <= k < |r| ==> ValidDate(r[k])
  {
    if bs == [] then []
    else OccupiedDays(bs[..|bs| - 1]) + StayDays(bs[|bs| - 1].checkin, bs[|bs| - 1].checkout)
  }

  function Nights(b: Booking): nat
    requires WellFormed(b)
  {
    DayNumberOrder(b.checkin, b.checkout);
    if Before(b.checkin, b.checkout) then DaysBetween(b.checkin, b.checkout) else 0
  }

  function TotalNights(bs: seq<Booking>): nat
    requires AllWellFormed(bs)
  {
    if bs == [] then 0 else TotalNights(bs[..|bs| - 1]) + Nights(bs[|bs| - 1])
  }

  /** The list is as long as all the stays together: duplicates are kept. */
  lemma {:induction false} OccupiedDaysLength(bs: seq<Booking>)
    requires AllWellFormed(bs)
    ensures |OccupiedDays(bs)| == TotalNights(bs)
  {
    if bs != [] {
      OccupiedDaysLength(bs[..|bs| - 1]);
    }
  }

  /** Every listed day is a night of some listed booking, and every such night is listed. */
  lemma {:induction false} OccupiedDaysMembership(bs: seq<Booking>, d: Date)
    requires AllWellFormed(bs) && ValidDate(d)
    ensures d in OccupiedDays(bs) <==>
      exists k :: 0 <= k < |bs| && InStay(DayNumber(d), bs[k].checkin, bs[k].checkout)
  {
    if bs != [] {
      var init := bs[..|bs| - 1];
      var last := bs[|bs| - 1];
      assert AllWellFormed(init) by {
        forall k | 0 <= k < |init| ensures WellFormed(init[k]) {
          assert init[k] == bs[k];
        }
      }
      OccupiedDaysMembership(init, d);
      StayDaysMembership(last.checkin, last.checkout, d);
      assert OccupiedDays(bs) == OccupiedDays(init) + StayDays(last.checkin, last.checkout);
      if exists k :: 0 <= k < |bs| && InStay(DayNumber(d), bs[k].checkin, bs[k].checkout) {
        var k :| 0 <= k < |bs| && InStay(DayNumber(d), bs[k].checkin, bs[k].checkout);
        if k < |bs| - 1 {
          assert init[k] == bs[k];
        }
      }
      if d in OccupiedDays(init) {
        var k :| 0 <= k < |init| && InStay(DayNumber(d), init[k].checkin, init[k].checkout);
        assert bs[k] == init[k];
      }
    }
  }

  function IsoAll(ds: seq<Date>): (r: seq<string>)
    requires forall k :: 0 <= k < |ds| ==> ValidDate(ds[k])
    ensures |r| == |ds|
    ensures forall k :: 0 <= k < |ds| ==> r[k] == IsoDate(ds[k])
  {
    seq(|ds|, k requires 0 <= k < |ds| => IsoDate(ds[k]))
  }

  /** The stored ordering of bookings, `-creado_en`. */
  function DefaultOrder(rows: seq<Booking>): (r: seq<Booking>)
    ensures multiset(r) == multiset(rows) && SortedDesc(r, CreatedAt)
  {
    SortDesc(rows, CreatedAt)
  }

  lemma OrderKeepsWellFormed(rows: seq<Booking>)
    requires AllWellFormed(rows)
    ensures AllWellFormed(DefaultOrder(rows))
  {
    var r := DefaultOrder(rows);
    forall k | 0 <= k < |r| ensures WellFormed(r[k]) {
      assert r[k] in multiset(rows);
    }
  }

  /**
   * `FechasOcupadasView.get`: for each live booking of the property, in stored
   * order, list every day from check-in up to (not including) checkout in ISO form;
   * `total_reservas` counts those bookings.
   */
  method FechasOcupadas(rows: seq<Booking>, propiedad: int) returns (fechas: seq<string>, totalReservas: nat)
    requires AllWellFormed(rows)
    ensures AllWellFormed(DefaultOrder(LiveOf(rows, propiedad)))
    ensures fechas == IsoAll(OccupiedDays(DefaultOrder(LiveOf(rows, propiedad))))
    ensures totalReservas == |LiveOf(rows, propiedad)|
  {
    var live := LiveOf(rows, propiedad);
    LiveWellFormed(rows, propiedad);
    var qs := DefaultOrder(live);
    fechas := [];
    var i := 0;
    while i < |qs|
      invariant 0 <= i <= |qs| && AllWellFormed(qs[..i])
      invariant fechas == IsoAll(OccupiedDays(qs[..i]))
    {
      var stay := StayIso(qs[i].checkin, qs[i].checkout);
      OccupiedIsoStep(qs, i);
      fechas := fechas + stay;
      i := i + 1;
    }
    assert qs[..i] == qs;
    totalReservas := |live|;
  }

  lemma LiveWellFormed(rows: seq<Booking>, propiedad: int)
    requires AllWellFormed(rows)
    ensures AllWellFormed(LiveOf(rows, propiedad)) && AllWellFormed(DefaultOrder(LiveOf(rows, propiedad)))
  {
    var live := LiveOf(rows, propiedad);
    forall k | 0 <= k < |live| ensures WellFormed(live[k]) {
      var i :| 0 <= i < |rows| && rows[i] == live[k];
    }
    OrderKeepsWellFormed(live);
  }

  /** One more booking adds the ISO days of its stay. */
  lemma OccupiedIsoStep(qs: seq<Booking>, i: nat)
    requires AllWellFormed(qs) && i < |qs|
    ensures AllWellFormed(qs[..i]) && AllWellFormed(qs[..i + 1])
    ensures IsoAll(OccupiedDays(qs[..i + 1])) ==
      IsoAll(OccupiedDays(qs[..i])) + IsoAll(StayDays(qs[i].checkin, qs[i].checkout))
  {
    assert qs[..i + 1][..i] == qs[..i];
    IsoAllAppend(OccupiedDays(qs[..i]), StayDays(qs[i].checkin, qs[i].checkout));
  }

  /** The inner loop: from check-in, one day at a time up to checkout, each day in ISO form. */
  method StayIso(checkin: Date, checkout: Date) returns (fechas: seq<string>)
    requires ValidDate(checkin) && ValidDate(checkout)
    ensures fechas == IsoAll(StayDays(checkin, checkout))
  {
    fechas := [];
    var current := checkin;
    while Before(current, checkout)
      invariant ValidDate(current)
      invariant fechas + IsoAll(StayDays(current, checkout)) == IsoAll(StayDays(checkin, checkout))
      decreases DayNumber(checkout) - DayNumber(current)
    {
      DayNumberOrder(current, checkout);
      var next := NextDay(current);
      assert StayDays(current, checkout) == [current] + StayDays(next, checkout);
      IsoAllCons(current, StayDays(next, checkout));
      fechas := fechas + [IsoDate(current)];
      current := next;
    }
    assert StayDays(current, checkout) == [];
  }

  lemma IsoAllCons(d: Date, ds: seq<Date>)
    requires ValidDate(d) && forall k :: 0 <= k < |ds| ==> ValidDate(ds[k])
    ensures IsoAll([d] + ds) == [IsoDate(d)] + IsoAll(ds)
  {
    IsoAllAppend([d], ds);
    assert IsoAll([d]) == [IsoDate(d)];
  }

  lemma IsoAllAppend(a: seq<Date>, b: seq<Date>)
    requires forall k :: 0 <= k < |a| ==> ValidDate(a[k])
    requires forall k :: 0 <= k < |b| ==> ValidDate(b[k])
    ensures IsoAll(a + b) == IsoAll(a) + IsoAll(b)
  {
    var ab := a + b;
    assert forall k :: 0 <= k < |ab| ==> ValidDate(ab[k]) by {
      forall k | 0 <= k < |ab| ensures ValidDate(ab[k]) {
        if k >= |a| { assert ab[k] == b[k - |a|]; }
      }
    }
    var l, r := IsoAll(ab), IsoAll(a) + IsoAll(b);
    forall k | 0 <= k < |l| ensures l[k] == r[k] {
      if k < |a| {
        assert ab[k] == a[k];
      } else {
        assert ab[k] == b[k - |a|];
        assert r[k] == IsoAll(b)[k - |a|];
      }
    }
  }
}
