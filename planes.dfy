/** The end date of a subscription plan. */
module Planes {
  import opened Wrappers
  import opened Calendar

  /**
   * `Plan.fecha_final`: one month, six months or one year after the start, the day
   * clamped to the end of the target month; `None` without a start date, without
   * a duration, or for a duration it does not know.
   */
  function FechaFinal(inicio: Option<Date>, duracion: string): (r: Option<Date>)
    requires inicio.Some? ==> ValidDate(inicio.value)
    ensures r.Some? <==> inicio.Some? && (duracion == "Mensual" || duracion == "Semestral" || duracion == "Anual")
    ensures r.Some? ==> ValidDate(r.value) && Before(inicio.value, r.value)
    ensures r.Some? ==> r.value.day == Min(inicio.value.day, DaysInMonth(r.value.year, r.value.month))
    ensures r.Some? ==>
      MonthIndex(r.value) == MonthIndex(inicio.value) + (if duracion == "Mensual" then 1 else if duracion == "Semestral" then 6 else 12)
  {
    if inicio.Some? && duracion != "" then
      var d := inicio.value;
      if duracion == "Mensual" then
        AddMonthsLater(d, 1);
        Some(AddMonths(d, 1))
      else if duracion == "Semestral" then
        AddMonthsLater(d, 6);
        Some(AddMonths(d, 6))
      else if duracion == "Anual" then
        AddYearsIsTwelveMonths(d, 1);
        AddMonthsLater(d, 12);
        Some(AddYears(d, 1))
      else None
    else None
  }

  /** 31 January plus a month is the last day of February. */
  lemma EndOfMonthClamps(y: int)
    requires y >= 1
    ensures FechaFinal(Some(Date(y, 1, 31)), "Mensual") == Some(Date(y, 2, if IsLeap(y) then 29 else 28))
  {
  }

  /** 29 February plus a year is 28 February of the next (non-leap) year. */
  lemma LeapDayPlusYear(y: int)
    requires y >= 1 && IsLeap(y)
    ensures FechaFinal(Some(Date(y, 2, 29)), "Anual") == Some(Date(y + 1, 2, 28))
  {
    assert !IsLeap(y + 1);
  }
}
