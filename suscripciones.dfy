/**
 * Subscription prices: the six-month price with 15% off and the annual price with
 * 30% off, computed with exact decimal factors, and the price of the chosen duration.
 */
module Suscripciones {

  /** `precio_mensual * Decimal('6') * Decimal('0.85')`. */
  function PrecioSemestral(mensual: real): (r: real)
    ensures r == mensual * 51.0 / 10.0
    ensures mensual >= 0.0 ==> 0.0 <= r <= 6.0 * mensual
    ensures mensual > 0.0 ==> r < 6.0 * mensual
  {
    (mensual * 6.0) * 0.85
  }

  /** `precio_mensual * Decimal('12') * Decimal('0.70')`. */
  function PrecioAnual(mensual: real): (r: real)
    ensures r == mensual * 42.0 / 5.0
    ensures mensual >= 0.0 ==> 0.0 <= r <= 12.0 * mensual
    ensures mensual > 0.0 ==> r < 12.0 * mensual
  {
    (mensual * 12.0) * 0.70
  }

  /**
   * A monthly price with two decimals (`cents / 100`) gives prices with at most
   * four decimals, so the products are exact in `Decimal`'s 28-digit context.
   */
  lemma PricesAreExactDecimals(cents: int)
    ensures PrecioSemestral(cents as real / 100.0) * 10000.0 == (cents * 510) as real
    ensures PrecioAnual(cents as real / 100.0) * 10000.0 == (cents * 840) as real
  {
  }

  const DuracionPorDefecto: string := "Mensual"

  /** `precio_total`: the price of the stored duration; any other text costs the monthly price. */
  function PrecioTotal(mensual: real, duracion: string): (r: real)
    ensures duracion == "Semestral" ==> r == PrecioSemestral(mensual)
    ensures duracion == "Anual" ==> r == PrecioAnual(mensual)
    ensures duracion != "Semestral" && duracion != "Anual" ==> r == mensual
    ensures mensual >= 0.0 ==> 0.0 <= r
  {
    if duracion == "Mensual" then mensual
    else if duracion == "Semestral" then PrecioSemestral(mensual)
    else if duracion == "Anual" then PrecioAnual(mensual)
    else mensual
  }

  /** A longer commitment never costs more per month. */
  lemma LongerIsCheaperPerMonth(mensual: real)
    requires mensual >= 0.0
    ensures PrecioAnual(mensual) / 12.0 <= PrecioSemestral(mensual) / 6.0 <= mensual
  {
  }
}
