/**
 * The inventory record shared by the lookup, the cart and the merchant
 * statistics, and the pricing rule applied to it.
 *
 * Money is exact `real`: the source multiplies binary floating-point numbers
 * (`costPrice * 1.03`, `subtotal * 0.03`), whose rounding error this model
 * does not reproduce.
 */
module Inventory {

  /** One ornament row of the store. `createdAt` is a timestamp in milliseconds. */
  datatype Ornament = Ornament(
    ornamentId: string,
    itemType: string,
    weight: real,
    purity: string,
    costPrice: real,
    merchantCode: string,
    isSold: bool,
    createdAt: int)

  /** `Math.round`: the nearest integer, halves rounded up (towards +infinity). */
  function Round(x: real): (r: int)
    ensures x - 1.0 / 2.0 < r as real <= x + 1.0 / 2.0
  {
    (x + 1.0 / 2.0).Floor
  }

  /** The 3% markup, unrounded: `costPrice * 1.03`. */
  function Markup(costPrice: real): real
  {
    costPrice * 103.0 / 100.0
  }

  /** `Math.round(costPrice * 1.03)`, the price the lookup attaches to an ornament. */
  function SellingPrice(costPrice: real): (r: int)
    ensures Markup(costPrice) - 1.0 / 2.0 < r as real <= Markup(costPrice) + 1.0 / 2.0
  {
    Round(Markup(costPrice))
  }

  /** Round is the integer nearest to its argument: no other integer is as close. */
  lemma RoundIsNearest(x: real, k: int)
    ensures Round(x) == k <==> x - 1.0 / 2.0 < k as real <= x + 1.0 / 2.0
  {
  }

  /** A higher cost never gives a lower selling price. */
  lemma SellingPriceMonotonic(c1: real, c2: real)
    requires c1 <= c2
    ensures SellingPrice(c1) <= SellingPrice(c2)
  {
  }

  /** A non-negative cost gives a non-negative selling price. */
  lemma SellingPriceNonNegative(c: real)
    requires c >= 0.0
    ensures SellingPrice(c) >= 0
  {
  }

  /** Worked values: cost 1000 sells at 1030; cost 50 gives exactly 51.5, rounded up to 52. */
  lemma SellingPriceExamples()
    ensures SellingPrice(1000.0) == 1030
    ensures SellingPrice(50.0) == 52
    ensures SellingPrice(150.0) == 155
  {
    RoundIsNearest(Markup(1000.0), 1030);
    RoundIsNearest(Markup(50.0), 52);
    RoundIsNearest(Markup(150.0), 155);
  }
}
