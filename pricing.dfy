/** The order pricing shared by pages/Cart.tsx and pages/Checkout.tsx: shipping is free above
    ₹499, GST is 18% of the subtotal, and the total adds the three. Money is an exact `real`. */
module Pricing {
  /** The subtotal above which shipping is free, the flat fee otherwise, and the GST rate. */
  const FreeShippingAbove: real := 499.0
  const ShippingFee: real := 50.0
  const GstRate: real := 0.18

  datatype Totals = Totals(subtotal: real, shipping: real, gst: real, total: real)

  /** The bill for a subtotal. */
  function Quote(subtotal: real): (t: Totals)
    ensures t.subtotal == subtotal
    ensures t.shipping == 0.0 <==> subtotal > FreeShippingAbove
    ensures t.shipping == ShippingFee <==> subtotal <= FreeShippingAbove
    ensures 100.0 * t.gst == 18.0 * subtotal
    ensures t.total == t.subtotal + t.shipping + t.gst
  {
    var shipping := if subtotal > FreeShippingAbove then 0.0 else ShippingFee;
    var gst := subtotal * GstRate;
    Totals(subtotal, shipping, gst, subtotal + shipping + gst)
  }

  /** For a non-negative subtotal the total lies between subtotal plus GST and that plus the fee. */
  lemma {:induction false} QuoteBounds(subtotal: real)
    requires subtotal >= 0.0
    ensures 1.18 * subtotal <= Quote(subtotal).total <= 1.18 * subtotal + ShippingFee
    ensures Quote(subtotal).total >= subtotal
  {
  }

  /** On each side of the free-shipping threshold the total grows with the subtotal. */
  lemma {:induction false} QuoteMonotoneOnEachSide(a: real, b: real)
    requires a <= b
    requires (a > FreeShippingAbove) == (b > FreeShippingAbove)
    ensures Quote(a).total <= Quote(b).total
  {
  }

  /** Crossing the threshold can lower the bill: a ₹500 bag costs less than a ₹499 one. */
  lemma {:induction false} FreeShippingCliff()
    ensures Quote(499.0).total == 638.82
    ensures Quote(500.0).total == 590.0
    ensures Quote(500.0).total < Quote(499.0).total
  {
  }
}
