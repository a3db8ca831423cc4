/** The checkout's order summary (components/order-summary.tsx): flat
    shipping unless the subtotal is over 50, 8% tax, and a hint saying how
    much more would earn free shipping.  Money is exact; `toFixed` rounding
    is not modelled. */
module OrderSummary {

  const FreeShippingThreshold: real := 50.0
  const ShippingFee: real := 9.99
  const TaxRate: real := 0.08

  datatype Summary = Summary(subtotal: real, shipping: real, tax: real, total: real)

  /** The summary the component shows for the cart's subtotal. */
  function Summarize(subtotal: real): (s: Summary)
    ensures s.subtotal == subtotal
    ensures s.shipping == 0.0 <==> subtotal > 50.0
    ensures s.shipping == 0.0 || s.shipping == 9.99
    ensures s.tax * 100.0 == subtotal * 8.0
    ensures s.total == s.subtotal + s.shipping + s.tax
    ensures subtotal >= 0.0 ==> s.total >= subtotal
  {
    var shipping := if subtotal > FreeShippingThreshold then 0.0 else ShippingFee;
    var tax := subtotal * TaxRate;
    Summary(subtotal, shipping, tax, subtotal + shipping + tax)
  }

  /** `subtotal < 50 && <p>Add $… more for free shipping!</p>` */
  predicate ShowsFreeShippingHint(subtotal: real) {
    subtotal < FreeShippingThreshold
  }

  /** The amount the hint names. */
  function AmountToFreeShipping(subtotal: real): (r: real)
    ensures r + subtotal == 50.0
    ensures ShowsFreeShippingHint(subtotal) ==> r > 0.0
  {
    FreeShippingThreshold - subtotal
  }

  /** Below 50 the hint shows; above 50 shipping is free; at exactly 50
      shipping is charged and no hint is shown. */
  lemma HintOrFreeShippingExceptAtThreshold(subtotal: real)
    ensures ShowsFreeShippingHint(subtotal) || Summarize(subtotal).shipping == 0.0 <==> subtotal != 50.0
    ensures Summarize(50.0).shipping == 9.99 && !ShowsFreeShippingHint(50.0)
  {
  }

  /** As written, following the hint never earns free shipping: adding the
      hinted amount brings the subtotal to exactly 50, which is still charged. */
  lemma HintedAmountStillCharged(subtotal: real)
    requires ShowsFreeShippingHint(subtotal)
    ensures Summarize(subtotal + AmountToFreeShipping(subtotal)).shipping == 9.99
  {
  }

  /** The summary with the threshold the hint implies: free shipping from 50 on. */
  function SummarizeIntended(subtotal: real): (s: Summary)
    ensures s.subtotal == subtotal
    ensures s.shipping == 0.0 <==> !ShowsFreeShippingHint(subtotal)
    ensures s.tax * 100.0 == subtotal * 8.0
    ensures s.total == s.subtotal + s.shipping + s.tax
  {
    var shipping := if subtotal >= FreeShippingThreshold then 0.0 else ShippingFee;
    var tax := subtotal * TaxRate;
    Summary(subtotal, shipping, tax, subtotal + shipping + tax)
  }

  /** With that threshold, adding the hinted amount earns free shipping, and
      it differs from the component only at exactly 50. */
  lemma IntendedHintEarnsFreeShipping(subtotal: real)
    ensures ShowsFreeShippingHint(subtotal) ==>
            SummarizeIntended(subtotal + AmountToFreeShipping(subtotal)).shipping == 0.0
    ensures SummarizeIntended(subtotal) != Summarize(subtotal) <==> subtotal == 50.0
  {
  }
}
