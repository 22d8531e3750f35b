/**
 * Per-order rules that both test classes state in the same words. The
 * variants that differ between the two classes live in their own modules.
 */
module Rules {
  import opened Records

  /** `status.equals("PAID") || status.equals("PENDING")`. */
  predicate NeedsLines(o: Order) {
    o.status == "PAID" || o.status == "PENDING"
  }

  /** A PAID or PENDING order has a non-null, non-empty line list. */
  predicate LinesRequired(o: Order) {
    NeedsLines(o) ==> !LinesMissingOrEmpty(o)
  }

  /**
   * A PAID order's `payment.captured` is `true`. A PAID order without a
   * payment fails (the source dereferences null there).
   */
  predicate PaidCaptured(o: Order) {
    o.status == "PAID" ==> o.payment.Some? && o.payment.value.captured
  }

  /**
   * The refund is present and within `delta` of the sum of all line totals,
   * invalid lines included.
   */
  predicate RefundMatches(o: Order, delta: real) {
    o.refund.Some? && Within(Gmv(o), o.refund.value.amount, delta)
  }

  /** `email == null || !email.toString().contains("@")`. */
  predicate EmailMissingOrLacksAt(o: Order) {
    o.customer.email.None? || '@' !in o.customer.email.value
  }

  /** `fee >= 0`. */
  predicate ShippingFeeOk(o: Order) {
    o.shipping.fee >= 0.0
  }
}
