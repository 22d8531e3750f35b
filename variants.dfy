/**
 * How the two test classes relate. They read the same orders but word
 * several checks differently: the blank-id test, the e-mail test, the line
 * rules, the refund rule and its tolerance. Each lemma here states where
 * the two agree, and each counterexample names an order on which they part.
 */
module Variants {
  import opened Wrappers
  import opened Seqs
  import opened Text
  import opened Records
  import opened Rules
  import opened Aggregation
  import OrdersTest
  import OrdersTest1

  // ---------------------------------------------------------------------
  // Ids

  /**
   * `trim().isEmpty()` and `isBlank()` agree on every id whose characters
   * are Java white space exactly when `trim()` strips them.
   */
  lemma IdTestsAgree(id: string)
    requires forall k :: 0 <= k < |id| ==> (IsJavaWhitespace(id[k]) <==> IsTrimmable(id[k]))
    ensures OrdersTest.IdPresent(Some(id)) <==> OrdersTest1.IdNotBlank(Some(id))
  {
    if !IsBlank(id) {
      var k :| 0 <= k < |id| && !IsJavaWhitespace(id[k]);
      assert id[k] > ' ';
    }
  }

  /** The id "\u0000" is rejected by `trim()` but accepted by `isBlank()`. */
  lemma NulIdSplitsTests()
    ensures !OrdersTest.IdPresent(Some([0 as char]))
    ensures OrdersTest1.IdNotBlank(Some([0 as char]))
  {
    assert !IsJavaWhitespace([0 as char][0]);
  }

  /** The id "　" (ideographic space) is accepted by `trim()` but rejected by `isBlank()`. */
  lemma IdeographicSpaceIdSplitsTests()
    ensures OrdersTest.IdPresent(Some([0x3000 as char]))
    ensures !OrdersTest1.IdNotBlank(Some([0x3000 as char]))
  {
    assert [0x3000 as char][0] > ' ';
  }

  // ---------------------------------------------------------------------
  // E-mails

  /** An address the regular expression accepts contains `@`. */
  lemma PatternImpliesAt(s: string)
    ensures MatchesEmailPattern(s) ==> '@' in s
  {
    EmailPatternIsRegex(s);
    if RegexMatchesEmail(s) {
      EmailPatternHasAt(s);
    }
  }

  /** "a@b" contains `@` but has no dotted domain: only the regular expression rejects it. */
  lemma AtWithoutDomain()
    ensures '@' in "a@b" && !MatchesEmailPattern("a@b")
  {
    assert "a@b"[1] == '@';
  }

  /**
   * Every order whose present e-mail lacks `@` is also in OrdersTest's
   * list of malformed e-mails.
   */
  lemma LacksAtIsMalformed(o: Order)
    ensures o.customer.email.Some? && EmailMissingOrLacksAt(o) ==> OrdersTest.HasMalformedEmail(o)
  {
    if o.customer.email.Some? {
      PatternImpliesAt(o.customer.email.value);
    }
  }

  // ---------------------------------------------------------------------
  // Lines and refunds

  /** OrdersTest's line test is the stricter: whatever it accepts, OrdersTest1 accepts. */
  lemma LineIntegrityIsStricter(o: Order)
    ensures o.lines.Some? && OrdersTest.LineIntegrityOk(o) ==> OrdersTest1.LinesOk(o)
  {
    if o.lines.Some? && OrdersTest.LineIntegrityOk(o) {
      forall j | 0 <= j < |o.lines.value| ensures OrdersTest1.LineAmountsOk(o.lines.value[j]) {
        assert OrdersTest.LineValid(o.lines.value[j]);
      }
    }
  }

  /** A cancelled order with a line but an empty sku: only OrdersTest rejects it. */
  lemma EmptySkuSplitsLineTests()
    ensures var o := Order(Some("X"), "CANCELLED", Customer(None), Some([Line("", 1, 1.0)]), None, Some(Refund(1.0)), Shipping(0.0));
      OrdersTest1.LinesOk(o) && !OrdersTest.LineIntegrityOk(o)
  {
    var l := Line("", 1, 1.0);
    assert !OrdersTest.LineValid([l][0]);
  }

  /**
   * OrdersTest's payment/refund test, plus a refund on a cancelled order
   * whose line list is present but empty, yields OrdersTest1's.
   */
  lemma RefundRuleWidens(o: Order)
    requires OrdersTest.PaymentRefundOk(o)
    requires o.status == "CANCELLED" && o.lines == Some([]) ==> RefundMatches(o, OrdersTest1.Delta)
    ensures PaidCaptured(o)
    ensures o.status == "CANCELLED" && o.lines.Some? ==> RefundMatches(o, OrdersTest1.Delta)
  {
  }

  /** A cancelled order with an empty line list and no refund passes OrdersTest only. */
  lemma EmptyCancelledWithoutRefund()
    ensures var o := Order(Some("X"), "CANCELLED", Customer(Some("x@y.z")), Some([]), None, None, Shipping(0.0));
      OrdersTest.PaymentRefundOk(o) && !OrdersTest1.LinesAndPaymentOk(o)
  {
  }

  /** GMVs within OrdersTest's tolerance are within OrdersTest1's. */
  lemma GmvToleranceWidens(orders: seq<Order>, expected: map<string, real>)
    ensures GmvWithin(orders, expected, OrdersTest.Delta) ==> GmvWithin(orders, expected, OrdersTest1.Delta)
  {
  }

  /** When OrdersTest's payment/refund test passes, no PAID order is left uncaptured. */
  lemma ConsistentMeansAllCaptured(orders: seq<Order>)
    ensures OrdersTest.PaymentRefundConsistent(orders) ==> OrdersTest.UncapturedPaidIds(orders) == []
  {
  }

  // ---------------------------------------------------------------------
  // Reports

  /** Both reports flag an order for the same reasons, whatever their wording. */
  lemma ProblemOrdersAgree(o: Order)
    ensures OrdersTest.IsProblem(o) <==> OrdersTest1.IsProblem(o)
  {
    OrdersTest.ReasonsMeaning(o);
    OrdersTest1.IssuesMeaning(o);
  }

  /** Both reports list the same orders, at the same positions, and as many. */
  lemma ProblemListsAlign(orders: seq<Order>)
    ensures Kept(orders, OrdersTest.IsProblem) == Kept(orders, OrdersTest1.IsProblem)
    ensures Count(orders, OrdersTest.IsProblem) == Count(orders, OrdersTest1.IsProblem)
  {
    forall i | 0 <= i < |orders| ensures OrdersTest.IsProblem(orders[i]) == OrdersTest1.IsProblem(orders[i]) {
      ProblemOrdersAgree(orders[i]);
    }
    KeptCongruent(orders, OrdersTest.IsProblem, OrdersTest1.IsProblem);
  }

  /**
   * An order carries OrdersTest's "invalid email" reason iff it is in the
   * list of ids with a missing or `@`-less e-mail.
   */
  lemma InvalidEmailReasonIffListed(orders: seq<Order>, i: nat)
    requires i < |orders|
    ensures OrdersTest.InvalidEmail in OrdersTest.Reasons(orders[i]) <==> EmailMissingOrLacksAt(orders[i])
    ensures EmailMissingOrLacksAt(orders[i]) ==> orders[i].id in FilterMap(orders, EmailMissingOrLacksAt, OrdersTest.IdOf)
  {
    OrdersTest.InvalidEmailReason(orders[i]);
    FilterMapMember(orders, EmailMissingOrLacksAt, OrdersTest.IdOf, orders[i].id);
  }
}
