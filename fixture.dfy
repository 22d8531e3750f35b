/**
 * A sample order set that meets every expectation the two aggregation
 * suites hard-code: the ids A-1001 to A-1005, eight lines, the GMVs
 * 70 / 0 / -15 / 16 / 55, PEN-RED and USB-32GB as the two best-selling
 * SKUs, one malformed e-mail, two orders with a missing or `@`-less e-mail,
 * no uncaptured payment and one correctly refunded cancellation. The
 * lemmas below show the model yields exactly those expected values on it.
 */
module Fixture {
  import opened Wrappers
  import opened Seqs
  import opened Text
  import opened Records
  import opened Rules
  import opened Aggregation
  import OrdersTest
  import OrdersTest1
  import Variants

  const Order1001 := Order(Some("A-1001"), "PAID", Customer(Some("alice@example.com")),
    Some([Line("PEN-RED", 3, 10.0), Line("USB-32GB", 2, 20.0)]),
    Some(Payment(true)), None, Shipping(5.0))

  const Order1002 := Order(Some("A-1002"), "PENDING", Customer(Some("bob[at]example.com")),
    Some([]), Some(Payment(false)), None, Shipping(0.0))

  const Order1003 := Order(Some("A-1003"), "CANCELLED", Customer(None),
    Some([Line("MOUSE", 1, -15.0)]), None, Some(Refund(0.0)), Shipping(0.0))

  const Order1004 := Order(Some("A-1004"), "CANCELLED", Customer(Some("dan@example.org")),
    Some([Line("PEN-RED", 2, 4.0), Line("NOTEBOOK", 1, 8.0)]),
    None, Some(Refund(16.0)), Shipping(3.5))

  const Order1005 := Order(Some("A-1005"), "PAID", Customer(Some("eve@example.net")),
    Some([Line("CABLE", 1, 25.0), Line("STAND", 1, 20.0), Line("MUG", 1, 10.0)]),
    Some(Payment(true)), None, Shipping(0.0))

  const SampleOrders: seq<Order> := [Order1001, Order1002, Order1003, Order1004, Order1005]

  /** The GMV each order is expected to have. */
  const ExpectedGmv: map<string, real> :=
    map["A-1001" := 70.0, "A-1002" := 0.0, "A-1003" := -15.0, "A-1004" := 16.0, "A-1005" := 55.0]

  /** The expected SKU totals over the positive-qty lines. */
  const ExpectedTotals: map<string, int> :=
    map["PEN-RED" := 5, "USB-32GB" := 2, "MOUSE" := 1, "NOTEBOOK" := 1, "CABLE" := 1, "STAND" := 1, "MUG" := 1]

  /** The flattened line list, in order. */
  const SampleLines: seq<Line> := [
    Line("PEN-RED", 3, 10.0), Line("USB-32GB", 2, 20.0), Line("MOUSE", 1, -15.0),
    Line("PEN-RED", 2, 4.0), Line("NOTEBOOK", 1, 8.0),
    Line("CABLE", 1, 25.0), Line("STAND", 1, 20.0), Line("MUG", 1, 10.0)]

  // ---------------------------------------------------------------------
  // Unfolding one element at a time

  lemma AllLinesSnoc(s: seq<Order>, o: Order)
    ensures AllLines(s + [o]) == AllLines(s) + LinesOf(o)
    ensures LineCount(s + [o]) == LineCount(s) + |LinesOf(o)|
  {
    assert (s + [o])[..|s|] == s;
  }

  /** The totals map after one more line of `s`. */
  lemma SkuTotalsStep(s: seq<Line>, k: nat)
    requires k < |s|
    ensures SkuTotals(s[..k + 1]) == if s[k].qty > 0 then MergeAdd(SkuTotals(s[..k]), s[k].sku, s[k].qty) else SkuTotals(s[..k])
  {
    assert s[..k + 1][..k] == s[..k];
  }

  lemma LinesTotalOne(a: Line)
    ensures LinesTotal([a]) == LineTotal(a)
  {
    assert [a][..0] == [];
  }

  lemma LinesTotalTwo(a: Line, b: Line)
    ensures LinesTotal([a, b]) == LineTotal(a) + LineTotal(b)
  {
    assert [a, b][..1] == [a];
    LinesTotalOne(a);
  }

  lemma LinesTotalThree(a: Line, b: Line, c: Line)
    ensures LinesTotal([a, b, c]) == LineTotal(a) + LineTotal(b) + LineTotal(c)
  {
    assert [a, b, c][..2] == [a, b];
    LinesTotalTwo(a, b);
  }

  /**
   * The positions of the sample passing `p` are `want`, given the verdict
   * `b0` to `b4` of `p` on each sample order.
   */
  lemma SampleKept(p: Order -> bool, want: seq<nat>, b0: bool, b1: bool, b2: bool, b3: bool, b4: bool)
    requires p(Order1001) == b0 && p(Order1002) == b1 && p(Order1003) == b2
    requires p(Order1004) == b3 && p(Order1005) == b4
    requires StrictlyIncreasing(want) && forall k :: 0 <= k < |want| ==> want[k] < 5
    requires (b0 <==> 0 in want) && (b1 <==> 1 in want) && (b2 <==> 2 in want)
    requires (b3 <==> 3 in want) && (b4 <==> 4 in want)
    ensures Kept(SampleOrders, p) == want
  {
    assert p(SampleOrders[0]) <==> 0 in want;
    assert p(SampleOrders[1]) <==> 1 in want;
    assert p(SampleOrders[2]) <==> 2 in want;
    assert p(SampleOrders[3]) <==> 3 in want;
    assert p(SampleOrders[4]) <==> 4 in want;
    KeptExactly(SampleOrders, p, want);
  }

  /** The GMV of each sample order. */
  lemma SampleOrderGmvs()
    ensures Gmv(Order1001) == 70.0 && Gmv(Order1002) == 0.0 && Gmv(Order1003) == -15.0
    ensures Gmv(Order1004) == 16.0 && Gmv(Order1005) == 55.0
  {
    LinesTotalTwo(Line("PEN-RED", 3, 10.0), Line("USB-32GB", 2, 20.0));
    LinesTotalOne(Line("MOUSE", 1, -15.0));
    LinesTotalTwo(Line("PEN-RED", 2, 4.0), Line("NOTEBOOK", 1, 8.0));
    LinesTotalThree(Line("CABLE", 1, 25.0), Line("STAND", 1, 20.0), Line("MUG", 1, 10.0));
  }

  /** `$.orders[*].lines[*]` holds the eight lines, in order. */
  lemma SampleLineList()
    ensures AllLines(SampleOrders) == SampleLines
    ensures LineCount(SampleOrders) == 8
  {
    var s0: seq<Order> := [];
    var s1 := s0 + [Order1001];
    var s2 := s1 + [Order1002];
    var s3 := s2 + [Order1003];
    var s4 := s3 + [Order1004];
    assert SampleOrders == s4 + [Order1005];
    AllLinesSnoc(s0, Order1001);
    AllLinesSnoc(s1, Order1002);
    AllLinesSnoc(s2, Order1003);
    AllLinesSnoc(s3, Order1004);
    AllLinesSnoc(s4, Order1005);
  }

  // ---------------------------------------------------------------------
  // E-mails

  // One lemma per address: proving two literal addresses in one context
  // makes the solver unfold both patterns against each other.

  lemma AliceEmailMatches()
    ensures MatchesEmailPattern("alice@example.com")
  {
    var s := "alice@example.com";
    assert s[..5] == "alice" && s[6..13] == "example" && s[14..] == "com";
    assert EmailSplit(s, 5, 13);
    SplitMatchesPattern(s);
  }

  lemma DanEmailMatches()
    ensures MatchesEmailPattern("dan@example.org")
  {
    var s := "dan@example.org";
    assert s[..3] == "dan" && s[4..11] == "example" && s[12..] == "org";
    assert EmailSplit(s, 3, 11);
    SplitMatchesPattern(s);
  }

  lemma EveEmailMatches()
    ensures MatchesEmailPattern("eve@example.net")
  {
    var s := "eve@example.net";
    assert s[..3] == "eve" && s[4..11] == "example" && s[12..] == "net";
    assert EmailSplit(s, 3, 11);
    SplitMatchesPattern(s);
  }

  lemma BobEmailFails()
    ensures !MatchesEmailPattern("bob[at]example.com")
  {
  }

  /** Which sample orders have a present e-mail the regular expression rejects. */
  lemma MalformedVerdicts()
    ensures var p := OrdersTest.HasMalformedEmail;
      !p(Order1001) && p(Order1002) && !p(Order1003) && !p(Order1004) && !p(Order1005)
  {
    AliceEmailMatches();
    BobEmailFails();
    DanEmailMatches();
    EveEmailMatches();
  }

  lemma MalformedKept()
    ensures Kept(SampleOrders, OrdersTest.HasMalformedEmail) == [1]
  {
    MalformedVerdicts();
    SecondKept(OrdersTest.HasMalformedEmail);
  }

  /** Only bob's address fails the regular expression. */
  lemma SampleBadEmails()
    ensures FilterMap(SampleOrders, OrdersTest.HasMalformedEmail, OrdersTest.EmailOf) == ["bob[at]example.com"]
  {
    MalformedKept();
    FilterMapOfKept(SampleOrders, OrdersTest.HasMalformedEmail, OrdersTest.EmailOf, [1], ["bob[at]example.com"]);
  }

  /** Which sample orders have a missing or `@`-less e-mail. */
  lemma MissingOrLacksAtVerdicts()
    ensures var p := EmailMissingOrLacksAt;
      !p(Order1001) && p(Order1002) && p(Order1003) && !p(Order1004) && !p(Order1005)
  {
    assert "alice@example.com"[5] == '@' && "dan@example.org"[3] == '@' && "eve@example.net"[3] == '@';
  }

  lemma MissingOrLacksAtKept()
    ensures Kept(SampleOrders, EmailMissingOrLacksAt) == [1, 2]
  {
    MissingOrLacksAtVerdicts();
    SecondAndThirdKept(EmailMissingOrLacksAt);
  }

  /** A-1002 lacks `@` and A-1003 has no e-mail. */
  lemma SampleMissingOrInvalidEmailIds()
    ensures FilterMap(SampleOrders, EmailMissingOrLacksAt, OrdersTest.IdOf) == [Some("A-1002"), Some("A-1003")]
  {
    MissingOrLacksAtKept();
    FilterMapOfKept(SampleOrders, EmailMissingOrLacksAt, OrdersTest.IdOf, [1, 2], [Some("A-1002"), Some("A-1003")]);
  }

  // ---------------------------------------------------------------------
  // Payments and refunds

  /** Both PAID orders are captured. */
  lemma SampleAllCaptured()
    ensures OrdersTest.UncapturedPaidIds(SampleOrders) == []
  {
    assert forall i :: 0 <= i < |SampleOrders| ==> PaidCaptured(SampleOrders[i]);
  }

  /** Which sample orders are cancelled and refunded their line total. */
  lemma RefundVerdicts()
    ensures var p := OrdersTest.RefundedCorrectly;
      !p(Order1001) && !p(Order1002) && !p(Order1003) && p(Order1004) && !p(Order1005)
  {
    SampleOrderGmvs();
  }

  lemma RefundedKept()
    ensures Kept(SampleOrders, OrdersTest.RefundedCorrectly) == [3]
  {
    RefundVerdicts();
    FourthKept(OrdersTest.RefundedCorrectly);
  }

  /** Both cancelled orders carry lines and a refund, as the refund loop reads them unchecked. */
  lemma SampleCancelledComplete()
    ensures forall i :: 0 <= i < |SampleOrders| && SampleOrders[i].status == "CANCELLED" ==>
      SampleOrders[i].lines.Some? && SampleOrders[i].refund.Some?
  {
  }

  /** Only A-1004's refund equals its line total; A-1003 refunds 0 against -15. */
  lemma SampleCorrectlyRefunded()
    ensures FilterMap(SampleOrders, OrdersTest.RefundedCorrectly, OrdersTest.IdOf) == [Some("A-1004")]
  {
    RefundedKept();
    FilterMapOfKept(SampleOrders, OrdersTest.RefundedCorrectly, OrdersTest.IdOf, [3], [Some("A-1004")]);
  }

  // ---------------------------------------------------------------------
  // Aggregations

  /** The GMVs match the expected map within both tolerances. */
  lemma SampleGmv()
    ensures GmvWithin(SampleOrders, ExpectedGmv, OrdersTest.Delta)
    ensures GmvWithin(SampleOrders, ExpectedGmv, OrdersTest1.Delta)
  {
    SampleOrderGmvs();
  }

  /** Summing positive quantities per SKU gives the expected totals. */
  lemma SampleSkuTotals()
    ensures SkuTotals(AllLines(SampleOrders)) == ExpectedTotals
  {
    SampleLineList();
    SampleTotalsSecondHalf();
  }

  /** The totals after all eight sample lines. */
  lemma SampleTotalsSecondHalf()
    ensures SkuTotals(SampleLines) == ExpectedTotals
  {
    SampleTotalsSixLines();
    var l := SampleLines;
    SkuTotalsStep(l, 6);
    SkuTotalsStep(l, 7);
    assert l[..8] == l;
  }

  /** The totals after the first six sample lines. */
  lemma SampleTotalsSixLines()
    ensures SkuTotals(SampleLines[..6]) == map["PEN-RED" := 5, "USB-32GB" := 2, "MOUSE" := 1, "NOTEBOOK" := 1, "CABLE" := 1]
  {
    SampleTotalsFirstHalf();
    SkuTotalsStep(SampleLines, 4);
    SkuTotalsStep(SampleLines, 5);
  }

  /** The totals after the first four sample lines. */
  lemma SampleTotalsFirstHalf()
    ensures SkuTotals(SampleLines[..4]) == map["PEN-RED" := 5, "USB-32GB" := 2, "MOUSE" := 1]
  {
    var l := SampleLines;
    assert l[..0] == [];
    SkuTotalsStep(l, 0);
    SkuTotalsStep(l, 1);
    SkuTotalsStep(l, 2);
    SkuTotalsStep(l, 3);
  }

  /** Only PEN-RED and USB-32GB reach a total of 2 in the sample. */
  lemma ExpectedLeaders()
    ensures "PEN-RED" in ExpectedTotals && ExpectedTotals["PEN-RED"] == 5
    ensures "USB-32GB" in ExpectedTotals && ExpectedTotals["USB-32GB"] == 2
    ensures forall sku :: sku in ExpectedTotals && sku != "PEN-RED" && sku != "USB-32GB" ==> ExpectedTotals[sku] < 2
  {
  }

  /**
   * Whatever order the hash map enumerates the sample's totals in, the top
   * two are PEN-RED with 5 and USB-32GB with 2.
   */
  lemma SampleTopTwo(entries: seq<Entry>)
    requires Enumerates(entries, SkuTotals(AllLines(SampleOrders)))
    ensures TopSkus(entries, 2) == [("PEN-RED", 5), ("USB-32GB", 2)]
  {
    SampleSkuTotals();
    ExpectedLeaders();
    TopTwoOfClearLeaders(entries, ExpectedTotals, "PEN-RED", "USB-32GB");
  }

  // ---------------------------------------------------------------------
  // Validation and reports

  /** Every sample id has a character above U+0020. */
  lemma SampleIdsPresent()
    ensures OrdersTest.IdsPresent(SampleOrders)
  {
    assert "A-1001"[0] > ' ' && "A-1002"[0] > ' ' && "A-1003"[0] > ' ';
    assert "A-1004"[0] > ' ' && "A-1005"[0] > ' ';
  }

  /** Every sample status is allowed. */
  lemma SampleStatusesValid()
    ensures OrdersTest.StatusesValid(SampleOrders)
  {
  }

  /** No sample shipping fee is negative. */
  lemma SampleFeesNonNegative()
    ensures OrdersTest.ShippingFeesNonNegative(SampleOrders)
  {
  }

  /**
   * The sample carries the defects both reports list: A-1002 has no lines,
   * A-1003 a negative price and a refund 15 away from its line total.
   */
  lemma SampleFailsIntegrity()
    ensures OrdersTest.LineIntegrityOk(Order1001) && OrdersTest.LineIntegrityOk(Order1004)
    ensures OrdersTest.LineIntegrityOk(Order1005)
    ensures !OrdersTest.LineIntegrityOk(Order1002) && !OrdersTest.LineIntegrityOk(Order1003)
    ensures !OrdersTest.PaymentRefundOk(Order1003)
    ensures !OrdersTest.LineIntegrity(SampleOrders)
    ensures !OrdersTest.PaymentRefundConsistent(SampleOrders)
  {
    SampleOrderGmvs();
    assert SampleOrders[1] == Order1002 && SampleOrders[2] == Order1003;
  }

  lemma Order1001Clean()
    ensures !OrdersTest.IsProblem(Order1001)
  {
    assert "alice@example.com"[5] == '@';
    OrdersTest.ReasonsMeaning(Order1001);
  }

  lemma Order1002Flagged()
    ensures OrdersTest.IsProblem(Order1002)
  {
    OrdersTest.ReasonsMeaning(Order1002);
  }

  lemma Order1003Flagged()
    ensures OrdersTest.IsProblem(Order1003)
  {
    OrdersTest.ReasonsMeaning(Order1003);
  }

  lemma Order1004Clean()
    ensures !OrdersTest.IsProblem(Order1004)
  {
    assert "dan@example.org"[3] == '@';
    OrdersTest.ReasonsMeaning(Order1004);
  }

  lemma Order1005Clean()
    ensures !OrdersTest.IsProblem(Order1005)
  {
    assert "eve@example.net"[3] == '@';
    OrdersTest.ReasonsMeaning(Order1005);
  }

  /** OrdersTest's report lists exactly A-1002 and A-1003. */
  lemma SampleProblems()
    ensures Kept(SampleOrders, OrdersTest.IsProblem) == [1, 2]
  {
    Order1001Clean();
    Order1002Flagged();
    Order1003Flagged();
    Order1004Clean();
    Order1005Clean();
    SecondAndThirdKept(OrdersTest.IsProblem);
  }

  /** A test that flags only A-1002 keeps position 1. */
  lemma SecondKept(p: Order -> bool)
    requires !p(Order1001) && p(Order1002) && !p(Order1003) && !p(Order1004) && !p(Order1005)
    ensures Kept(SampleOrders, p) == [1]
  {
    SampleKept(p, [1], false, true, false, false, false);
  }

  /** A test that flags only A-1004 keeps position 3. */
  lemma FourthKept(p: Order -> bool)
    requires !p(Order1001) && !p(Order1002) && !p(Order1003) && p(Order1004) && !p(Order1005)
    ensures Kept(SampleOrders, p) == [3]
  {
    SampleKept(p, [3], false, false, false, true, false);
  }

  /** A test that flags only A-1002 and A-1003 keeps positions 1 and 2. */
  lemma SecondAndThirdKept(p: Order -> bool)
    requires !p(Order1001) && p(Order1002) && p(Order1003) && !p(Order1004) && !p(Order1005)
    ensures Kept(SampleOrders, p) == [1, 2]
  {
    SampleKept(p, [1, 2], false, true, true, false, false);
  }

  /** OrdersTest1's report lists the same two orders. */
  lemma SampleProblemsBothReports()
    ensures Kept(SampleOrders, OrdersTest1.IsProblem) == [1, 2]
  {
    SampleProblems();
    Variants.ProblemListsAlign(SampleOrders);
  }
}
