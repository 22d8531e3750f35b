/**
 * The rules of OrdersTest.java: ids non-blank after `trim()`, the e-mail
 * regular expression, strict line integrity, payment/refund consistency
 * with tolerance 0.001, the SKU top-2 ranking, GMV per order and the
 * string-reason summary report.
 */
module OrdersTest {
  import opened Wrappers
  import opened Text
  import opened Seqs
  import opened Records
  import opened Rules
  import opened Aggregation

  /** Tolerance of the refund and GMV comparisons in this class. */
  const Delta: real := 0.001

  function IdOf(o: Order): Option<string> {
    o.id
  }

  // ---------------------------------------------------------------------
  // Presence and format

  /** `id != null && !id.trim().isEmpty()`: some character lies above U+0020. */
  predicate IdPresent(id: Option<string>): (ok: bool)
    ensures ok <==> id.Some? && exists k :: 0 <= k < |id.value| && id.value[k] > ' '
  {
    id.Some? && Trim(id.value) != []
  }

  /** The id list is non-empty and every id is present. */
  predicate IdsPresent(orders: seq<Order>) {
    |orders| > 0 && forall i :: 0 <= i < |orders| ==> IdPresent(orders[i].id)
  }

  /** Every status reads as one of PAID, PENDING, CANCELLED. */
  predicate StatusesValid(orders: seq<Order>): (ok: bool)
    ensures ok <==> forall i :: 0 <= i < |orders| ==> ParseStatus(orders[i].status).Some?
  {
    forall i :: 0 <= i < |orders| ==> StatusAllowed(orders[i].status)
  }

  /** An order whose present e-mail fails the regular expression. */
  predicate HasMalformedEmail(o: Order) {
    o.customer.email.Some? && !MatchesEmailPattern(o.customer.email.value)
  }

  function EmailOf(o: Order): string {
    o.customer.email.GetOr("")
  }

  /** The loop that adds each malformed e-mail to `badOrders`, in input order. */
  method CollectBadEmails(orders: seq<Order>) returns (bad: seq<string>)
    ensures bad == FilterMap(orders, HasMalformedEmail, EmailOf)
  {
    bad := [];
    var i := 0;
    while i < |orders|
      invariant 0 <= i <= |orders|
      invariant bad == FilterMap(orders[..i], HasMalformedEmail, EmailOf)
    {
      assert orders[..i + 1][..i] == orders[..i];
      var email := orders[i].customer.email;
      if email.Some? && !MatchesEmailPattern(email.value) {
        bad := bad + [email.value];
      }
      i := i + 1;
    }
    assert orders[..i] == orders;
  }

  /**
   * An address is flagged iff some order carries it and the regular
   * expression rejects it; absent e-mails are never flagged.
   */
  lemma BadEmailsMeaning(orders: seq<Order>, e: string)
    ensures e in FilterMap(orders, HasMalformedEmail, EmailOf) <==>
      exists i :: 0 <= i < |orders| && orders[i].customer.email == Some(e) && !RegexMatchesEmail(e)
  {
    FilterMapMember(orders, HasMalformedEmail, EmailOf, e);
    EmailPatternIsRegex(e);
    if exists i :: 0 <= i < |orders| && orders[i].customer.email == Some(e) && !RegexMatchesEmail(e) {
      var i :| 0 <= i < |orders| && orders[i].customer.email == Some(e) && !RegexMatchesEmail(e);
      assert HasMalformedEmail(orders[i]) && EmailOf(orders[i]) == e;
    }
    if e in FilterMap(orders, HasMalformedEmail, EmailOf) {
      var i :| 0 <= i < |orders| && HasMalformedEmail(orders[i]) && EmailOf(orders[i]) == e;
      EmailPatternIsRegex(orders[i].customer.email.value);
    }
  }

  /** `sku != null && !sku.isEmpty()`, `qty > 0`, `price >= 0`. */
  predicate LineValid(l: Line) {
    |l.sku| > 0 && l.qty > 0 && l.price >= 0.0
  }

  /**
   * One order passes the line-integrity test: PAID/PENDING orders have
   * lines, and every line is valid. The line loop runs without a null
   * check, so an order of any status whose lines are null fails.
   */
  predicate LineIntegrityOk(o: Order) {
    && LinesRequired(o)
    && o.lines.Some?
    && forall j :: 0 <= j < |o.lines.value| ==> LineValid(o.lines.value[j])
  }

  predicate LineIntegrity(orders: seq<Order>) {
    forall i :: 0 <= i < |orders| ==> LineIntegrityOk(orders[i])
  }

  /**
   * One order passes the payment/refund test: PAID orders are captured, and
   * a CANCELLED order with non-empty lines is refunded their total within 0.001.
   */
  predicate PaymentRefundOk(o: Order) {
    && PaidCaptured(o)
    && (o.status == "CANCELLED" && !LinesMissingOrEmpty(o) ==> RefundMatches(o, Delta))
  }

  predicate PaymentRefundConsistent(orders: seq<Order>) {
    forall i :: 0 <= i < |orders| ==> PaymentRefundOk(orders[i])
  }

  predicate ShippingFeesNonNegative(orders: seq<Order>) {
    forall i :: 0 <= i < |orders| ==> ShippingFeeOk(orders[i])
  }

  // ---------------------------------------------------------------------
  // Extraction and aggregation

  /** The `totals.merge(sku, qty, Integer::sum)` loop over the positive-qty lines. */
  method SkuTotalsByMerge(lines: seq<Line>) returns (totals: map<string, int>)
    ensures totals == SkuTotals(lines)
  {
    totals := map[];
    var i := 0;
    while i < |lines|
      invariant 0 <= i <= |lines|
      invariant totals == SkuTotals(lines[..i])
    {
      assert lines[..i + 1][..i] == lines[..i];
      if lines[i].qty > 0 {
        totals := MergeAdd(totals, lines[i].sku, lines[i].qty);
      }
      i := i + 1;
    }
    assert lines[..i] == lines;
  }

  /**
   * The two SKUs with the largest totals: a ranking of the totals map in
   * its (unspecified) iteration order, at most two entries, non-increasing,
   * each a SKU with positive-qty lines and its summed quantity.
   */
  method TopTwoSkus(orders: seq<Order>) returns (top: seq<Entry>)
    ensures exists entries :: Enumerates(entries, SkuTotals(AllLines(orders))) && top == TopSkus(entries, 2)
    ensures |top| <= 2 && NonIncreasing(top)
    ensures forall j :: 0 <= j < |top| ==>
      HasPositiveLine(AllLines(orders), top[j].0) && top[j].1 == SkuQty(AllLines(orders), top[j].0)
  {
    var totals := SkuTotalsByMerge(AllLines(orders));
    var entries := EntriesOf(totals);
    top := TopSkus(entries, 2);
    RankedSkusArePositive(AllLines(orders), entries, 2);
  }

  /** The GMV test: every order's GMV is within 0.001 of its expected value. */
  method GmvPerOrderMatches(orders: seq<Order>, expected: map<string, real>) returns (ok: bool)
    ensures ok <==> GmvWithin(orders, expected, Delta)
  {
    ok := true;
    var i := 0;
    while i < |orders|
      invariant 0 <= i <= |orders|
      invariant ok <==> forall j :: 0 <= j < i ==> GmvMatches(orders[j], expected, Delta)
    {
      var gmv := OrderGmv(orders[i]);
      var id := orders[i].id;
      if !(id.Some? && id.value in expected && Within(expected[id.value], gmv, Delta)) {
        ok := false;
      }
      i := i + 1;
    }
  }

  /** The loop that adds the id of each order whose e-mail is null or lacks `@`. */
  method CollectMissingOrInvalidEmailIds(orders: seq<Order>) returns (badIds: seq<Option<string>>)
    ensures badIds == FilterMap(orders, EmailMissingOrLacksAt, IdOf)
  {
    badIds := [];
    var i := 0;
    while i < |orders|
      invariant 0 <= i <= |orders|
      invariant badIds == FilterMap(orders[..i], EmailMissingOrLacksAt, IdOf)
    {
      assert orders[..i + 1][..i] == orders[..i];
      var email := orders[i].customer.email;
      if email.None? || '@' !in email.value {
        badIds := badIds + [orders[i].id];
      }
      i := i + 1;
    }
    assert orders[..i] == orders;
  }

  /** A PAID order that is not (or cannot be shown to be) captured. */
  predicate PaidNotCaptured(o: Order) {
    !PaidCaptured(o)
  }

  /**
   * Ids of the PAID orders whose payment is not captured, in input order;
   * the list is empty exactly when every PAID order is captured.
   */
  function UncapturedPaidIds(orders: seq<Order>): (ids: seq<Option<string>>)
    ensures ids == [] <==> forall i :: 0 <= i < |orders| ==> PaidCaptured(orders[i])
    ensures forall id :: id in ids ==>
      exists i :: 0 <= i < |orders| && orders[i].id == id && orders[i].status == "PAID"
  {
    FilterMapEmpty(orders, PaidNotCaptured, IdOf);
    FilterMapSources(orders, PaidNotCaptured, IdOf);
    FilterMap(orders, PaidNotCaptured, IdOf)
  }

  /** A cancelled order whose refund is strictly within 0.001 of its line total. */
  predicate RefundedCorrectly(o: Order) {
    o.status == "CANCELLED" && o.refund.Some? && Abs(o.refund.value.amount - Gmv(o)) < Delta
  }

  /**
   * The loop over the cancelled orders that keeps the correctly refunded
   * ids. The source reads `lines` and `refund` of every cancelled order
   * without a null check, so both must be present.
   */
  method CorrectlyRefundedIds(orders: seq<Order>) returns (validIds: seq<Option<string>>)
    requires forall i :: 0 <= i < |orders| && orders[i].status == "CANCELLED" ==>
      orders[i].lines.Some? && orders[i].refund.Some?
    ensures validIds == FilterMap(orders, RefundedCorrectly, IdOf)
  {
    validIds := [];
    var i := 0;
    while i < |orders|
      invariant 0 <= i <= |orders|
      invariant validIds == FilterMap(orders[..i], RefundedCorrectly, IdOf)
    {
      assert orders[..i + 1][..i] == orders[..i];
      var o := orders[i];
      if o.status == "CANCELLED" {
        var sum := SumLineTotals(o.lines.value);
        var refund := o.refund.value.amount;
        if Abs(refund - sum) < Delta {
          validIds := validIds + [o.id];
        }
      }
      i := i + 1;
    }
    assert orders[..i] == orders;
  }

  /**
   * A correctly refunded order also passes the payment/refund test's
   * refund rule; the converse fails only at a difference of exactly 0.001.
   */
  lemma RefundedCorrectlyIsConsistent(o: Order)
    ensures RefundedCorrectly(o) ==> RefundMatches(o, Delta)
    ensures o.status == "CANCELLED" && RefundMatches(o, Delta) && !RefundedCorrectly(o) ==>
      Abs(o.refund.value.amount - Gmv(o)) == Delta
  {
    if o.refund.Some? {
      var d := o.refund.value.amount - Gmv(o);
      assert Gmv(o) - o.refund.value.amount == -d;
    }
  }

  // ---------------------------------------------------------------------
  // Reporting

  /** The reason fragments appended to `reason`. */
  datatype Reason = InvalidEmail | EmptyLines | BadLineData {
    function Text(): string {
      match this
      case InvalidEmail => " invalid email;"
      case EmptyLines => " empty lines;"
      case BadLineData => " bad line data;"
    }
  }

  /** `qty <= 0 || price < 0`. */
  predicate IsBadLine(l: Line) {
    l.qty <= 0 || l.price < 0.0
  }

  function BadLineReason(l: Line): Reason {
    BadLineData
  }

  /** The reasons recorded for one order, in the order the source appends them. */
  function Reasons(o: Order): seq<Reason> {
    (if EmailMissingOrLacksAt(o) then [InvalidEmail] else [])
    + (if LinesMissingOrEmpty(o) && o.status != "CANCELLED" then [EmptyLines] else [])
    + FilterMap(LinesOf(o), IsBadLine, BadLineReason)
  }

  /** The reason-building steps for one order, with the loop over its lines. */
  method OrderReasons(o: Order) returns (reasons: seq<Reason>)
    ensures reasons == Reasons(o)
  {
    reasons := [];
    if o.customer.email.None? || '@' !in o.customer.email.value {
      reasons := reasons + [InvalidEmail];
    }
    if (o.lines.None? || o.lines.value == []) && o.status != "CANCELLED" {
      reasons := reasons + [EmptyLines];
    }
    if o.lines.Some? {
      var bad := BadLineReasons(o.lines.value);
      reasons := reasons + bad;
    }
  }

  /** The loop over one order's lines: one "bad line data" per line with qty <= 0 or price < 0. */
  method BadLineReasons(lines: seq<Line>) returns (reasons: seq<Reason>)
    ensures reasons == FilterMap(lines, IsBadLine, BadLineReason)
  {
    reasons := [];
    var j := 0;
    while j < |lines|
      invariant 0 <= j <= |lines|
      invariant reasons == FilterMap(lines[..j], IsBadLine, BadLineReason)
    {
      assert lines[..j + 1][..j] == lines[..j];
      if lines[j].qty <= 0 || lines[j].price < 0.0 {
        reasons := reasons + [BadLineData];
      }
      j := j + 1;
    }
    assert lines[..j] == lines;
  }

  /**
   * An order is a problem iff a reason applies: its e-mail is null or lacks
   * `@`, it has no lines and is not CANCELLED, or one of its lines is bad;
   * each bad line contributes exactly one reason.
   */
  lemma ReasonsMeaning(o: Order)
    ensures Reasons(o) != [] <==>
      || EmailMissingOrLacksAt(o)
      || (LinesMissingOrEmpty(o) && o.status != "CANCELLED")
      || exists j :: 0 <= j < |LinesOf(o)| && IsBadLine(LinesOf(o)[j])
    ensures multiset(Reasons(o))[BadLineData] == Count(LinesOf(o), IsBadLine)
  {
    var tail := FilterMap(LinesOf(o), IsBadLine, BadLineReason);
    FilterMapEmpty(LinesOf(o), IsBadLine, BadLineReason);
    assert forall k :: 0 <= k < |tail| ==> tail[k] == BadLineData;
    AllSameMultiplicity(tail, BadLineData);
  }

  /** The "invalid email" reason is recorded exactly for a null or `@`-less e-mail. */
  lemma InvalidEmailReason(o: Order)
    ensures InvalidEmail in Reasons(o) <==> EmailMissingOrLacksAt(o)
  {
    var tail := FilterMap(LinesOf(o), IsBadLine, BadLineReason);
    assert forall k :: 0 <= k < |tail| ==> tail[k] == BadLineData;
    assert InvalidEmail !in tail;
  }

  /**
   * An order that passes the line-integrity and status tests can only be
   * reported for its e-mail.
   */
  lemma IntegrityLeavesOnlyEmailReason(o: Order)
    requires LineIntegrityOk(o) && StatusAllowed(o.status)
    ensures Reasons(o) == if EmailMissingOrLacksAt(o) then [InvalidEmail] else []
  {
    var lines := o.lines.value;
    forall j | 0 <= j < |lines| ensures !IsBadLine(lines[j]) {
      assert LineValid(lines[j]);
    }
    FilterMapEmpty(lines, IsBadLine, BadLineReason);
  }

  /** A sequence of equal elements holds that element once per position. */
  lemma {:induction false} AllSameMultiplicity(s: seq<Reason>, x: Reason)
    requires forall k :: 0 <= k < |s| ==> s[k] == x
    ensures multiset(s)[x] == |s|
  {
    if s != [] {
      assert s == s[..|s| - 1] + [x];
      AllSameMultiplicity(s[..|s| - 1], x);
    }
  }

  predicate IsProblem(o: Order) {
    Reasons(o) != []
  }

  /** An entry of `problematic`: the id and its reasons. */
  datatype Problem = Problem(id: Option<string>, reasons: seq<Reason>)

  function ProblemOf(o: Order): Problem {
    Problem(o.id, Reasons(o))
  }

  /** The loop that appends `id => reasons` for every order with a reason. */
  method CollectProblems(orders: seq<Order>) returns (problematic: seq<Problem>)
    ensures problematic == FilterMap(orders, IsProblem, ProblemOf)
  {
    problematic := [];
    var i := 0;
    while i < |orders|
      invariant 0 <= i <= |orders|
      invariant problematic == FilterMap(orders[..i], IsProblem, ProblemOf)
    {
      assert orders[..i + 1][..i] == orders[..i];
      var reason := OrderReasons(orders[i]);
      assert IsProblem(orders[i]) <==> reason != [];
      assert ProblemOf(orders[i]) == Problem(orders[i].id, reason);
      if reason != [] {
        problematic := problematic + [Problem(orders[i].id, reason)];
      }
      i := i + 1;
    }
    assert orders[..i] == orders;
  }

  /** The printed summary: `Orders: %d, Lines: %d, Invalid: %d, Problems: %s`. */
  datatype Summary = Summary(orders: nat, lines: nat, invalid: nat, problems: seq<Problem>)

  /**
   * The summary report: the order count, the flattened line count (the sum
   * of the line-list lengths), and one entry per problem order in input
   * order, whose number is the Invalid count.
   */
  method BuildSummary(orders: seq<Order>) returns (s: Summary)
    ensures s.orders == |orders|
    ensures s.lines == LineCount(orders)
    ensures s.problems == FilterMap(orders, IsProblem, ProblemOf)
    ensures s.invalid == |s.problems| == Count(orders, IsProblem)
  {
    var totalLineItems := |AllLines(orders)|;
    AllLinesCount(orders);
    var problematic := CollectProblems(orders);
    s := Summary(|orders|, totalLineItems, |problematic|, problematic);
  }
}
