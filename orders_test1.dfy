/**
 * The rules of OrdersTest1.java, written as for-loops over the orders:
 * ids non-blank by `isBlank()`, e-mails checked by `contains("@")`, line
 * checks only where lines are present, refunds within 0.01, SKU totals by
 * `getOrDefault`, GMV within 0.01 and the issue-list summary report.
 */
module OrdersTest1 {
  import opened Wrappers
  import opened Text
  import opened Seqs
  import opened Records
  import opened Rules
  import opened Aggregation

  /** Tolerance of the refund and GMV comparisons in this class. */
  const Delta: real := 0.01

  // ---------------------------------------------------------------------
  // Presence and format

  /** `id != null && !id.isBlank()`: some character is not Java white space. */
  predicate IdNotBlank(id: Option<string>): (ok: bool)
    ensures ok <==> id.Some? && exists k :: 0 <= k < |id.value| && !IsJavaWhitespace(id.value[k])
  {
    id.Some? && !IsBlank(id.value)
  }

  /** The two loops asserting every id non-null and not blank, and every status allowed. */
  method CheckIdsAndStatuses(orders: seq<Order>) returns (ok: bool)
    ensures ok <==> forall i :: 0 <= i < |orders| ==>
      IdNotBlank(orders[i].id) && ParseStatus(orders[i].status).Some?
  {
    ok := true;
    var i := 0;
    while i < |orders|
      invariant 0 <= i <= |orders|
      invariant ok <==> forall j :: 0 <= j < i ==> IdNotBlank(orders[j].id)
    {
      var id := orders[i].id;
      if id.None? || IsBlank(id.value) {
        ok := false;
      }
      i := i + 1;
    }
    i := 0;
    ghost var idsOk := ok;
    while i < |orders|
      invariant 0 <= i <= |orders|
      invariant ok <==> idsOk && forall j :: 0 <= j < i ==> ParseStatus(orders[j].status).Some?
    {
      if !StatusAllowed(orders[i].status) {
        ok := false;
      }
      i := i + 1;
    }
  }

  /** The loop asserting that every present e-mail contains `@`; absent ones pass. */
  method CheckCustomerEmails(orders: seq<Order>) returns (ok: bool)
    ensures ok <==> forall i :: 0 <= i < |orders| ==>
      (orders[i].customer.email.Some? ==> '@' in orders[i].customer.email.value)
  {
    ok := true;
    var i := 0;
    while i < |orders|
      invariant 0 <= i <= |orders|
      invariant ok <==> forall j :: 0 <= j < i ==>
        orders[j].customer.email.Some? ==> '@' in orders[j].customer.email.value
    {
      var email := orders[i].customer.email;
      if email.Some? && '@' !in email.value {
        ok := false;
      }
      i := i + 1;
    }
  }

  // ---------------------------------------------------------------------
  // Lines and payments

  /** `qty > 0` and `price >= 0`; the sku is not checked here. */
  predicate LineAmountsOk(l: Line) {
    l.qty > 0 && l.price >= 0.0
  }

  /** The line part of the test: PAID/PENDING orders have lines, and present lines have valid amounts. */
  predicate LinesOk(o: Order) {
    && LinesRequired(o)
    && (o.lines.Some? ==> forall j :: 0 <= j < |o.lines.value| ==> LineAmountsOk(o.lines.value[j]))
  }

  /**
   * One order passes the lines-and-payments test: its id is not null (the
   * loop calls `toString()` on it), PAID/PENDING orders have lines, present
   * lines have valid amounts, PAID orders are captured, and a CANCELLED
   * order with lines present, even empty ones, is refunded their total
   * within 0.01.
   */
  predicate LinesAndPaymentOk(o: Order) {
    && o.id.Some?
    && LinesOk(o)
    && PaidCaptured(o)
    && (o.status == "CANCELLED" && o.lines.Some? ==> RefundMatches(o, Delta))
  }

  /**
   * A cancelled order whose line list is present but empty has a line
   * total of 0, so it passes only with a refund of at most 0.01 in size.
   */
  lemma EmptyCancelledNeedsNearZeroRefund(o: Order)
    requires o.status == "CANCELLED" && o.lines == Some([])
    ensures LinesAndPaymentOk(o) <==> o.id.Some? && o.refund.Some? && Abs(o.refund.value.amount) <= Delta
  {
    assert Gmv(o) == 0.0;
    if o.refund.Some? {
      assert Abs(0.0 - o.refund.value.amount) == Abs(o.refund.value.amount);
    }
  }

  /** The body of the lines-and-payments loop for one order. */
  method CheckOrderLinesAndPayment(o: Order) returns (ok: bool)
    ensures ok <==> LinesAndPaymentOk(o)
  {
    ok := o.id.Some?;
    if (o.status == "PAID" || o.status == "PENDING") && (o.lines.None? || o.lines.value == []) {
      ok := false;
    }
    if o.lines.Some? {
      var lines := o.lines.value;
      var j := 0;
      ghost var before := ok;
      while j < |lines|
        invariant 0 <= j <= |lines|
        invariant ok <==> before && forall k :: 0 <= k < j ==> LineAmountsOk(lines[k])
      {
        if !(lines[j].qty > 0 && lines[j].price >= 0.0) {
          ok := false;
        }
        j := j + 1;
      }
    }
    if o.status == "PAID" && !(o.payment.Some? && o.payment.value.captured) {
      ok := false;
    }
    if o.status == "CANCELLED" && o.lines.Some? {
      var total := SumLineTotals(o.lines.value);
      if !(o.refund.Some? && Within(total, o.refund.value.amount, Delta)) {
        ok := false;
      }
    }
  }

  method CheckLinesAndPayments(orders: seq<Order>) returns (ok: bool)
    ensures ok <==> forall i :: 0 <= i < |orders| ==> LinesAndPaymentOk(orders[i])
  {
    ok := true;
    var i := 0;
    while i < |orders|
      invariant 0 <= i <= |orders|
      invariant ok <==> forall j :: 0 <= j < i ==> LinesAndPaymentOk(orders[j])
    {
      var orderOk := CheckOrderLinesAndPayment(orders[i]);
      if !orderOk {
        ok := false;
      }
      i := i + 1;
    }
  }

  /** The loop asserting every shipping fee non-negative. */
  method CheckShippingFees(orders: seq<Order>) returns (ok: bool)
    ensures ok <==> forall i :: 0 <= i < |orders| ==> orders[i].shipping.fee >= 0.0
  {
    ok := true;
    var i := 0;
    while i < |orders|
      invariant 0 <= i <= |orders|
      invariant ok <==> forall j :: 0 <= j < i ==> ShippingFeeOk(orders[j])
    {
      if orders[i].shipping.fee < 0.0 {
        ok := false;
      }
      i := i + 1;
    }
  }

  // ---------------------------------------------------------------------
  // Aggregation

  /** `totals.put(sku, totals.getOrDefault(sku, 0) + qty)`. */
  function PutGetOrDefault(totals: map<string, int>, sku: string, qty: int): (r: map<string, int>)
    ensures r == MergeAdd(totals, sku, qty)
  {
    totals[sku := (if sku in totals then totals[sku] else 0) + qty]
  }

  /** The accumulation loop of the top-SKU test: the same map as `merge` builds. */
  method SkuTotalsByGetOrDefault(lines: seq<Line>) returns (totals: map<string, int>)
    ensures totals == SkuTotals(lines)
  {
    totals := map[];
    var i := 0;
    while i < |lines|
      invariant 0 <= i <= |lines|
      invariant totals == SkuTotals(lines[..i])
    {
      assert lines[..i + 1][..i] == lines[..i];
      var qty := lines[i].qty;
      if qty > 0 {
        totals := PutGetOrDefault(totals, lines[i].sku, qty);
      }
      i := i + 1;
    }
    assert lines[..i] == lines;
  }

  /**
   * The GMV test: every order's GMV is within 0.01 of its expected value
   * (a null id fails, as `toString()` is called on it).
   */
  method GmvPerOrderMatches(orders: seq<Order>, expected: map<string, real>) returns (ok: bool)
    ensures ok <==> GmvWithin(orders, expected, Delta)
  {
    ok := true;
    var i := 0;
    while i < |orders|
      invariant 0 <= i <= |orders|
      invariant ok <==> forall j :: 0 <= j < i ==> GmvMatches(orders[j], expected, Delta)
    {
      var id := orders[i].id;
      var gmv := 0.0;
      if orders[i].lines.Some? {
        gmv := SumLineTotals(orders[i].lines.value);
      }
      if !(id.Some? && id.value in expected && Within(expected[id.value], gmv, Delta)) {
        ok := false;
      }
      i := i + 1;
    }
  }

  // ---------------------------------------------------------------------
  // Reporting

  /** The issue strings added to `issues`. */
  datatype Issue = BadEmail | EmptyLines | BadQty | BadPrice {
    function Text(): string {
      match this
      case BadEmail => "bad email"
      case EmptyLines => "empty lines"
      case BadQty => "bad qty"
      case BadPrice => "bad price"
    }
  }

  /** One line adds "bad qty" if qty <= 0 and, independently, "bad price" if price < 0. */
  function LineIssues(l: Line): seq<Issue> {
    (if l.qty <= 0 then [BadQty] else []) + (if l.price < 0.0 then [BadPrice] else [])
  }

  function LinesIssues(lines: seq<Line>): seq<Issue> {
    if lines == [] then []
    else LinesIssues(lines[..|lines| - 1]) + LineIssues(lines[|lines| - 1])
  }

  /** The issues recorded for one order, in the order the source adds them. */
  function Issues(o: Order): seq<Issue> {
    (if EmailMissingOrLacksAt(o) then [BadEmail] else [])
    + (if LinesMissingOrEmpty(o) && o.status != "CANCELLED" then [EmptyLines] else [])
    + LinesIssues(LinesOf(o))
  }

  /** The issue-building steps for one order, with the loop over its lines. */
  method OrderIssues(o: Order) returns (issues: seq<Issue>)
    ensures issues == Issues(o)
  {
    issues := [];
    if o.customer.email.None? || '@' !in o.customer.email.value {
      issues := issues + [BadEmail];
    }
    if (o.lines.None? || o.lines.value == []) && o.status != "CANCELLED" {
      issues := issues + [EmptyLines];
    }
    if o.lines.Some? {
      var bad := LineIssuesOf(o.lines.value);
      issues := issues + bad;
    }
  }

  /** The loop over one order's lines, adding "bad qty" and "bad price" per line. */
  method LineIssuesOf(lines: seq<Line>) returns (issues: seq<Issue>)
    ensures issues == LinesIssues(lines)
  {
    issues := [];
    var j := 0;
    while j < |lines|
      invariant 0 <= j <= |lines|
      invariant issues == LinesIssues(lines[..j])
    {
      assert lines[..j + 1][..j] == lines[..j];
      if lines[j].qty <= 0 {
        issues := issues + [BadQty];
      }
      if lines[j].price < 0.0 {
        issues := issues + [BadPrice];
      }
      j := j + 1;
    }
    assert lines[..j] == lines;
  }

  predicate NonPositiveQty(l: Line) {
    l.qty <= 0
  }

  predicate NegativePrice(l: Line) {
    l.price < 0.0
  }

  /**
   * The line issues hold one "bad qty" per line with qty <= 0 and one
   * "bad price" per line with price < 0, and nothing else.
   */
  lemma {:induction false} LinesIssuesCount(lines: seq<Line>)
    ensures multiset(LinesIssues(lines))[BadQty] == Count(lines, NonPositiveQty)
    ensures multiset(LinesIssues(lines))[BadPrice] == Count(lines, NegativePrice)
    ensures multiset(LinesIssues(lines))[BadEmail] == 0 && multiset(LinesIssues(lines))[EmptyLines] == 0
  {
    if lines != [] {
      LinesIssuesCount(lines[..|lines| - 1]);
      IssueCountsStep(lines);
    }
  }

  /** The issue counts stay in step with the line counts when the last line is visited. */
  lemma IssueCountsStep(lines: seq<Line>)
    requires lines != []
    requires var front := lines[..|lines| - 1];
      && multiset(LinesIssues(front))[BadQty] == Count(front, NonPositiveQty)
      && multiset(LinesIssues(front))[BadPrice] == Count(front, NegativePrice)
      && multiset(LinesIssues(front))[BadEmail] == 0 && multiset(LinesIssues(front))[EmptyLines] == 0
    ensures multiset(LinesIssues(lines))[BadQty] == Count(lines, NonPositiveQty)
    ensures multiset(LinesIssues(lines))[BadPrice] == Count(lines, NegativePrice)
    ensures multiset(LinesIssues(lines))[BadEmail] == 0 && multiset(LinesIssues(lines))[EmptyLines] == 0
  {
    var n := |lines| - 1;
    IssueCountSplit(lines, BadQty);
    IssueCountSplit(lines, BadPrice);
    IssueCountSplit(lines, BadEmail);
    IssueCountSplit(lines, EmptyLines);
    LineIssuesCount(lines[n]);
    assert Kept(lines, NonPositiveQty) == Kept(lines[..n], NonPositiveQty) + (if NonPositiveQty(lines[n]) then [n] else []);
    assert Kept(lines, NegativePrice) == Kept(lines[..n], NegativePrice) + (if NegativePrice(lines[n]) then [n] else []);
  }

  /** The last line adds its own issues to the count of each kind. */
  lemma IssueCountSplit(lines: seq<Line>, x: Issue)
    requires lines != []
    ensures multiset(LinesIssues(lines))[x]
      == multiset(LinesIssues(lines[..|lines| - 1]))[x] + multiset(LineIssues(lines[|lines| - 1]))[x]
  {
  }

  /** One line adds one "bad qty" exactly when qty <= 0, one "bad price" exactly when price < 0. */
  lemma LineIssuesCount(l: Line)
    ensures multiset(LineIssues(l))[BadQty] == if NonPositiveQty(l) then 1 else 0
    ensures multiset(LineIssues(l))[BadPrice] == if NegativePrice(l) then 1 else 0
    ensures multiset(LineIssues(l))[BadEmail] == 0 && multiset(LineIssues(l))[EmptyLines] == 0
  {
  }

  /** A line that adds at least one issue: qty <= 0 or price < 0. */
  predicate HasBadAmount(l: Line) {
    l.qty <= 0 || l.price < 0.0
  }

  /**
   * An order has issues iff its e-mail is null or lacks `@`, it has no lines
   * and is not CANCELLED, or one of its lines has qty <= 0 or price < 0.
   */
  lemma IssuesMeaning(o: Order)
    ensures Issues(o) != [] <==>
      || EmailMissingOrLacksAt(o)
      || (LinesMissingOrEmpty(o) && o.status != "CANCELLED")
      || exists j :: 0 <= j < |LinesOf(o)| && HasBadAmount(LinesOf(o)[j])
  {
    LinesIssuesNonEmpty(LinesOf(o));
  }

  /** Some line has an issue iff one line has qty <= 0 or price < 0. */
  lemma {:induction false} LinesIssuesNonEmpty(lines: seq<Line>)
    ensures LinesIssues(lines) != [] <==> exists j :: 0 <= j < |lines| && HasBadAmount(lines[j])
  {
    if lines != [] {
      var n := |lines| - 1;
      var front := lines[..n];
      LinesIssuesNonEmpty(front);
      assert LinesIssues(lines) == LinesIssues(front) + LineIssues(lines[n]);
      assert LineIssues(lines[n]) != [] <==> HasBadAmount(lines[n]);
      if LinesIssues(front) != [] {
        var j :| 0 <= j < n && HasBadAmount(front[j]);
        assert front[j] == lines[j];
      }
      if exists j :: 0 <= j < |lines| && HasBadAmount(lines[j]) {
        var j :| 0 <= j < |lines| && HasBadAmount(lines[j]);
        if j < n {
          assert front[j] == lines[j];
        }
      }
    }
  }

  predicate IsProblem(o: Order) {
    Issues(o) != []
  }

  /** An entry of `problems`: `id -> issues`. */
  datatype Problem = Problem(id: string, issues: seq<Issue>)

  function ProblemOf(o: Order): Problem {
    Problem(o.id.GetOr(""), Issues(o))
  }

  /** The body of the report loop for one order: its issues, and the entry `id -> issues`. */
  method ProblemEntry(o: Order) returns (isProblem: bool, entry: Problem)
    requires o.id.Some?
    ensures isProblem == IsProblem(o)
    ensures entry == ProblemOf(o)
  {
    var issues := OrderIssues(o);
    isProblem := issues != [];
    entry := Problem(o.id.value, issues);
  }

  /** The loop that adds `id -> issues` for every order with an issue. */
  method CollectProblems(orders: seq<Order>) returns (problems: seq<Problem>)
    requires forall i :: 0 <= i < |orders| ==> orders[i].id.Some?
    ensures problems == FilterMap(orders, IsProblem, ProblemOf)
  {
    problems := [];
    var i := 0;
    while i < |orders|
      invariant 0 <= i <= |orders|
      invariant problems == FilterMap(orders[..i], IsProblem, ProblemOf)
    {
      var isProblem, entry := ProblemEntry(orders[i]);
      FilterMapStep(orders, i, IsProblem, ProblemOf, problems, isProblem, entry);
      if isProblem {
        problems := problems + [entry];
      }
      i := i + 1;
    }
    assert orders[..i] == orders;
  }

  /** The printed summary: `Orders=..., Items=..., Problems=[...]`. */
  datatype Summary = Summary(orders: nat, items: nat, problems: seq<Problem>)

  /**
   * The summary report: the order count, the flattened line count, and the
   * problem entries in input order. Every id is read with `toString()`, so
   * none may be null.
   */
  method BuildSummary(orders: seq<Order>) returns (s: Summary)
    requires forall i :: 0 <= i < |orders| ==> orders[i].id.Some?
    ensures s.orders == |orders|
    ensures s.items == LineCount(orders)
    ensures s.problems == FilterMap(orders, IsProblem, ProblemOf)
    ensures |s.problems| == Count(orders, IsProblem)
  {
    var totalItems := |AllLines(orders)|;
    AllLinesCount(orders);
    var problems := CollectProblems(orders);
    s := Summary(|orders|, totalItems, problems);
  }
}
