/**
 * The typed order record both test classes read out of `orders.json`, and
 * the derived quantities every rule uses: the lines of an order, a line's
 * total, the flattened line list of a whole order set.
 */
module Records {
  import opened Wrappers

  /** One line item. A missing sku is represented by the empty string. */
  datatype Line = Line(sku: string, qty: int, price: real)

  datatype Customer = Customer(email: Option<string>)

  datatype Payment = Payment(captured: bool)

  datatype Refund = Refund(amount: real)

  datatype Shipping = Shipping(fee: real)

  /**
   * An order as loaded: `id`, the customer's `email`, `lines`, `payment` and
   * `refund` may be absent, which is distinct from present-but-empty.
   */
  datatype Order = Order(
    id: Option<string>,
    status: string,
    customer: Customer,
    lines: Option<seq<Line>>,
    payment: Option<Payment>,
    refund: Option<Refund>,
    shipping: Shipping)

  /** The three statuses the test classes accept. */
  datatype Status = Paid | Pending | Cancelled {
    function Name(): string {
      match this
      case Paid => "PAID"
      case Pending => "PENDING"
      case Cancelled => "CANCELLED"
    }
  }

  /** `Set.of("PAID", "PENDING", "CANCELLED").contains(st)`. */
  predicate StatusAllowed(st: string) {
    st in {"PAID", "PENDING", "CANCELLED"}
  }

  /** Reads a status string into the enumeration; unknown strings give `None`. */
  function ParseStatus(st: string): (r: Option<Status>)
    ensures r.Some? <==> StatusAllowed(st)
    ensures r.Some? ==> r.value.Name() == st
  {
    if st == "PAID" then Some(Paid)
    else if st == "PENDING" then Some(Pending)
    else if st == "CANCELLED" then Some(Cancelled)
    else None
  }

  /** Every status survives a round trip through its name. */
  lemma StatusNameRoundTrip(s: Status)
    ensures ParseStatus(s.Name()) == Some(s)
  {
  }

  /** The lines of an order, with absent lines read as none. */
  function LinesOf(o: Order): seq<Line> {
    if o.lines.Some? then o.lines.value else []
  }

  /** `lines == null || lines.isEmpty()`. */
  predicate LinesMissingOrEmpty(o: Order) {
    o.lines.None? || o.lines.value == []
  }

  /** `qty * price`, the int widened to a double as Java does. */
  function LineTotal(l: Line): real {
    l.qty as real * l.price
  }

  /** Sum of the line totals, accumulated from the first line to the last. */
  function LinesTotal(lines: seq<Line>): real {
    if lines == [] then 0.0
    else LinesTotal(lines[..|lines| - 1]) + LineTotal(lines[|lines| - 1])
  }

  /** The sum over a concatenation splits into the sums of its parts. */
  lemma {:induction false} LinesTotalAppend(a: seq<Line>, b: seq<Line>)
    ensures LinesTotal(a + b) == LinesTotal(a) + LinesTotal(b)
  {
    if b == [] {
      assert a + b == a;
    } else {
      var n := |b| - 1;
      assert (a + b)[..|a + b| - 1] == a + b[..n];
      LinesTotalAppend(a, b[..n]);
    }
  }

  /** Gross merchandise value of one order; an order without lines has 0. */
  function Gmv(o: Order): real {
    LinesTotal(LinesOf(o))
  }

  /** `$.orders[*].lines[*]`: every line of every order, in order. */
  function AllLines(orders: seq<Order>): seq<Line> {
    if orders == [] then []
    else AllLines(orders[..|orders| - 1]) + LinesOf(orders[|orders| - 1])
  }

  /** Sum of the line-list lengths, absent lists counting 0. */
  function LineCount(orders: seq<Order>): nat {
    if orders == [] then 0
    else LineCount(orders[..|orders| - 1]) + |LinesOf(orders[|orders| - 1])|
  }

  /** The flattened list holds exactly as many lines as the orders list. */
  lemma {:induction false} AllLinesCount(orders: seq<Order>)
    ensures |AllLines(orders)| == LineCount(orders)
  {
    if orders != [] {
      AllLinesCount(orders[..|orders| - 1]);
    }
  }

  /** `Math.abs(x)`. */
  function Abs(x: real): (r: real)
    ensures r >= 0.0 && (r == x || r == -x)
  {
    if x < 0.0 then -x else x
  }

  /** JUnit's `assertEquals(expected, actual, delta)` passes: |expected - actual| <= delta. */
  predicate Within(expected: real, actual: real, delta: real) {
    Abs(expected - actual) <= delta
  }
}
