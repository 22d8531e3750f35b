# Order validation and aggregation engine, in Dafny

This project models the rule logic contained in two JUnit classes,
`OrdersTest` and `OrdersTest1`. Both read a set of orders from JSON. Each
order has an id, a status (`PAID`, `PENDING` or `CANCELLED`), a customer
e-mail, a list of lines (sku, quantity, price), a payment, a refund and a
shipping fee. The two classes check the orders against the same business
rules, worded slightly differently, and aggregate them:

- field checks: the id is present and not blank, the status is allowed,
  the e-mail is well formed, every line is valid, the shipping fee is not
  negative;
- cross-field checks: PAID and PENDING orders have lines, PAID orders are
  captured, a CANCELLED order is refunded the sum of its line totals
  within a tolerance;
- aggregations: the flattened line count, the gross merchandise value
  (GMV) of each order, per-SKU quantity totals over positive quantities,
  and the two best-selling SKUs;
- a summary report listing every order with a problem and why.

Orders are typed values. The id, the e-mail, the line list, the payment
and the refund, which the code tests for null or reads from optional
JSON entries, are `Option`s. The status, the customer, the shipping fee,
the captured flag and the refund amount are plain fields. Money is
`real`, so each tolerance check is an exact inequality. The loops that
build a list, a map, a count or a report are methods whose postcondition
ties the result to a specification function. The pass/fail loops of
`testLineIntegrity` and `testPymtRefundConsistency` are predicates over the
order list. The properties the tests rely on are lemmas over those
functions.

Files, in dependency order:

- `wrappers.dfy`: the `Option` type.
- `seqs.dfy`: `FilterMap`, the order-preserving filter-and-map that every
  "collect the ids of the orders that…" loop computes, and `Kept`, the
  positions it keeps.
- `text.dfy`: Java's `trim()` and `isBlank()`, and the e-mail regular
  expression written as a string predicate.
- `records.dfy`: the order record, line totals, GMV and the flattened line
  list.
- `rules.dfy`: the per-order rules both classes state alike.
- `aggregation.dfy`: the GMV loop, SKU totals, and the ranking.
- `orders_test.dfy`: the rules and loops of `OrdersTest` (tolerance 0.001).
- `orders_test1.dfy`: the rules and loops of `OrdersTest1` (tolerance 0.01).
- `variants.dfy`: where the two classes agree and where they part, with
  an order that separates them for each difference.
- `fixture.dfy`: a sample order set that meets every value the tests hard-code.

Where the two classes differ, each variant is modelled on its own:

- id blankness: `trim()` in `OrdersTest` versus `isBlank()` in `OrdersTest1`;
- e-mail format: the regular expression versus `contains("@")`;
- null lines: `OrdersTest` iterates lines without a null check, so null
  lines fail every order;
- refunds: `OrdersTest` checks only when the lines are non-empty;
  `OrdersTest1` checks whenever lines are present, even if empty;
- the refund and GMV tolerances: 0.001 versus 0.01.

A null dereference in a check counts as that check failing. For example,
a PAID order without a payment fails the capture rule. Two loops read a
field of every order without a null check, so those fields become
preconditions:

- `OrdersTest.CorrectlyRefundedIds` reads the lines and refund of every
  cancelled order;
- `OrdersTest1.BuildSummary` calls `toString()` on every id.

## Model

| member | source | states |
|---|---|---|
| OrdersTest.IdPresent | OrdersTest.java:29 | an id passes iff it is non-null and some character survives `trim()`, i.e. is above U+0020 |
| Text.Trim | OrdersTest.java:29 | `trim()` yields nothing iff every character is at most U+0020; otherwise its first and last characters are above U+0020 |
| OrdersTest.StatusesValid | OrdersTest.java:34-38 | true iff every status reads as one of PAID, PENDING, CANCELLED |
| Records.ParseStatus | OrdersTest.java:36-37 | a status string is accepted iff it is in the allowed set, and the accepted value has that string as its name |
| Records.StatusNameRoundTrip | OrdersTest.java:36 | every status survives a round trip through its name |
| Text.EmailPatternIsRegex | OrdersTest.java:43 | the hand-written test (no white space, exactly one `@` with text before it, a `.` strictly inside the domain) accepts exactly the strings that split as `[^@\s]+ @ [^@\s]+ . [^@\s]+` |
| Text.PatternSplits | OrdersTest.java:43 | an address the hand-written test accepts splits into the three `[^@\s]+` runs the expression requires |
| Text.SplitMatchesPattern | OrdersTest.java:43 | an address the expression matches passes the hand-written test |
| Text.PlainAddressMatches | OrdersTest.java:43 | `user@domain.tld` with non-empty parts free of `@` and white space is accepted |
| Text.EmailPatternHasAt | OrdersTest.java:43 | every accepted address contains `@` |
| OrdersTest.CollectBadEmails | OrdersTest.java:46-53 | the loop returns the present e-mails that fail the pattern, in input order |
| OrdersTest.BadEmailsMeaning | OrdersTest.java:47-52 | an e-mail is listed iff some order carries it and it fails the regular expression; absent e-mails are never listed |
| OrdersTest.IntegrityLeavesOnlyEmailReason | OrdersTest.java:60-81 | an order that passes the line-integrity and status tests can only appear in the report for its e-mail |
| Variants.LineIntegrityIsStricter | OrdersTest.java:66-78 | every order `OrdersTest` accepts (lines required, non-empty sku, qty > 0, price >= 0) passes `OrdersTest1`'s line rule |
| Variants.EmptySkuSplitsLineTests | OrdersTest.java:76 | a line with an empty sku fails only `OrdersTest`'s rule |
| Variants.RefundRuleWidens | OrdersTest.java:84-108 | `OrdersTest`'s payment/refund rule, plus a matching refund on an empty cancelled order, implies `OrdersTest1`'s |
| Variants.EmptyCancelledWithoutRefund | OrdersTest.java:95-97 | a cancelled order with an empty line list and no refund passes `OrdersTest` and fails `OrdersTest1` |
| Variants.ConsistentMeansAllCaptured | OrdersTest.java:91-92 | when the payment/refund test passes, the list of uncaptured PAID orders is empty |
| Records.AllLinesCount | OrdersTest.java:126-127 | the flattened line list has as many lines as the sum of the line-list lengths, absent lists counting 0 |
| OrdersTest.SkuTotalsByMerge | OrdersTest.java:133-139 | the `merge` loop yields the totals map over the positive-quantity lines |
| Aggregation.SkuTotalsMeaning | OrdersTest.java:134-138 | a SKU is a key iff it has a line with qty > 0, and its value is the sum of its positive quantities |
| Aggregation.EntriesOf | OrdersTest.java:141 | `entrySet()` lists every key once with its value, in an order left open |
| Aggregation.Insert | OrdersTest.java:142 | inserting into a non-increasing list keeps it non-increasing and adds exactly that entry |
| Aggregation.SortDesc | OrdersTest.java:141-142 | sorting yields a non-increasing permutation of the entries |
| Aggregation.TopSkus | OrdersTest.java:141-144 | `limit(k)` keeps min(k, n) entries, non-increasing, drawn from the input, none smaller than an entry left out |
| Aggregation.TopSkusDistinct | OrdersTest.java:141-144 | the ranking of a map's entries never reports a SKU twice |
| Aggregation.TopTwoShape | OrdersTest.java:141-144 | with two or more SKUs, the top two are distinct keys of the map with their values, the first no smaller, and no entry left out is larger than the second |
| Aggregation.TopTwoOfClearLeaders | OrdersTest.java:141-149 | if SKU a outsells b and b outsells every other SKU, the top two are a then b, whatever the hash order |
| Aggregation.RankedFromMap | OrdersTest.java:141-144 | every ranked entry is a key of the totals map, reported with the map's value |
| Aggregation.RankedSkusArePositive | OrdersTest.java:133-144 | every ranked SKU has a positive line, and its total is the sum of its positive quantities |
| OrdersTest.TopTwoSkus | OrdersTest.java:131-144 | the result is the top two of some enumeration of the totals map: at most 2 entries, non-increasing, each with a positive total |
| Aggregation.SumLineTotals | OrdersTest1.java:102-107 | the `total += qty * price` loop computes the sum of all line totals, invalid lines included |
| Aggregation.OrderGmv | OrdersTest.java:164-171 | an order's GMV is the sum of its line totals, and exactly 0 when its lines are null |
| Records.LinesTotalAppend | OrdersTest.java:98-101 | the line total of a concatenation is the sum of the parts' totals |
| OrdersTest.GmvPerOrderMatches | OrdersTest.java:161-173 | the loop passes iff every order's id is a key of the expected map and its GMV lies within 0.001 of the value |
| Variants.GmvToleranceWidens | OrdersTest.java:172 | GMVs within 0.001 of the expected values are within 0.01 |
| OrdersTest.CollectMissingOrInvalidEmailIds | OrdersTest.java:180-186 | the loop returns the ids of the orders whose e-mail is null or lacks `@`, in input order |
| OrdersTest.UncapturedPaidIds | OrdersTest.java:192-196 | the list is empty iff every PAID order is captured, and each listed id belongs to a PAID order |
| OrdersTest.CorrectlyRefundedIds | OrdersTest.java:202-213 | the loop returns the ids of the cancelled orders whose refund is strictly within 0.001 of their line total, in input order |
| OrdersTest.RefundedCorrectlyIsConsistent | OrdersTest.java:210 | a correctly refunded order passes the refund rule; the two differ only at a gap of exactly 0.001 |
| OrdersTest.OrderReasons | OrdersTest.java:229-251 | the reason-building steps for one order produce its reason list |
| OrdersTest.BadLineReasons | OrdersTest.java:243-251 | the loop over one order's lines adds one reason per line with qty <= 0 or price < 0, in line order |
| OrdersTest.InvalidEmailReason | OrdersTest.java:233-236 | the "invalid email" reason is recorded iff the e-mail is null or lacks `@` |
| OrdersTest.ReasonsMeaning | OrdersTest.java:232-251 | an order has a reason iff its e-mail is null or lacks `@`, or it has no lines and is not CANCELLED, or a line has qty <= 0 or price < 0; each bad line adds one reason |
| OrdersTest.CollectProblems | OrdersTest.java:226-255 | the loop lists, in input order, the id and reasons of exactly the orders with a reason |
| OrdersTest.BuildSummary | OrdersTest.java:220-260 | the report counts the orders and the lines; its Invalid count equals the number of listed problems, which is the number of problem orders |
| OrdersTest1.CheckIdsAndStatuses | OrdersTest1.java:24-44 | passes iff every id is non-null with a character that is not Java white space, and every status is allowed |
| OrdersTest1.IdNotBlank | OrdersTest1.java:36-37 | an id passes iff it is non-null and has a character that `Character.isWhitespace` rejects |
| OrdersTest1.CheckCustomerEmails | OrdersTest1.java:47-60 | passes iff every present e-mail contains `@` |
| OrdersTest1.CheckOrderLinesAndPayment | OrdersTest1.java:69-111 | the body for one order passes iff its id is present, PAID/PENDING orders have lines, present lines have qty > 0 and price >= 0, PAID orders are captured, and a CANCELLED order with present lines is refunded their total within 0.01 |
| OrdersTest1.CheckLinesAndPayments | OrdersTest1.java:63-113 | the loop passes iff every order passes the one-order rule |
| OrdersTest1.EmptyCancelledNeedsNearZeroRefund | OrdersTest1.java:101-110 | a cancelled order with an empty line list passes only with a refund of at most 0.01 in size |
| OrdersTest1.CheckShippingFees | OrdersTest1.java:115-123 | passes iff every shipping fee is >= 0 |
| OrdersTest1.PutGetOrDefault | OrdersTest1.java:151 | `put(sku, getOrDefault(sku, 0) + qty)` is the same update as `merge(sku, qty, Integer::sum)` |
| OrdersTest1.SkuTotalsByGetOrDefault | OrdersTest1.java:143-153 | the `getOrDefault` loop yields the same totals map as `OrdersTest`'s `merge` loop |
| OrdersTest1.GmvPerOrderMatches | OrdersTest1.java:174-188 | the loop passes iff every order's GMV lies within 0.01 of its expected value |
| OrdersTest1.OrderIssues | OrdersTest1.java:206-227 | the issue-building steps for one order produce its issue list |
| OrdersTest1.LineIssuesOf | OrdersTest1.java:220-227 | the loop over one order's lines produces that order's line issues |
| OrdersTest1.LineIssuesCount | OrdersTest1.java:224-225 | one line adds "bad qty" exactly when qty <= 0 and "bad price" exactly when price < 0, and nothing else |
| OrdersTest1.LinesIssuesNonEmpty | OrdersTest1.java:220-227 | the lines add some issue iff one of them has qty <= 0 or price < 0 |
| OrdersTest1.LinesIssuesCount | OrdersTest1.java:220-227 | the line issues hold one "bad qty" per line with qty <= 0 and one "bad price" per line with price < 0, and nothing else |
| OrdersTest1.IssuesMeaning | OrdersTest1.java:208-227 | an order has an issue iff its e-mail is null or lacks `@`, or it has no lines and is not CANCELLED, or a line has qty <= 0 or price < 0 |
| OrdersTest1.CollectProblems | OrdersTest1.java:200-232 | the loop lists, in input order, the id and issues of exactly the orders with an issue |
| OrdersTest1.ProblemEntry | OrdersTest1.java:201-231 | the body for one order decides whether it is a problem and builds its `id -> issues` entry |
| OrdersTest1.BuildSummary | OrdersTest1.java:193-236 | the report counts the orders and the lines, and lists exactly the problem orders |
| Variants.IdTestsAgree | OrdersTest1.java:37 | `trim()`-emptiness and `isBlank()` agree on ids whose characters are white space for both or for neither |
| Variants.NulIdSplitsTests | OrdersTest1.java:37 | the id "\u0000" fails `OrdersTest`'s id test and passes `OrdersTest1`'s |
| Variants.IdeographicSpaceIdSplitsTests | OrdersTest1.java:37 | the id "　" passes `OrdersTest`'s id test and fails `OrdersTest1`'s |
| Variants.PatternImpliesAt | OrdersTest1.java:56 | an e-mail the regular expression accepts passes the `contains("@")` test |
| Variants.AtWithoutDomain | OrdersTest1.java:56 | "a@b" passes `contains("@")` but fails the regular expression |
| Variants.LacksAtIsMalformed | OrdersTest.java:183 | every present e-mail lacking `@` is also one of `OrdersTest`'s malformed e-mails |
| Variants.ProblemOrdersAgree | OrdersTest1.java:229 | an order is a problem in one report iff it is a problem in the other |
| Variants.ProblemListsAlign | OrdersTest1.java:229-231 | both reports list the same orders, at the same positions, and as many |
| Variants.InvalidEmailReasonIffListed | OrdersTest.java:234-236 | an order carries the "invalid email" reason iff its e-mail is null or lacks `@`, and then its id is in the missing-or-invalid list |
| Seqs.Kept | OrdersTest.java:180-186 | the kept positions increase, each passes the filter, and every passing position is kept |
| Seqs.FilterMap | OrdersTest.java:180-186 | the k-th collected value is the image of the k-th passing element, so the list follows input order |
| Seqs.FilterMapMember | OrdersTest.java:180-186 | a value is collected iff some element that passes the filter maps to it |
| Seqs.FilterMapEmpty | OrdersTest.java:193-196 | nothing is collected iff no element passes the filter |
| Seqs.KeptExactly | OrdersTest.java:180-186 | the kept positions are the one increasing list of exactly the passing positions |
| Fixture.SampleLineList | OrdersTest.java:126-127 | the sample has 8 lines |
| Fixture.SampleBadEmails | OrdersTest.java:55 | on the sample, the malformed e-mails are exactly ["bob[at]example.com"] |
| Fixture.SampleMissingOrInvalidEmailIds | OrdersTest.java:187 | on the sample, the missing-or-invalid e-mail ids are A-1002 and A-1003 |
| Fixture.SampleAllCaptured | OrdersTest.java:197 | on the sample, no PAID order is uncaptured |
| Fixture.SampleCorrectlyRefunded | OrdersTest.java:214 | on the sample, only A-1004 is correctly refunded |
| Fixture.SampleCancelledComplete | OrdersTest.java:204-209 | every cancelled sample order carries lines and a refund, so the refund loop reads them safely |
| Fixture.SampleGmv | OrdersTest.java:154-160 | the sample's GMVs are 70, 0, -15, 16 and 55, within both tolerances |
| Fixture.SampleSkuTotals | OrdersTest1.java:144-153 | the sample's SKU totals are PEN-RED 5, USB-32GB 2, and 1 for each of five others |
| Fixture.SampleTopTwo | OrdersTest.java:146-149 | for every enumeration of the sample's totals, the top two are PEN-RED with 5 then USB-32GB with 2 |
| Fixture.SampleIdsPresent | OrdersTest.java:26-31 | every sample id passes the `trim()` test |
| Fixture.SampleStatusesValid | OrdersTest.java:34-38 | every sample status is allowed |
| Fixture.SampleFeesNonNegative | OrdersTest.java:111-114 | no sample shipping fee is negative |
| Fixture.SampleFailsIntegrity | OrdersTest.java:60-108 | A-1001, A-1004 and A-1005 pass the line-integrity test, A-1002 and A-1003 fail it, A-1003 fails the payment/refund test, so the sample fails both tests |
| Fixture.SampleProblems | OrdersTest.java:252-254 | `OrdersTest`'s report lists exactly A-1002 and A-1003 |
| Fixture.SampleProblemsBothReports | OrdersTest1.java:229-231 | `OrdersTest1`'s report lists the same two orders |

## Left out

- Loading `orders.json` and evaluating JsonPath queries, filter expressions
  included: the model starts from a typed, loaded `seq<Order>`, and each
  query is a sequence or a filter over it.
- Absent JSON fields and JSON null are not told apart; both are `None`.
  A missing sku is the empty string. Quantities are `int`: the
  `intValue()` truncation of a fractional quantity and a failing
  `Integer.parseInt` are not modelled.
- IEEE-754 rounding: money is `real`, so sums are exact.
- The text of the summary (`String.format`, `id + " =>" + reason`,
  `id + " -> " + issues`) and `System.out.println`: the report is the
  structured list of ids and reasons, and its counts.
- `HashMap` iteration order is unspecified. It is a parameter: the
  ranking is proved for every enumeration of the totals map.
- Overflow in the comparator `b.getValue() - a.getValue()`: integers are
  unbounded.
- `Aggregation.SkuTotals`, `OrdersTest.SkuTotalsByMerge` and
  `OrdersTest1.SkuTotalsByGetOrDefault`: per-SKU sums past 2^31 - 1 do not
  wrap around as Java `int` addition does (`Integer::sum`,
  `getOrDefault(sku, 0) + qty`), and a JSON quantity outside the `int`
  range is not narrowed as `intValue()` narrows it; quantities and sums
  are unbounded integers.
- `OrdersTest1.testTopSkus` sorts a variable `sorted` that the method never
  defines. Only its accumulation (`SkuTotalsByGetOrDefault`) is modelled;
  the asserted top-two outcome is `Fixture.SampleTopTwo`, proved with the
  ranking of `OrdersTest`.
- The exact-list assertions of `testOrderIdList`/`testOrderIds` and of
  `testTtlLineItemsCount`/`testTotalLineItems` hold on the sample by
  construction (`Fixture.SampleOrders`, `Fixture.SampleLineList`).
- `orders.json` is not part of this model. `Fixture.SampleOrders` is an
  order list that meets every value the tests hard-code.
  `testCancelledOrdersWithCorrectRefund` expects only A-1004 among the
  correctly refunded orders, so A-1003 refunds 0.0 against a line total of
  -15 and fails `testPymtRefundConsistency`.
- The code uses the tolerance 0.001 in `OrdersTest` and 0.01 in
  `OrdersTest1`, and leaves ties in the ranking to `HashMap` order; the
  model keeps both tolerances and proves the ranking for every order.
- A null status, customer, shipping fee, captured flag or refund amount
  cannot be represented: these are required fields of `Order`. In the
  code, `testSummaryReport` treats a null status as not CANCELLED, while
  `testLineIntegrity`, `testPymtRefundConsistency` and the loops of
  `OrdersTest1` throw a null-pointer exception on it.
- `OrdersTest.IdsPresent`, `OrdersTest.LineIntegrity`,
  `OrdersTest.PaymentRefundConsistent` and
  `OrdersTest.ShippingFeesNonNegative` are the `allMatch`/loop tests as
  predicates without a postcondition of their own. The lemmas listed above
  relate them to `OrdersTest1` and evaluate them on the sample.
- `OrdersTest.CorrectlyRefundedIds`: requires every cancelled order to carry lines and a
  refund, where the source throws a null-pointer exception instead.
- `OrdersTest.UncapturedPaidIds`: lists a PAID order that has no payment, where the
  source throws a null-pointer exception instead; the test fails either way.
- `OrdersTest1.CollectProblems` and `OrdersTest1.BuildSummary`: require every id to be
  present, where the source throws a null-pointer exception on `toString()`.
- `OrdersTest.TopTwoSkus`: states the result is the top two of some enumeration of the
  totals map, not of the particular order a `HashMap` would produce.
