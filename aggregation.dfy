/**
 * Aggregates over the order set: the GMV loop, the per-SKU quantity totals
 * that `HashMap.merge` / `getOrDefault` accumulate, and the descending
 * top-K ranking of those totals.
 */
module Aggregation {
  import opened Records

  /** The `total += qty * price` loop over a present line list. */
  method SumLineTotals(lines: seq<Line>) returns (total: real)
    ensures total == LinesTotal(lines)
  {
    total := 0.0;
    var i := 0;
    while i < |lines|
      invariant 0 <= i <= |lines|
      invariant total == LinesTotal(lines[..i])
    {
      assert lines[..i + 1][..i] == lines[..i];
      total := total + LineTotal(lines[i]);
      i := i + 1;
    }
    assert lines[..i] == lines;
  }

  /** GMV of one order: 0 when `lines` is null, otherwise the sum of its line totals. */
  method OrderGmv(o: Order) returns (gmv: real)
    ensures gmv == Gmv(o)
    ensures o.lines.None? ==> gmv == 0.0
  {
    gmv := 0.0;
    if o.lines.Some? {
      gmv := SumLineTotals(o.lines.value);
    }
  }

  /**
   * Every order's id is a key of `expected` and its GMV is within `delta`
   * of the expected value (a null id or a missing key fails the check).
   */
  predicate GmvWithin(orders: seq<Order>, expected: map<string, real>, delta: real) {
    forall i :: 0 <= i < |orders| ==> GmvMatches(orders[i], expected, delta)
  }

  /** One order's id is a key of `expected` and its GMV is within `delta` of the value. */
  predicate GmvMatches(o: Order, expected: map<string, real>, delta: real) {
    o.id.Some? && o.id.value in expected && Within(expected[o.id.value], Gmv(o), delta)
  }

  // ---------------------------------------------------------------------
  // SKU quantity totals

  /** `totals.merge(sku, qty, Integer::sum)`. */
  function MergeAdd(totals: map<string, int>, sku: string, qty: int): map<string, int> {
    if sku in totals then totals[sku := totals[sku] + qty] else totals[sku := qty]
  }

  /** The totals map after visiting `lines` from first to last, skipping qty <= 0. */
  function SkuTotals(lines: seq<Line>): map<string, int> {
    if lines == [] then map[]
    else
      var last := lines[|lines| - 1];
      var front := SkuTotals(lines[..|lines| - 1]);
      if last.qty > 0 then MergeAdd(front, last.sku, last.qty) else front
  }

  /** Reference definition: the summed quantity of the positive-qty lines of `sku`. */
  function SkuQty(lines: seq<Line>, sku: string): int {
    if lines == [] then 0
    else
      var last := lines[|lines| - 1];
      SkuQty(lines[..|lines| - 1], sku) + (if last.sku == sku && last.qty > 0 then last.qty else 0)
  }

  /** A SKU with a positive-qty line. */
  predicate HasPositiveLine(lines: seq<Line>, sku: string) {
    exists i :: 0 <= i < |lines| && lines[i].sku == sku && lines[i].qty > 0
  }

  /**
   * A SKU is a key of the totals exactly when one of its lines has a
   * positive quantity, and its total is the sum of those quantities.
   */
  lemma {:induction false} SkuTotalsMeaning(lines: seq<Line>, sku: string)
    ensures sku in SkuTotals(lines) <==> HasPositiveLine(lines, sku)
    ensures sku in SkuTotals(lines) ==> SkuTotals(lines)[sku] == SkuQty(lines, sku) > 0
    ensures sku !in SkuTotals(lines) ==> SkuQty(lines, sku) == 0
  {
    if lines != [] {
      var n := |lines| - 1;
      SkuTotalsMeaning(lines[..n], sku);
      if HasPositiveLine(lines[..n], sku) {
        var i :| 0 <= i < n && lines[..n][i].sku == sku && lines[..n][i].qty > 0;
        assert lines[i] == lines[..n][i];
      }
      if HasPositiveLine(lines, sku) && !(lines[n].sku == sku && lines[n].qty > 0) {
        var i :| 0 <= i < |lines| && lines[i].sku == sku && lines[i].qty > 0;
        assert lines[..n][i] == lines[i];
      }
    }
  }

  // ---------------------------------------------------------------------
  // Ranking

  /** A (sku, total) pair of the totals map. */
  type Entry = (string, int)

  /** An enumeration of a map, as `entrySet()` iterates it: every key once, with its value. */
  predicate Enumerates(entries: seq<Entry>, m: map<string, int>) {
    && (forall i :: 0 <= i < |entries| ==> entries[i].0 in m && m[entries[i].0] == entries[i].1)
    && (forall s :: s in m ==> exists i :: 0 <= i < |entries| && entries[i].0 == s)
    && DistinctKeys(entries)
  }

  /** No key appears twice. */
  predicate DistinctKeys(entries: seq<Entry>) {
    forall i, j :: 0 <= i < j < |entries| ==> entries[i].0 != entries[j].0
  }

  /** `totals.entrySet()` in some iteration order, which `HashMap` leaves unspecified. */
  method EntriesOf(m: map<string, int>) returns (entries: seq<Entry>)
    ensures Enumerates(entries, m)
  {
    entries := [];
    var rest := m.Keys;
    while rest != {}
      invariant rest <= m.Keys
      invariant forall i :: 0 <= i < |entries| ==>
        entries[i].0 in m && entries[i].0 !in rest && m[entries[i].0] == entries[i].1
      invariant forall s :: s in m && s !in rest ==> exists i :: 0 <= i < |entries| && entries[i].0 == s
      invariant forall i, j :: 0 <= i < j < |entries| ==> entries[i].0 != entries[j].0
      decreases |rest|
    {
      var s :| s in rest;
      ghost var before := entries;
      entries := entries + [(s, m[s])];
      rest := rest - {s};
      forall t | t in m && t !in rest
        ensures exists i :: 0 <= i < |entries| && entries[i].0 == t
      {
        if t == s {
          assert entries[|before|].0 == t;
        } else {
          var i :| 0 <= i < |before| && before[i].0 == t;
          assert entries[i].0 == t;
        }
      }
    }
  }

  /** Totals never increase from left to right. */
  predicate NonIncreasing(r: seq<Entry>) {
    forall a, b :: 0 <= a < b < |r| ==> r[a].1 >= r[b].1
  }

  /** Places `e` before the first entry whose total does not exceed its own. */
  function Insert(e: Entry, s: seq<Entry>): (r: seq<Entry>)
    requires NonIncreasing(s)
    ensures NonIncreasing(r)
    ensures multiset(r) == multiset(s) + multiset{e}
    ensures |r| == |s| + 1 && (r[0] == e || (s != [] && r[0] == s[0]))
  {
    if s == [] then [e]
    else if e.1 >= s[0].1 then [e] + s
    else
      assert s == [s[0]] + s[1..];
      [s[0]] + Insert(e, s[1..])
  }

  /**
   * `sorted((a, b) -> b.getValue() - a.getValue())`: an insertion sort into
   * descending order of total.
   */
  function SortDesc(s: seq<Entry>): (r: seq<Entry>)
    ensures NonIncreasing(r)
    ensures multiset(r) == multiset(s) && |r| == |s|
  {
    if s == [] then []
    else
      assert s == [s[0]] + s[1..];
      Insert(s[0], SortDesc(s[1..]))
  }

  function Min(a: nat, b: nat): nat {
    if a < b then a else b
  }

  /**
   * `sorted(...).limit(k)`: at most `k` entries, in non-increasing order,
   * drawn from `entries`, and no entry left out has a larger total than
   * any entry kept.
   */
  function TopSkus(entries: seq<Entry>, k: nat): (r: seq<Entry>)
    ensures |r| == Min(k, |entries|)
    ensures NonIncreasing(r)
    ensures multiset(r) <= multiset(entries)
    ensures forall i, j :: 0 <= i < |entries| && 0 <= j < |r| && entries[i] !in r ==> entries[i].1 <= r[j].1
  {
    var sorted := SortDesc(entries);
    PrefixOfSorted(entries, sorted, Min(k, |entries|));
    sorted[..Min(k, |entries|)]
  }

  /**
   * A prefix of a non-increasing arrangement of `entries` is a sub-multiset
   * of `entries`, and every entry outside the prefix is no larger than any
   * entry in it.
   */
  lemma PrefixOfSorted(entries: seq<Entry>, sorted: seq<Entry>, n: nat)
    requires NonIncreasing(sorted) && multiset(sorted) == multiset(entries) && n <= |sorted|
    ensures multiset(sorted[..n]) <= multiset(entries)
    ensures forall i, j :: 0 <= i < |entries| && 0 <= j < n && entries[i] !in sorted[..n] ==>
      entries[i].1 <= sorted[..n][j].1
  {
    assert sorted == sorted[..n] + sorted[n..];
    assert multiset(sorted) == multiset(sorted[..n]) + multiset(sorted[n..]);
    forall i, j | 0 <= i < |entries| && 0 <= j < n && entries[i] !in sorted[..n]
      ensures entries[i].1 <= sorted[..n][j].1
    {
      assert entries[i] in multiset(sorted);
      var p :| 0 <= p < |sorted| && sorted[p] == entries[i];
    }
  }

  /** Entries with distinct keys are all distinct: each occurs at most once. */
  lemma {:induction false} DistinctKeysOnce(entries: seq<Entry>, e: Entry)
    requires DistinctKeys(entries)
    ensures multiset(entries)[e] <= 1
  {
    if entries != [] {
      var n := |entries| - 1;
      var front := entries[..n];
      assert entries == front + [entries[n]];
      DistinctKeysOnce(front, e);
      if entries[n] == e {
        assert e !in front by {
          forall i | 0 <= i < n ensures front[i] != e {
            assert front[i].0 == entries[i].0 != entries[n].0;
          }
        }
      }
    }
  }

  /** A value found at two positions occurs at least twice. */
  lemma TwiceFound(s: seq<Entry>, i: nat, j: nat)
    requires i < j < |s| && s[i] == s[j]
    ensures multiset(s)[s[i]] >= 2
  {
    assert s == s[..j] + [s[j]] + s[j + 1..];
    assert s[..j][i] == s[i];
  }

  /** Ranking a map's enumeration never reports a SKU twice. */
  lemma TopSkusDistinct(entries: seq<Entry>, k: nat)
    requires DistinctKeys(entries)
    ensures DistinctKeys(TopSkus(entries, k))
  {
    var r := TopSkus(entries, k);
    forall i, j | 0 <= i < j < |r| ensures r[i].0 != r[j].0 {
      if r[i].0 == r[j].0 {
        assert r[i] in multiset(entries) && r[j] in multiset(entries);
        var a :| 0 <= a < |entries| && entries[a] == r[i];
        var b :| 0 <= b < |entries| && entries[b] == r[j];
        assert a == b;
        TwiceFound(r, i, j);
        DistinctKeysOnce(entries, r[i]);
        assert false;
      }
    }
  }

  /** Every ranked entry is an entry of the map, with the map's value. */
  lemma RankedFromMap(entries: seq<Entry>, m: map<string, int>, k: nat)
    requires Enumerates(entries, m)
    ensures forall j :: 0 <= j < |TopSkus(entries, k)| ==>
      TopSkus(entries, k)[j].0 in m && m[TopSkus(entries, k)[j].0] == TopSkus(entries, k)[j].1
  {
    var r := TopSkus(entries, k);
    forall j | 0 <= j < |r| ensures r[j].0 in m && m[r[j].0] == r[j].1 {
      assert r[j] in multiset(entries);
      var i :| 0 <= i < |entries| && entries[i] == r[j];
    }
  }

  lemma NotInPair(x: Entry, r: seq<Entry>)
    requires |r| == 2 && x != r[0] && x != r[1]
    ensures x !in r
  {
  }

  /**
   * Two ranked entries whose keys differ, the first no smaller, and each
   * leader either ranked or no larger than the entry it would displace, are
   * the two leaders in order.
   */
  lemma LeadingPair(r0: Entry, r1: Entry, ea: Entry, eb: Entry, m: map<string, int>, a: string, b: string)
    requires r0.0 in m && m[r0.0] == r0.1 && r1.0 in m && m[r1.0] == r1.1
    requires r0.0 != r1.0 && r0.1 >= r1.1
    requires a in m && b in m && m[a] > m[b] && ea == (a, m[a]) && eb == (b, m[b])
    requires forall sku :: sku in m && sku != a && sku != b ==> m[sku] < m[b]
    requires ea != r0 && ea != r1 ==> ea.1 <= r0.1
    requires eb != r0 && eb != r1 ==> eb.1 <= r1.1
    ensures r0 == ea && r1 == eb
  {
  }

  /**
   * The top two of an enumeration with at least two keys: two entries of the
   * map with different keys, the first no smaller, and no entry left out
   * larger than either.
   */
  lemma TopTwoShape(entries: seq<Entry>, m: map<string, int>) returns (r0: Entry, r1: Entry)
    requires Enumerates(entries, m) && |entries| >= 2
    ensures TopSkus(entries, 2) == [r0, r1]
    ensures r0.0 in m && m[r0.0] == r0.1 && r1.0 in m && m[r1.0] == r1.1
    ensures r0.0 != r1.0 && r0.1 >= r1.1
    ensures forall i :: 0 <= i < |entries| && entries[i] != r0 && entries[i] != r1 ==> entries[i].1 <= r1.1
  {
    var r := TopSkus(entries, 2);
    RankedFromMap(entries, m, 2);
    TopSkusDistinct(entries, 2);
    r0, r1 := r[0], r[1];
    assert r == [r0, r1];
    forall i | 0 <= i < |entries| && entries[i] != r0 && entries[i] != r1
      ensures entries[i].1 <= r1.1
    {
      NotInPair(entries[i], r);
    }
  }

  /**
   * When SKU `a` outsells `b` and `b` outsells every other SKU, the top two
   * of any enumeration are `a` then `b`, ties elsewhere notwithstanding.
   */
  lemma TopTwoOfClearLeaders(entries: seq<Entry>, m: map<string, int>, a: string, b: string)
    requires Enumerates(entries, m)
    requires a in m && b in m && m[a] > m[b]
    requires forall sku :: sku in m && sku != a && sku != b ==> m[sku] < m[b]
    ensures TopSkus(entries, 2) == [(a, m[a]), (b, m[b])]
  {
    var ia :| 0 <= ia < |entries| && entries[ia].0 == a;
    var ib :| 0 <= ib < |entries| && entries[ib].0 == b;
    assert ia != ib;
    var r0, r1 := TopTwoShape(entries, m);
    LeadingPair(r0, r1, entries[ia], entries[ib], m, a, b);
  }

  /**
   * Every ranked SKU has a positive-qty line, and its reported total is
   * the sum of its positive quantities.
   */
  lemma RankedSkusArePositive(lines: seq<Line>, entries: seq<Entry>, k: nat)
    requires Enumerates(entries, SkuTotals(lines))
    ensures forall j :: 0 <= j < |TopSkus(entries, k)| ==>
      var e := TopSkus(entries, k)[j];
      HasPositiveLine(lines, e.0) && e.1 == SkuQty(lines, e.0) > 0
  {
    var r := TopSkus(entries, k);
    forall j | 0 <= j < |r|
      ensures HasPositiveLine(lines, r[j].0) && r[j].1 == SkuQty(lines, r[j].0) > 0
    {
      assert r[j] in multiset(entries);
      var i :| 0 <= i < |entries| && entries[i] == r[j];
      SkuTotalsMeaning(lines, r[j].0);
    }
  }
}
