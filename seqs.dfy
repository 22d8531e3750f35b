/**
 * Order-preserving filters over sequences. The engine builds several lists
 * by walking the orders in input order and appending the image of each order
 * that passes a test; `FilterMap` is that pattern, and `Kept` names the
 * positions it keeps.
 */
module Seqs {

  /** The positions in `idx` grow from left to right. */
  predicate StrictlyIncreasing(idx: seq<nat>) {
    forall a, b :: 0 <= a < b < |idx| ==> idx[a] < idx[b]
  }

  /** The positions of `s` whose element satisfies `p`, in increasing order. */
  function Kept<T>(s: seq<T>, p: T -> bool): (idx: seq<nat>)
    ensures StrictlyIncreasing(idx)
    ensures forall k :: 0 <= k < |idx| ==> idx[k] < |s| && p(s[idx[k]])
    ensures forall i :: 0 <= i < |s| && p(s[i]) ==> i in idx
  {
    if s == [] then []
    else
      var n := |s| - 1;
      var front := Kept(s[..n], p);
      assert forall k :: 0 <= k < |front| ==> front[k] < n;
      front + (if p(s[n]) then [n] else [])
  }

  /**
   * The images under `f` of the elements of `s` that satisfy `p`, in the
   * order of `s`: the k-th result comes from the k-th kept position.
   */
  function FilterMap<T, U>(s: seq<T>, p: T -> bool, f: T -> U): (r: seq<U>)
    ensures |r| == |Kept(s, p)|
    ensures forall k :: 0 <= k < |r| ==> r[k] == f(s[Kept(s, p)[k]])
  {
    if s == [] then []
    else
      var n := |s| - 1;
      assert s[..n] + [s[n]] == s;
      FilterMap(s[..n], p, f) + (if p(s[n]) then [f(s[n])] else [])
  }

  /** A value is produced iff some element that passes the filter maps to it. */
  lemma FilterMapMember<T, U>(s: seq<T>, p: T -> bool, f: T -> U, y: U)
    ensures y in FilterMap(s, p, f) <==> exists i :: 0 <= i < |s| && p(s[i]) && f(s[i]) == y
  {
    var r, idx := FilterMap(s, p, f), Kept(s, p);
    if y in r {
      var k :| 0 <= k < |r| && r[k] == y;
      assert p(s[idx[k]]) && f(s[idx[k]]) == y;
    }
    if exists i :: 0 <= i < |s| && p(s[i]) && f(s[i]) == y {
      var i :| 0 <= i < |s| && p(s[i]) && f(s[i]) == y;
      var k :| 0 <= k < |idx| && idx[k] == i;
      assert r[k] == y;
    }
  }

  /** Every value produced comes from an element that passes the filter. */
  lemma FilterMapSources<T, U>(s: seq<T>, p: T -> bool, f: T -> U)
    ensures forall y :: y in FilterMap(s, p, f) ==> exists i :: 0 <= i < |s| && p(s[i]) && f(s[i]) == y
  {
    forall y | y in FilterMap(s, p, f)
      ensures exists i :: 0 <= i < |s| && p(s[i]) && f(s[i]) == y
    {
      FilterMapMember(s, p, f, y);
    }
  }

  /** Nothing is produced iff no element passes the filter. */
  lemma FilterMapEmpty<T, U>(s: seq<T>, p: T -> bool, f: T -> U)
    ensures FilterMap(s, p, f) == [] <==> forall i :: 0 <= i < |s| ==> !p(s[i])
  {
    if exists i :: 0 <= i < |s| && p(s[i]) {
      var i :| 0 <= i < |s| && p(s[i]);
      FilterMapMember(s, p, f, f(s[i]));
    }
  }

  /** Two filters that agree on every element keep the same positions. */
  lemma {:induction false} KeptCongruent<T>(s: seq<T>, p: T -> bool, q: T -> bool)
    requires forall i :: 0 <= i < |s| ==> p(s[i]) == q(s[i])
    ensures Kept(s, p) == Kept(s, q)
  {
    if s != [] {
      KeptCongruent(s[..|s| - 1], p, q);
    }
  }

  /** Two increasing position lists with the same members are equal. */
  lemma {:induction false} IncreasingUnique(a: seq<nat>, b: seq<nat>)
    requires StrictlyIncreasing(a) && StrictlyIncreasing(b)
    requires forall x :: x in a <==> x in b
    ensures a == b
  {
    assert a != [] ==> a[0] in b;
    assert b != [] ==> b[0] in a;
    if a != [] && b != [] {
      var m, n := |a| - 1, |b| - 1;
      assert a[m] in b;
      assert b[n] in a;
      assert a[m] == b[n];
      forall x ensures x in a[..m] <==> x in b[..n] {
        if x in a[..m] {
          var i :| 0 <= i < m && a[..m][i] == x;
          assert x in b && x != b[n];
        }
        if x in b[..n] {
          var j :| 0 <= j < n && b[..n][j] == x;
          assert x in a && x != a[m];
        }
      }
      IncreasingUnique(a[..m], b[..n]);
      assert a == a[..m] + [a[m]] && b == b[..n] + [b[n]];
    }
  }

  /** `Kept` is the one increasing list of exactly the positions passing `p`. */
  lemma KeptExactly<T>(s: seq<T>, p: T -> bool, want: seq<nat>)
    requires StrictlyIncreasing(want)
    requires forall k :: 0 <= k < |want| ==> want[k] < |s|
    requires forall i :: 0 <= i < |s| ==> (p(s[i]) <==> i in want)
    ensures Kept(s, p) == want
  {
    var idx := Kept(s, p);
    forall x ensures x in idx <==> x in want {
      if x in idx {
        var k :| 0 <= k < |idx| && idx[k] == x;
        assert x < |s| && p(s[x]);
      }
      if x in want {
        var k :| 0 <= k < |want| && want[k] == x;
        assert x < |s| && p(s[x]);
      }
    }
    IncreasingUnique(idx, want);
  }

  /** Visiting one more element keeps its position exactly when it passes the filter. */
  lemma KeptSnoc<T>(s: seq<T>, x: T, p: T -> bool)
    ensures Kept(s + [x], p) == Kept(s, p) + (if p(x) then [|s|] else [])
  {
    assert (s + [x])[..|s|] == s;
  }

  /** Visiting one more element appends its image exactly when it passes the filter. */
  lemma FilterMapSnoc<T, U>(s: seq<T>, x: T, p: T -> bool, f: T -> U)
    ensures FilterMap(s + [x], p, f) == FilterMap(s, p, f) + (if p(x) then [f(x)] else [])
  {
    assert (s + [x])[..|s|] == s;
  }

  /**
   * One step of a collecting loop: with `b` and `y` the verdict and image of
   * `s[i]`, appending `y` when `b` holds extends the list over `s[..i]` to
   * the list over `s[..i + 1]`.
   */
  lemma FilterMapStep<T, U>(s: seq<T>, i: nat, p: T -> bool, f: T -> U, acc: seq<U>, b: bool, y: U)
    requires i < |s| && acc == FilterMap(s[..i], p, f)
    requires b == p(s[i]) && y == f(s[i])
    ensures FilterMap(s[..i + 1], p, f) == if b then acc + [y] else acc
  {
    FilterMapSnoc(s[..i], s[i], p, f);
    assert s[..i] + [s[i]] == s[..i + 1];
  }

  /** Once the kept positions are known, the collected list is their images, in order. */
  lemma FilterMapOfKept<T, U>(s: seq<T>, p: T -> bool, f: T -> U, want: seq<nat>, r: seq<U>)
    requires Kept(s, p) == want
    requires |r| == |want|
    requires forall k :: 0 <= k < |want| ==> want[k] < |s| && r[k] == f(s[want[k]])
    ensures FilterMap(s, p, f) == r
  {
  }

  /** How many elements of `s` satisfy `p`. */
  function Count<T>(s: seq<T>, p: T -> bool): nat {
    |Kept(s, p)|
  }
}
