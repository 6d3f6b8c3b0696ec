/**
 * The two list shapes every view of the catalog is built from: the
 * order-preserving selection of `Array.prototype.filter` and the
 * first-appearance deduplication of `[...new Set(xs)]`, plus the optional
 * value used wherever a JavaScript field may be missing.
 */
module Sequences {

  datatype Option<T> = None | Some(value: T) {
    /** `x || fallback` for a field that may be missing. */
    function GetOr(fallback: T): T {
      if Some? then value else fallback
    }
  }

  datatype Result<T, E> = Ok(value: T) | Err(error: E)

  /** `s.filter(keep)`: the elements that satisfy `keep`, in their original order. */
  function Filter<T>(s: seq<T>, keep: T -> bool): (r: seq<T>)
    ensures |r| <= |s|
    ensures forall k :: 0 <= k < |r| ==> r[k] in s && keep(r[k])
  {
    if s == [] then [] else (if keep(s[0]) then [s[0]] else []) + Filter(s[1..], keep)
  }

  /**
   * `idx` lists, in increasing order, exactly the positions of `s` whose
   * element satisfies `keep`, and `r` holds the elements at those positions.
   */
  ghost predicate SelectsPositions<T>(idx: seq<int>, r: seq<T>, s: seq<T>, keep: T -> bool) {
    && |idx| == |r|
    && (forall k :: 0 <= k < |idx| ==> 0 <= idx[k] < |s| && r[k] == s[idx[k]])
    && (forall k, l :: 0 <= k < l < |idx| ==> idx[k] < idx[l])
    && (forall i :: 0 <= i < |s| ==> (keep(s[i]) <==> i in idx))
  }

  /** `r` is the order-preserving subsequence of `s` made of the elements satisfying `keep`. */
  ghost predicate IsOrderedSelection<T>(r: seq<T>, s: seq<T>, keep: T -> bool) {
    exists idx :: SelectsPositions(idx, r, s, keep)
  }

  /** Every position moved one place to the right. */
  function Shift(idx: seq<int>): (r: seq<int>)
    ensures |r| == |idx|
    ensures forall k :: 0 <= k < |r| ==> r[k] == idx[k] + 1
  {
    seq(|idx|, k requires 0 <= k < |idx| => idx[k] + 1)
  }

  /** The positions `Filter` keeps, as a witness for `IsOrderedSelection`. */
  ghost function KeptPositions<T>(s: seq<T>, keep: T -> bool): seq<int>
  {
    if s == [] then [] else (if keep(s[0]) then [0] else []) + Shift(KeptPositions(s[1..], keep))
  }

  /** One step of the induction: a selection of `s[1..]` extends to one of `s`. */
  lemma SelectsPositionsCons<T>(s: seq<T>, keep: T -> bool, tail: seq<int>, rt: seq<T>)
    requires s != []
    requires SelectsPositions(tail, rt, s[1..], keep)
    ensures SelectsPositions((if keep(s[0]) then [0] else []) + Shift(tail),
                             (if keep(s[0]) then [s[0]] else []) + rt, s, keep)
  {
    var head := if keep(s[0]) then [0] else [];
    ConsElements(s, keep, tail, rt, head);
    ConsIncreasing(tail, head);
    ConsPositions(s, keep, tail, head);
  }

  lemma ConsElements<T>(s: seq<T>, keep: T -> bool, tail: seq<int>, rt: seq<T>, head: seq<int>)
    requires s != [] && head == (if keep(s[0]) then [0] else [])
    requires |tail| == |rt|
    requires forall k :: 0 <= k < |tail| ==> 0 <= tail[k] < |s| - 1 && rt[k] == s[1..][tail[k]]
    ensures var idx, r := head + Shift(tail), (if keep(s[0]) then [s[0]] else []) + rt;
      |idx| == |r| && forall k :: 0 <= k < |idx| ==> 0 <= idx[k] < |s| && r[k] == s[idx[k]]
  {
    var idx, r := head + Shift(tail), (if keep(s[0]) then [s[0]] else []) + rt;
    forall k | 0 <= k < |idx|
      ensures 0 <= idx[k] < |s| && r[k] == s[idx[k]]
    {
      if k >= |head| {
        assert idx[k] == tail[k - |head|] + 1;
        assert r[k] == rt[k - |head|];
      }
    }
  }

  lemma ConsIncreasing(tail: seq<int>, head: seq<int>)
    requires head == [] || head == [0]
    requires forall k :: 0 <= k < |tail| ==> 0 <= tail[k]
    requires forall k, l :: 0 <= k < l < |tail| ==> tail[k] < tail[l]
    ensures var idx := head + Shift(tail); forall k, l :: 0 <= k < l < |idx| ==> idx[k] < idx[l]
  {
    var idx := head + Shift(tail);
    forall k, l | 0 <= k < l < |idx|
      ensures idx[k] < idx[l]
    {
      assert idx[l] == tail[l - |head|] + 1;
      if k >= |head| {
        assert idx[k] == tail[k - |head|] + 1;
      }
    }
  }

  lemma ConsPositions<T>(s: seq<T>, keep: T -> bool, tail: seq<int>, head: seq<int>)
    requires s != [] && head == (if keep(s[0]) then [0] else [])
    requires forall k :: 0 <= k < |tail| ==> 0 <= tail[k]
    requires forall i :: 0 <= i < |s| - 1 ==> (keep(s[1..][i]) <==> i in tail)
    ensures var idx := head + Shift(tail); forall i :: 0 <= i < |s| ==> (keep(s[i]) <==> i in idx)
  {
    var idx := head + Shift(tail);
    forall i | 0 <= i < |s|
      ensures keep(s[i]) <==> i in idx
    {
      if i > 0 {
        assert s[i] == s[1..][i - 1];
        if keep(s[i]) {
          var k :| 0 <= k < |tail| && tail[k] == i - 1;
          assert idx[|head| + k] == i;
        }
        if i in idx {
          var k :| 0 <= k < |idx| && idx[k] == i;
          assert tail[k - |head|] == i - 1;
        }
      } else if 0 in idx {
        var k :| 0 <= k < |idx| && idx[k] == 0;
        assert k < |head|;
      }
    }
  }

  lemma {:induction false} KeptPositionsSelect<T>(s: seq<T>, keep: T -> bool)
    ensures SelectsPositions(KeptPositions(s, keep), Filter(s, keep), s, keep)
  {
    if s != [] {
      KeptPositionsSelect(s[1..], keep);
      SelectsPositionsCons(s, keep, KeptPositions(s[1..], keep), Filter(s[1..], keep));
    }
  }

  /** `filter` keeps exactly the matching elements, each once, in their original order. */
  lemma FilterIsOrderedSelection<T>(s: seq<T>, keep: T -> bool)
    ensures IsOrderedSelection(Filter(s, keep), s, keep)
  {
    KeptPositionsSelect(s, keep);
  }

  /** Every element that satisfies `keep` survives the filter. */
  lemma {:induction false} FilterMember<T>(s: seq<T>, keep: T -> bool, x: T)
    requires x in s && keep(x)
    ensures x in Filter(s, keep)
  {
    if s[0] != x {
      FilterMember(s[1..], keep, x);
    }
  }

  /** A predicate every element satisfies filters nothing out. */
  lemma {:induction false} FilterKeepsAll<T>(s: seq<T>, keep: T -> bool)
    requires forall i :: 0 <= i < |s| ==> keep(s[i])
    ensures Filter(s, keep) == s
  {
    if s != [] {
      FilterKeepsAll(s[1..], keep);
    }
  }

  /** A predicate no element satisfies filters everything out. */
  lemma {:induction false} FilterKeepsNone<T>(s: seq<T>, keep: T -> bool)
    requires forall i :: 0 <= i < |s| ==> !keep(s[i])
    ensures Filter(s, keep) == []
  {
    if s != [] {
      FilterKeepsNone(s[1..], keep);
    }
  }

  /** Two predicates that agree on every element of `s` select the same elements. */
  lemma {:induction false} FilterAgree<T>(s: seq<T>, p: T -> bool, q: T -> bool)
    requires forall i :: 0 <= i < |s| ==> (p(s[i]) <==> q(s[i]))
    ensures Filter(s, p) == Filter(s, q)
  {
    if s != [] {
      FilterAgree(s[1..], p, q);
    }
  }

  /** Filtering distributes over concatenation. */
  lemma {:induction false} FilterAppend<T>(a: seq<T>, b: seq<T>, keep: T -> bool)
    ensures Filter(a + b, keep) == Filter(a, keep) + Filter(b, keep)
  {
    if a == [] {
      assert a + b == b;
    } else {
      assert (a + b)[1..] == a[1..] + b;
      FilterAppend(a[1..], b, keep);
    }
  }

  predicate NoDuplicates<T(==)>(s: seq<T>) {
    forall i, j :: 0 <= i < j < |s| ==> s[i] != s[j]
  }

  /** The position of the first occurrence of `x` in `s`. */
  function FirstIndex<T(==)>(s: seq<T>, x: T): (i: nat)
    requires x in s
    ensures i < |s| && s[i] == x && x !in s[..i]
  {
    if s[0] == x then 0 else 1 + FirstIndex(s[1..], x)
  }

  lemma FirstIndexUnique<T>(s: seq<T>, x: T, i: nat)
    requires i < |s| && s[i] == x && x !in s[..i]
    ensures FirstIndex(s, x) == i
  {
  }

  /** Appending never moves the first occurrence of a value already present. */
  lemma FirstIndexAppend<T>(s: seq<T>, y: T, x: T)
    requires x in s
    ensures FirstIndex(s + [y], x) == FirstIndex(s, x)
  {
    var i := FirstIndex(s, x);
    assert (s + [y])[..i] == s[..i];
    FirstIndexUnique(s + [y], x, i);
  }

  /** `[...new Set(s)]`: each value of `s` once, in order of first appearance. */
  function Distinct<T(==)>(s: seq<T>): (r: seq<T>)
    ensures forall k :: 0 <= k < |r| ==> r[k] in s
    ensures forall i :: 0 <= i < |s| ==> s[i] in r
    ensures NoDuplicates(r)
  {
    if s == [] then []
    else
      var prefix := s[..|s| - 1];
      var r' := Distinct(prefix);
      assert s == prefix + [s[|s| - 1]];
      if s[|s| - 1] in r' then r' else r' + [s[|s| - 1]]
  }

  /** Values come out of `Distinct` in the order in which they first appear in the input. */
  lemma {:induction false} DistinctFirstAppearanceOrder<T>(s: seq<T>)
    ensures forall k, l :: 0 <= k < l < |Distinct(s)| ==>
      FirstIndex(s, Distinct(s)[k]) < FirstIndex(s, Distinct(s)[l])
  {
    if s != [] {
      var prefix := s[..|s| - 1];
      var x := s[|s| - 1];
      assert s == prefix + [x];
      DistinctFirstAppearanceOrder(prefix);
      var r' := Distinct(prefix);
      var r := Distinct(s);
      forall y | y in prefix
        ensures FirstIndex(s, y) == FirstIndex(prefix, y)
      {
        FirstIndexAppend(prefix, x, y);
      }
      forall k, l | 0 <= k < l < |r|
        ensures FirstIndex(s, r[k]) < FirstIndex(s, r[l])
      {
        assert r[k] == r'[k];
        if l < |r'| {
          assert r[l] == r'[l];
        } else {
          assert x !in prefix && r[l] == x;
          FirstIndexUnique(s, x, |prefix|);
        }
      }
    }
  }

  /** Sum of a sequence of counts. */
  function Sum(s: seq<nat>): nat {
    if s == [] then 0 else Sum(s[..|s| - 1]) + s[|s| - 1]
  }

  lemma {:induction false} SumUpdate(s: seq<nat>, j: nat, v: nat)
    requires j < |s|
    ensures Sum(s[j := v]) + s[j] == Sum(s) + v
  {
    var n := |s| - 1;
    if j < n {
      assert s[j := v][..n] == s[..n][j := v];
      SumUpdate(s[..n], j, v);
    } else {
      assert s[j := v][..n] == s[..n];
    }
  }
}
