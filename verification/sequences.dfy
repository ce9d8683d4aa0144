/** Sequence facts shared by the feature filter, the checkbox lists and the
    record converter: `Array.prototype.filter` as a function, what it means
    for one list to be an order-preserving sub-list of another, and
    duplicate-freedom. */
module Sequences {

  /** `s.filter(p)`: the elements of `s` satisfying `p`, in their original order. */
  function Filter<T(==,!new)>(p: T -> bool, s: seq<T>): (r: seq<T>)
    ensures |r| <= |s|
    ensures forall x :: x in r <==> x in s && p(x)
    ensures forall x :: multiset(r)[x] == if p(x) then multiset(s)[x] else 0
  {
    if |s| == 0 then []
    else
      assert s == [s[0]] + s[1..];
      if p(s[0]) then [s[0]] + Filter(p, s[1..]) else Filter(p, s[1..])
  }

  /** `idx` picks, in strictly increasing positions of `b`, the elements of `a`. */
  ghost predicate Embedding<T>(idx: seq<int>, a: seq<T>, b: seq<T>) {
    && |idx| == |a|
    && (forall k :: 0 <= k < |idx| ==> 0 <= idx[k] < |b| && a[k] == b[idx[k]])
    && (forall k, l :: 0 <= k < l < |idx| ==> idx[k] < idx[l])
  }

  /** `a` is obtained from `b` by deleting elements, keeping the order of the rest. */
  ghost predicate IsSubsequence<T>(a: seq<T>, b: seq<T>) {
    exists idx :: Embedding(idx, a, b)
  }

  /** Every index moved one place to the right. */
  function Shift(idx: seq<int>): (r: seq<int>)
    ensures |r| == |idx|
    ensures forall k :: 0 <= k < |idx| ==> r[k] == idx[k] + 1
  {
    seq(|idx|, k requires 0 <= k < |idx| => idx[k] + 1)
  }

  /** An embedding into the tail of `b` is, shifted by one, an embedding into `b`. */
  lemma EmbeddingShift<T>(idx: seq<int>, a: seq<T>, b: seq<T>)
    requires |b| > 0 && Embedding(idx, a, b[1..])
    ensures Embedding(Shift(idx), a, b)
    ensures forall k :: 0 <= k < |idx| ==> Shift(idx)[k] > 0
  {
    var shifted := Shift(idx);
    forall k | 0 <= k < |shifted| ensures 0 <= shifted[k] < |b| && a[k] == b[shifted[k]] {
      assert b[1..][idx[k]] == b[idx[k] + 1];
    }
  }

  /** Position 0 of `b` can be prepended to an embedding that avoids it. */
  lemma EmbeddingCons<T>(idx: seq<int>, a: seq<T>, b: seq<T>)
    requires |b| > 0 && Embedding(idx, a, b)
    requires forall k :: 0 <= k < |idx| ==> idx[k] > 0
    ensures Embedding([0] + idx, [b[0]] + a, b)
  {
    var full := [0] + idx;
    var r := [b[0]] + a;
    forall k | 0 <= k < |full| ensures 0 <= full[k] < |b| && r[k] == b[full[k]] {
      if k > 0 {
        assert full[k] == idx[k - 1] && r[k] == a[k - 1];
      }
    }
    forall k, l | 0 <= k < l < |full| ensures full[k] < full[l] {
      assert full[l] == idx[l - 1];
      if k > 0 {
        assert full[k] == idx[k - 1];
      }
    }
  }

  lemma {:induction false} FilterIsSubsequence<T(!new)>(p: T -> bool, s: seq<T>)
    ensures IsSubsequence(Filter(p, s), s)
  {
    if |s| == 0 {
      assert Embedding([], Filter(p, s), s);
    } else {
      FilterIsSubsequence(p, s[1..]);
      var rest := Filter(p, s[1..]);
      var idx :| Embedding(idx, rest, s[1..]);
      EmbeddingShift(idx, rest, s);
      if p(s[0]) {
        EmbeddingCons(Shift(idx), rest, s);
        assert Filter(p, s) == [s[0]] + rest;
        assert Embedding([0] + Shift(idx), Filter(p, s), s);
      } else {
        assert Filter(p, s) == rest;
        assert Embedding(Shift(idx), Filter(p, s), s);
      }
    }
  }

  /** Filtering with a predicate that holds of every element changes nothing. */
  lemma {:induction false} FilterKeepsAll<T(!new)>(p: T -> bool, s: seq<T>)
    requires forall x :: x in s ==> p(x)
    ensures Filter(p, s) == s
  {
    if |s| > 0 {
      assert s[0] in s;
      assert forall x :: x in s[1..] ==> x in s;
      FilterKeepsAll(p, s[1..]);
    }
  }

  /** No value occurs twice. */
  predicate NoDuplicates<T(==)>(s: seq<T>) {
    forall i, j :: 0 <= i < j < |s| ==> s[i] != s[j]
  }

  /** The set of values occurring in `s`. */
  function Elems<T>(s: seq<T>): set<T> {
    set x | x in s
  }

  lemma HeadNotInTail<T>(s: seq<T>)
    requires |s| > 0 && NoDuplicates(s)
    ensures s[0] !in s[1..]
  {
    forall j | 0 <= j < |s| - 1 ensures s[1..][j] != s[0] {
      assert s[1..][j] == s[j + 1];
    }
  }

  lemma {:induction false} NoDuplicatesCard<T>(s: seq<T>)
    requires NoDuplicates(s)
    ensures |Elems(s)| == |s|
  {
    if |s| > 0 {
      NoDuplicatesCard(s[1..]);
      assert Elems(s) == {s[0]} + Elems(s[1..]);
      HeadNotInTail(s);
    }
  }

  lemma {:induction false} FilterKeepsNoDuplicates<T(!new)>(p: T -> bool, s: seq<T>)
    requires NoDuplicates(s)
    ensures NoDuplicates(Filter(p, s))
  {
    if |s| > 0 {
      assert NoDuplicates(s[1..]) by {
        forall i, j | 0 <= i < j < |s[1..]| ensures s[1..][i] != s[1..][j] {
          assert s[1..][i] == s[i + 1] && s[1..][j] == s[j + 1];
        }
      }
      FilterKeepsNoDuplicates(p, s[1..]);
      if p(s[0]) {
        var rest := Filter(p, s[1..]);
        HeadNotInTail(s);
        var r := [s[0]] + rest;
        forall i, j | 0 <= i < j < |r| ensures r[i] != r[j] {
          if i == 0 {
            assert r[j] == rest[j - 1];
            assert r[j] in rest;
          } else {
            assert r[i] == rest[i - 1] && r[j] == rest[j - 1];
          }
        }
      }
    }
  }
}
