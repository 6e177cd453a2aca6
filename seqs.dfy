/** Sequence operations shared by every part of the model: the array
    `filter` of the source, the counting it is checked against, order
    preservation (subsequence) and the first-occurrence index. */
module Seqs {

  /** The number of elements of `s` that satisfy `p`. */
  function CountWhere<T>(s: seq<T>, p: T -> bool): nat
  {
    if s == [] then 0 else (if p(s[0]) then 1 else 0) + CountWhere(s[1..], p)
  }

  /** `a` is `b` with some elements left out, the rest kept in order. */
  predicate IsSubseq<T(==)>(a: seq<T>, b: seq<T>)
  {
    if a == [] then true
    else if b == [] then false
    else if a[0] == b[0] then IsSubseq(a[1..], b[1..])
    else IsSubseq(a, b[1..])
  }

  lemma {:induction false} SubseqDropFirst<T>(a: seq<T>, b: seq<T>)
    requires a != [] && IsSubseq(a, b)
    ensures IsSubseq(a[1..], b)
    decreases |b|, 0
  {
    if a[1..] != [] {
      if a[0] == b[0] {
        SubseqWiden(a[1..], b[1..], b[0]);
      } else {
        SubseqDropFirst(a, b[1..]);
        SubseqWiden(a[1..], b[1..], b[0]);
      }
    }
  }

  /** Putting one more element in front of `b` keeps `a` a subsequence. */
  lemma {:induction false} SubseqWiden<T>(a: seq<T>, b: seq<T>, x: T)
    requires IsSubseq(a, b)
    ensures IsSubseq(a, [x] + b)
    decreases |b|, 1
  {
    var xb := [x] + b;
    assert xb[1..] == b;
    if a != [] && a[0] == x {
      SubseqDropFirst(a, b);
    }
  }

  /** A sequence is a subsequence of itself. */
  lemma {:induction false} SubseqRefl<T>(s: seq<T>)
    ensures IsSubseq(s, s)
  {
    if s != [] {
      SubseqRefl(s[1..]);
    }
  }

  /** Array `filter`: the elements satisfying `p`, in their original order.
      The contract pins the result down completely: every element kept
      satisfies `p`, the kept elements appear in `s` in the same order, and
      there are as many as `s` has elements satisfying `p`. */
  function Filter<T(==)>(s: seq<T>, p: T -> bool): (r: seq<T>)
    ensures |r| == CountWhere(s, p) <= |s|
    ensures forall i :: 0 <= i < |r| ==> p(r[i]) && r[i] in s
    ensures forall i :: 0 <= i < |s| && p(s[i]) ==> s[i] in r
    ensures IsSubseq(r, s)
  {
    if s == [] then []
    else
      var rest := Filter(s[1..], p);
      if p(s[0]) then
        assert ([s[0]] + rest)[1..] == rest;
        [s[0]] + rest
      else
        SubseqWiden(rest, s[1..], s[0]);
        assert [s[0]] + s[1..] == s;
        rest
  }

  /** A subsequence of `s` whose elements all satisfy `p` is no longer than
      the number of elements of `s` that satisfy `p`. */
  lemma {:induction false} SubseqCountBound<T>(r: seq<T>, s: seq<T>, p: T -> bool)
    requires IsSubseq(r, s)
    requires forall i :: 0 <= i < |r| ==> p(r[i])
    ensures |r| <= CountWhere(s, p)
  {
    if r != [] {
      if r[0] == s[0] {
        assert forall i :: 0 <= i < |r[1..]| ==> r[1..][i] == r[i + 1];
        SubseqCountBound(r[1..], s[1..], p);
      } else {
        SubseqCountBound(r, s[1..], p);
      }
    }
  }

  /** The three facts a filter's result is described by — a subsequence of
      `s`, every element satisfying `p`, as many elements as `s` has
      satisfying `p` — single out the filter: no other sequence has them, so
      copies of an element are neither dropped nor added. */
  lemma {:induction false} FilterUnique<T>(r: seq<T>, s: seq<T>, p: T -> bool)
    requires IsSubseq(r, s)
    requires forall i :: 0 <= i < |r| ==> p(r[i])
    requires |r| == CountWhere(s, p)
    ensures r == Filter(s, p)
  {
    if s != [] && r != [] {
      if r[0] == s[0] {
        assert forall i :: 0 <= i < |r[1..]| ==> r[1..][i] == r[i + 1];
        FilterUnique(r[1..], s[1..], p);
        assert r == [r[0]] + r[1..];
      } else {
        SubseqCountBound(r, s[1..], p);
        FilterUnique(r, s[1..], p);
      }
    }
  }

  /** Filtering distributes over concatenation, which is what "in order"
      means for a filter. */
  lemma {:induction false} FilterAppend<T>(a: seq<T>, b: seq<T>, p: T -> bool)
    ensures Filter(a + b, p) == Filter(a, p) + Filter(b, p)
  {
    if a == [] {
      assert a + b == b;
    } else {
      assert (a + b)[1..] == a[1..] + b;
      FilterAppend(a[1..], b, p);
    }
  }

  lemma FilterSingleton<T>(x: T, p: T -> bool)
    ensures Filter([x], p) == if p(x) then [x] else []
  {
    assert [x][1..] == [];
  }

  /** Filtering a three-element sequence, element by element. */
  lemma FilterThree<T>(x: T, y: T, z: T, p: T -> bool)
    ensures Filter([x, y, z], p) ==
      (if p(x) then [x] else []) + (if p(y) then [y] else []) + (if p(z) then [z] else [])
  {
    assert [x, y, z][1..] == [y, z];
    assert [y, z][1..] == [z];
    assert [z][1..] == [];
  }

  /** When every element satisfies `p`, filtering keeps the whole sequence. */
  lemma {:induction false} FilterKeepsAll<T>(s: seq<T>, p: T -> bool)
    requires forall i :: 0 <= i < |s| ==> p(s[i])
    ensures Filter(s, p) == s
  {
    if s != [] {
      FilterKeepsAll(s[1..], p);
    }
  }

  /** Two predicates that agree on every element give the same filter. */
  lemma {:induction false} FilterAgree<T>(s: seq<T>, p: T -> bool, q: T -> bool)
    requires forall i :: 0 <= i < |s| ==> p(s[i]) == q(s[i])
    ensures Filter(s, p) == Filter(s, q)
  {
    if s != [] {
      FilterAgree(s[1..], p, q);
    }
  }

  /** A predicate and its complement split the elements between them. */
  lemma {:induction false} CountComplement<T>(s: seq<T>, p: T -> bool, q: T -> bool)
    requires forall i :: 0 <= i < |s| ==> q(s[i]) == !p(s[i])
    ensures CountWhere(s, p) + CountWhere(s, q) == |s|
  {
    if s != [] {
      CountComplement(s[1..], p, q);
    }
  }

  /** Filtering twice with the same predicate changes nothing the second time. */
  lemma FilterIdempotent<T>(s: seq<T>, p: T -> bool)
    ensures Filter(Filter(s, p), p) == Filter(s, p)
  {
    FilterKeepsAll(Filter(s, p), p);
  }

  /** The index of the first occurrence of `x` in `s`. */
  function FirstIndex<T(==)>(s: seq<T>, x: T): (k: nat)
    requires x in s
    ensures k < |s| && s[k] == x
    ensures forall j :: 0 <= j < k ==> s[j] != x
  {
    if s[0] == x then 0 else 1 + FirstIndex(s[1..], x)
  }

  lemma {:induction false} FirstIndexExtend<T>(s: seq<T>, y: T, x: T)
    requires x in s
    ensures x in s + [y] && FirstIndex(s + [y], x) == FirstIndex(s, x)
  {
    assert (s + [y])[FirstIndex(s, x)] == x;
  }

  /** The number of occurrences of `x` in `s`, counted as a left fold. */
  function Occurrences<T(==)>(s: seq<T>, x: T): nat
  {
    if s == [] then 0
    else Occurrences(s[..|s| - 1], x) + (if s[|s| - 1] == x then 1 else 0)
  }

  lemma {:induction false} OccurrencesPositive<T>(s: seq<T>, x: T)
    ensures x in s <==> Occurrences(s, x) > 0
  {
    if s != [] {
      var init := s[..|s| - 1];
      OccurrencesPositive(init, x);
      assert s == init + [s[|s| - 1]];
      assert x in s <==> x in init || x == s[|s| - 1];
    }
  }

  /** Where `x` first occurs in `keys` (`|keys|` when it does not). */
  function Rank<T(==)>(keys: seq<T>, x: T): nat
  {
    if x in keys then FirstIndex(keys, x) else |keys|
  }

  /** A subsequence of a sequence whose ranks strictly increase has strictly
      increasing ranks too. */
  lemma {:induction false} SubseqKeepsRankOrder<T>(a: seq<T>, b: seq<T>, keys: seq<T>)
    requires IsSubseq(a, b)
    requires forall i, j :: 0 <= i < j < |b| ==> Rank(keys, b[i]) < Rank(keys, b[j])
    ensures forall i, j :: 0 <= i < j < |a| ==> Rank(keys, a[i]) < Rank(keys, a[j])
  {
    if a != [] && b != [] {
      if a[0] == b[0] {
        SubseqKeepsRankOrder(a[1..], b[1..], keys);
        SubseqMembers(a[1..], b[1..]);
        forall j | 1 <= j < |a| ensures Rank(keys, a[0]) < Rank(keys, a[j]) {
          assert a[j] == a[1..][j - 1];
        }
      } else {
        SubseqKeepsRankOrder(a, b[1..], keys);
      }
    }
  }

  /** Every element of a subsequence is an element of the sequence. */
  lemma {:induction false} SubseqMembers<T>(a: seq<T>, b: seq<T>)
    requires IsSubseq(a, b)
    ensures forall i :: 0 <= i < |a| ==> a[i] in b
  {
    if a != [] && b != [] {
      if a[0] == b[0] {
        SubseqMembers(a[1..], b[1..]);
        assert forall i :: 1 <= i < |a| ==> a[i] == a[1..][i - 1];
      } else {
        SubseqMembers(a, b[1..]);
      }
    }
  }
}
