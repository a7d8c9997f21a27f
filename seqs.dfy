/** `Array.prototype.filter` and the facts every filter of the program inherits from it:
    order is kept, membership is exactly the predicate, and filtering twice changes nothing. */
module Seqs {

  /** `s.filter(p)`. */
  function Filter<T(!new)>(s: seq<T>, p: T -> bool): (r: seq<T>)
    ensures |r| <= |s|
  {
    if s == [] then [] else (if p(s[0]) then [s[0]] else []) + Filter(s[1..], p)
  }

  /** What a filter keeps is exactly the elements that satisfy the predicate. */
  lemma {:induction false} FilterMembers<T(!new)>(s: seq<T>, p: T -> bool)
    ensures forall x :: x in Filter(s, p) <==> x in s && p(x)
  {
    if s != [] {
      FilterMembers(s[1..], p);
      assert s == [s[0]] + s[1..];
    }
  }

  /** `a` is `b` with some elements left out, the rest in their original order. */
  predicate IsSubsequence<T(==)>(a: seq<T>, b: seq<T>)
    decreases |b|
  {
    a == [] || (b != [] && ((a[0] == b[0] && IsSubsequence(a[1..], b[1..])) || IsSubsequence(a, b[1..])))
  }

  lemma {:induction false} FilterIsSubsequence<T(!new)>(s: seq<T>, p: T -> bool)
    ensures IsSubsequence(Filter(s, p), s)
  {
    if s != [] {
      FilterIsSubsequence(s[1..], p);
      var r := Filter(s, p);
      if p(s[0]) {
        assert r[0] == s[0] && r[1..] == Filter(s[1..], p);
      } else {
        assert r == Filter(s[1..], p);
      }
    }
  }

  lemma {:induction false} FilterIdempotent<T(!new)>(s: seq<T>, p: T -> bool)
    ensures Filter(Filter(s, p), p) == Filter(s, p)
  {
    if s != [] {
      FilterIdempotent(s[1..], p);
      var r := Filter(s, p);
      if p(s[0]) {
        assert r == [s[0]] + Filter(s[1..], p);
        assert r[0] == s[0] && r[1..] == Filter(s[1..], p);
        assert Filter(r, p) == [s[0]] + Filter(r[1..], p);
      } else {
        assert r == Filter(s[1..], p);
      }
    }
  }

  /** A predicate that holds of every element removes nothing. */
  lemma {:induction false} FilterKeepsAll<T(!new)>(s: seq<T>, p: T -> bool)
    requires forall i :: 0 <= i < |s| ==> p(s[i])
    ensures Filter(s, p) == s
  {
    if s != [] {
      FilterKeepsAll(s[1..], p);
      assert [s[0]] + s[1..] == s;
    }
  }

  /** What a filter keeps and what its complement keeps add up to the whole. */
  lemma {:induction false} FilterComplementLength<T(!new)>(s: seq<T>, p: T -> bool, q: T -> bool)
    requires forall x :: q(x) == !p(x)
    ensures |Filter(s, p)| + |Filter(s, q)| == |s|
  {
    if s != [] {
      FilterComplementLength(s[1..], p, q);
    }
  }

  /** Filtering distributes over concatenation. */
  lemma {:induction false} FilterAppend<T(!new)>(a: seq<T>, b: seq<T>, p: T -> bool)
    ensures Filter(a + b, p) == Filter(a, p) + Filter(b, p)
  {
    if a != [] {
      assert (a + b)[1..] == a[1..] + b;
      FilterAppend(a[1..], b, p);
    } else {
      assert a + b == b;
    }
  }

  /** Filtering a non-empty sequence: its front, then its last element. */
  lemma FilterSnoc<T(!new)>(s: seq<T>, p: T -> bool)
    requires s != []
    ensures Filter(s, p) == Filter(s[..|s| - 1], p) + Filter([s[|s| - 1]], p)
  {
    var init, last := s[..|s| - 1], s[|s| - 1];
    assert init + [last] == s;
    FilterAppend(init, [last], p);
  }

  lemma FilterOne<T(!new)>(x: T, p: T -> bool)
    ensures Filter([x], p) == if p(x) then [x] else []
  {
    assert [x][1..] == [];
  }

  /** Filtering a short list part by part. */
  lemma FilterParts<T(!new)>(x: T, y: T, z: T, p: T -> bool)
    ensures Filter([x, y], p) == Filter([x], p) + Filter([y], p)
    ensures Filter([x, y, z], p) == Filter([x, y], p) + Filter([z], p)
  {
    assert [x, y] == [x] + [y];
    FilterAppend([x], [y], p);
    assert [x, y, z] == [x, y] + [z];
    FilterAppend([x, y], [z], p);
  }
}
