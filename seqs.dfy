/** `Array.prototype.filter` and the facts about it that the pages rely on. */
module Seqs {

  /** r is obtained from s by deleting elements, keeping the order of the rest. */
  predicate IsSubsequence<T(==)>(r: seq<T>, s: seq<T>)
    decreases |s|
  {
    r == [] || (s != [] && ((r[0] == s[0] && IsSubsequence(r[1..], s[1..])) || IsSubsequence(r, s[1..])))
  }

  /** `s.filter(p)`: the elements satisfying p, in their original order. How many
      copies of each it keeps is FilterMultiplicity. */
  function Filter<T(==)>(p: T -> bool, s: seq<T>): (r: seq<T>)
    ensures |r| <= |s|
    ensures forall i :: 0 <= i < |r| ==> r[i] in s && p(r[i])
    ensures forall i :: 0 <= i < |s| && p(s[i]) ==> s[i] in r
    ensures IsSubsequence(r, s)
    decreases |s|
  {
    if s == [] then []
    else if p(s[0]) then [s[0]] + Filter(p, s[1..])
    else Filter(p, s[1..])
  }

  /** Filter keeps every element satisfying p as many times as it occurs in s, and no
      other element. */
  lemma {:induction false} FilterMultiplicity<T>(p: T -> bool, s: seq<T>)
    ensures forall x :: multiset(Filter(p, s))[x] == if p(x) then multiset(s)[x] else 0
    decreases |s|
  {
    if s != [] {
      FilterMultiplicity(p, s[1..]);
      assert s == [s[0]] + s[1..];
    }
  }

  /** What Filter keeps of one element. */
  function Kept<T>(p: T -> bool, x: T): seq<T>
  {
    if p(x) then [x] else []
  }

  /** Filtering a sequence that starts with x. */
  lemma FilterCons<T>(p: T -> bool, x: T, s: seq<T>)
    ensures Filter(p, [x] + s) == Kept(p, x) + Filter(p, s)
  {
    assert ([x] + s)[0] == x && ([x] + s)[1..] == s;
  }

  /** Filtering five elements, element by element. */
  lemma FilterFive<T>(p: T -> bool, a: T, b: T, c: T, d: T, e: T)
    ensures Filter(p, [a, b, c, d, e]) == Kept(p, a) + (Kept(p, b) + (Kept(p, c) + (Kept(p, d) + Kept(p, e))))
  {
    var ke := Kept(p, e);
    var kd := Kept(p, d) + ke;
    var kc := Kept(p, c) + kd;
    var kb := Kept(p, b) + kc;
    assert Filter(p, [e]) == ke by {
      FilterCons(p, e, []);
      assert [e] + [] == [e] && ke + [] == ke;
    }
    assert Filter(p, [d, e]) == kd by {
      FilterCons(p, d, [e]);
      assert [d] + [e] == [d, e];
    }
    assert Filter(p, [c, d, e]) == kc by {
      FilterCons(p, c, [d, e]);
      assert [c] + [d, e] == [c, d, e];
    }
    assert Filter(p, [b, c, d, e]) == kb by {
      FilterCons(p, b, [c, d, e]);
      assert [b] + [c, d, e] == [b, c, d, e];
    }
    FilterCons(p, a, [b, c, d, e]);
    assert [a] + [b, c, d, e] == [a, b, c, d, e];
  }

  /** Concatenation regrouped around a first element. */
  lemma ConsAssoc<T>(x: T, u: seq<T>, v: seq<T>)
    ensures [x] + (u + v) == ([x] + u) + v
  {
  }

  /** Filtering a concatenation filters each part. */
  lemma {:induction false} FilterConcat<T>(p: T -> bool, a: seq<T>, b: seq<T>)
    ensures Filter(p, a + b) == Filter(p, a) + Filter(p, b)
    decreases |a|
  {
    if a == [] {
      assert a + b == b;
    } else {
      var ab := a + b;
      assert ab[0] == a[0] && ab[1..] == a[1..] + b;
      FilterConcat(p, a[1..], b);
      if p(a[0]) {
        ConsAssoc(a[0], Filter(p, a[1..]), Filter(p, b));
      }
    }
  }

  /** A predicate that every element satisfies keeps the whole sequence. */
  lemma {:induction false} FilterAll<T>(p: T -> bool, s: seq<T>)
    requires forall i :: 0 <= i < |s| ==> p(s[i])
    ensures Filter(p, s) == s
    decreases |s|
  {
    if s != [] {
      FilterAll(p, s[1..]);
    }
  }

  /** A predicate and its negation split the sequence's length between them. */
  lemma {:induction false} FilterComplementLength<T>(p: T -> bool, q: T -> bool, s: seq<T>)
    requires forall x :: q(x) == !p(x)
    ensures |Filter(p, s)| + |Filter(q, s)| == |s|
    decreases |s|
  {
    if s != [] {
      FilterComplementLength(p, q, s[1..]);
    }
  }

  /** Filtering by the disjunction of two exclusive predicates is, up to order, the
      union of filtering by each. */
  lemma {:induction false} FilterDisjointUnion<T>(p: T -> bool, q: T -> bool, pq: T -> bool, s: seq<T>)
    requires forall x :: !(p(x) && q(x))
    requires forall x :: pq(x) == (p(x) || q(x))
    ensures multiset(Filter(pq, s)) == multiset(Filter(p, s)) + multiset(Filter(q, s))
    decreases |s|
  {
    if s != [] {
      FilterDisjointUnion(p, q, pq, s[1..]);
    }
  }

  /** Filtering a sequence of which no element satisfies p yields the empty sequence,
      and only then. */
  lemma FilterEmptyIff<T>(p: T -> bool, s: seq<T>)
    ensures Filter(p, s) == [] <==> forall i :: 0 <= i < |s| ==> !p(s[i])
  {
    if Filter(p, s) == [] {
      forall i | 0 <= i < |s| ensures !p(s[i]) {
        assert s[i] in s;
      }
    } else {
      assert Filter(p, s)[0] in Filter(p, s);
    }
  }
}
