/** Order-preserving filtering of sequences, the `Array.prototype.filter` of the components. */
module Seqs {

  /** The elements of `s` that satisfy `p`, in their original order. */
  function Filter<T>(p: T -> bool, s: seq<T>): (r: seq<T>)
    ensures |r| <= |s|
    ensures forall x :: x in r ==> x in s && p(x)
  {
    if s == [] then []
    else
      assert s == [s[0]] + s[1..];
      if p(s[0]) then [s[0]] + Filter(p, s[1..])
      else Filter(p, s[1..])
  }

  /** The first `j + 1` elements are the first `j` followed by the next one. */
  lemma TakeNext<T>(s: seq<T>, j: nat)
    requires j < |s|
    ensures s[..j] + [s[j]] == s[..j + 1]
  {
  }

  /** A non-empty sequence is its front followed by its last element. */
  lemma InitLast<T>(s: seq<T>)
    requires s != []
    ensures s == s[..|s| - 1] + [s[|s| - 1]]
  {
  }

  /** Filtering only drops elements. */
  lemma {:induction false} FilterMultiset<T>(p: T -> bool, s: seq<T>)
    ensures multiset(Filter(p, s)) <= multiset(s)
  {
    if s != [] {
      FilterMultiset(p, s[1..]);
      assert s == [s[0]] + s[1..];
    }
  }

  /** The number of elements of `s` that satisfy `p` (`s.filter(p).length`). */
  function Count<T>(p: T -> bool, s: seq<T>): nat
  {
    |Filter(p, s)|
  }

  /** An element is kept exactly when it occurs in the input and satisfies the predicate. */
  lemma {:induction false} FilterMember<T>(p: T -> bool, s: seq<T>, x: T)
    ensures x in Filter(p, s) <==> x in s && p(x)
  {
    if s != [] {
      FilterMember(p, s[1..], x);
      assert s == [s[0]] + s[1..];
    }
  }

  /** A predicate that holds of every element keeps the whole sequence. */
  lemma {:induction false} FilterAll<T>(p: T -> bool, s: seq<T>)
    requires forall i :: 0 <= i < |s| ==> p(s[i])
    ensures Filter(p, s) == s
  {
    if s != [] {
      FilterAll(p, s[1..]);
    }
  }

  /** A predicate that holds of no element keeps nothing. */
  lemma {:induction false} FilterNone<T>(p: T -> bool, s: seq<T>)
    requires forall i :: 0 <= i < |s| ==> !p(s[i])
    ensures Filter(p, s) == []
  {
    if s != [] {
      FilterNone(p, s[1..]);
    }
  }

  /** Filtering twice is filtering once by the conjunction: chained `.filter` calls compose. */
  lemma {:induction false} FilterFilter<T>(p: T -> bool, q: T -> bool, both: T -> bool, s: seq<T>)
    requires forall x :: both(x) == (p(x) && q(x))
    ensures Filter(q, Filter(p, s)) == Filter(both, s)
  {
    if s != [] {
      FilterFilter(p, q, both, s[1..]);
    }
  }

  /** Filtering distributes over concatenation. */
  lemma {:induction false} FilterAppend<T>(p: T -> bool, s: seq<T>, t: seq<T>)
    ensures Filter(p, s + t) == Filter(p, s) + Filter(p, t)
  {
    if s == [] {
      assert s + t == t;
    } else {
      assert (s + t)[1..] == s[1..] + t;
      FilterAppend(p, s[1..], t);
    }
  }

  /** Putting the head of `s` in front of a list whose filtered form is that of `s`'s tail
      followed by `t` gives the filtered form of `s` followed by `t`. */
  lemma {:induction false} FilterPrepend<T>(p: T -> bool, s: seq<T>, q: seq<T>, t: seq<T>)
    requires s != [] && Filter(p, q) == Filter(p, s[1..]) + t
    ensures Filter(p, [s[0]] + q) == Filter(p, s) + t
  {
    var head := if p(s[0]) then [s[0]] else [];
    calc {
      Filter(p, [s[0]] + q);
    == { assert ([s[0]] + q)[1..] == q; }
      head + Filter(p, q);
    ==
      head + (Filter(p, s[1..]) + t);
    ==
      (head + Filter(p, s[1..])) + t;
    ==
      Filter(p, s) + t;
    }
  }

  /** An element kept by the filter can move in front of a list that the filter empties. */
  lemma {:induction false} FilterMoveFront<T>(p: T -> bool, e: T, r: seq<T>)
    requires p(e) ==> forall j :: 0 <= j < |r| ==> !p(r[j])
    ensures Filter(p, [e] + r) == Filter(p, r) + Filter(p, [e])
  {
    if p(e) {
      FilterNone(p, r);
    }
    FilterAppend(p, [e], r);
    assert Filter(p, [e]) == if p(e) then [e] else [];
  }

  /** Two predicates that agree on the elements of `s` filter it alike. */
  lemma {:induction false} FilterCongruent<T>(p: T -> bool, q: T -> bool, s: seq<T>)
    requires forall i :: 0 <= i < |s| ==> p(s[i]) == q(s[i])
    ensures Filter(p, s) == Filter(q, s)
  {
    if s != [] {
      FilterCongruent(p, q, s[1..]);
    }
  }

  /** Kept and dropped elements together account for the whole input. */
  lemma {:induction false} FilterSplitCount<T>(p: T -> bool, s: seq<T>)
    ensures |Filter(p, s)| + |Filter(x => !p(x), s)| == |s|
  {
    if s != [] {
      FilterSplitCount(p, s[1..]);
    }
  }

  /** Counting under a stronger predicate never yields more. */
  lemma {:induction false} CountMonotonic<T>(p: T -> bool, q: T -> bool, s: seq<T>)
    requires forall i :: 0 <= i < |s| ==> p(s[i]) ==> q(s[i])
    ensures Count(p, s) <= Count(q, s)
  {
    if s != [] {
      CountMonotonic(p, q, s[1..]);
    }
  }

  /** Two disjoint predicates count no more than the whole sequence together. */
  lemma {:induction false} CountDisjoint<T>(p: T -> bool, q: T -> bool, s: seq<T>)
    requires forall i :: 0 <= i < |s| ==> !(p(s[i]) && q(s[i]))
    ensures Count(p, s) + Count(q, s) <= |s|
  {
    if s != [] {
      CountDisjoint(p, q, s[1..]);
    }
  }
}
