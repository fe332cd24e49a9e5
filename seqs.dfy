/**
 * The array operations the source uses on fetched lists and store contents:
 * `filter`, `filter(...).length`, `slice(0, n)` and the newest-first ordering of
 * results, written once and shared.
 */
module Seqs {

  /** `s.filter(p)`: the elements satisfying `p`, in their original order. */
  function Filter<T(!new)>(s: seq<T>, p: T -> bool): (r: seq<T>)
    ensures |r| <= |s|
    ensures forall x :: x in r <==> x in s && p(x)
    ensures forall i :: 0 <= i < |r| ==> p(r[i])
  {
    if s == [] then [] else (if p(s[0]) then [s[0]] else []) + Filter(s[1..], p)
  }

  /** Filtering distributes over concatenation, so the kept elements keep their
      relative order. */
  lemma {:induction false} FilterAppend<T(!new)>(a: seq<T>, b: seq<T>, p: T -> bool)
    ensures Filter(a + b, p) == Filter(a, p) + Filter(b, p)
    decreases |a|
  {
    if a == [] {
      assert a + b == b;
    } else {
      assert (a + b)[0] == a[0];
      assert (a + b)[1..] == a[1..] + b;
      FilterAppend(a[1..], b, p);
    }
  }

  /** A filter that keeps every element returns the list unchanged. */
  lemma {:induction false} FilterAll<T(!new)>(s: seq<T>, p: T -> bool)
    requires forall i :: 0 <= i < |s| ==> p(s[i])
    ensures Filter(s, p) == s
    decreases |s|
  {
    if s != [] { FilterAll(s[1..], p); }
  }

  /** Filtering out one element that fails the test, between runs that pass it. */
  lemma FilterDropsOne<T(!new)>(before: seq<T>, x: T, after: seq<T>, p: T -> bool)
    requires forall i :: 0 <= i < |before| ==> p(before[i])
    requires !p(x)
    requires forall i :: 0 <= i < |after| ==> p(after[i])
    ensures Filter(before + [x] + after, p) == before + after
  {
    var tail := [x] + after;
    assert before + [x] + after == before + tail;
    FilterAppend(before, tail, p);
    FilterAll(before, p);
    assert Filter(tail, p) == Filter(after, p) by {
      assert tail[0] == x && tail[1..] == after;
    }
    FilterAll(after, p);
  }

  /** A filter that keeps no element returns the empty list. */
  lemma {:induction false} FilterNone<T(!new)>(s: seq<T>, p: T -> bool)
    requires forall i :: 0 <= i < |s| ==> !p(s[i])
    ensures Filter(s, p) == []
    decreases |s|
  {
    if s != [] { FilterNone(s[1..], p); }
  }

  /** Two conditions that agree on every element filter alike. */
  lemma {:induction false} FilterExt<T(!new)>(s: seq<T>, p: T -> bool, q: T -> bool)
    requires forall i :: 0 <= i < |s| ==> p(s[i]) == q(s[i])
    ensures Filter(s, p) == Filter(s, q)
    decreases |s|
  {
    if s != [] { FilterExt(s[1..], p, q); }
  }

  /** `s.filter(p).length` */
  function Count<T(!new)>(s: seq<T>, p: T -> bool): nat {
    |Filter(s, p)|
  }

  /** Two conditions that never hold together count no more than the whole list, and
      exactly the whole list when every element meets one of them. */
  lemma {:induction false} CountDisjoint<T(!new)>(s: seq<T>, p: T -> bool, q: T -> bool)
    requires forall x :: !(p(x) && q(x))
    ensures Count(s, p) + Count(s, q) <= |s|
    ensures (forall i :: 0 <= i < |s| ==> p(s[i]) || q(s[i])) ==> Count(s, p) + Count(s, q) == |s|
    decreases |s|
  {
    if s != [] { CountDisjoint(s[1..], p, q); }
  }

  /** Filtering twice keeps what passes both tests, in order. */
  lemma {:induction false} FilterFilter<T(!new)>(s: seq<T>, p: T -> bool, q: T -> bool, both: T -> bool)
    requires forall x :: both(x) == (p(x) && q(x))
    ensures Filter(Filter(s, p), q) == Filter(s, both)
    decreases |s|
  {
    if s != [] {
      var head := if p(s[0]) then [s[0]] else [];
      FilterAppend(head, Filter(s[1..], p), q);
      FilterFilter(s[1..], p, q, both);
      if p(s[0]) {
        assert head[1..] == [];
      }
    }
  }

  /** The list in reverse order: newest first for a list kept in creation order. */
  function Reverse<T>(s: seq<T>): (r: seq<T>)
    ensures |r| == |s|
    ensures forall i :: 0 <= i < |s| ==> r[i] == s[|s| - 1 - i]
    ensures multiset(r) == multiset(s)
  {
    if s == [] then [] else
      assert s == [s[0]] + s[1..];
      Reverse(s[1..]) + [s[0]]
  }

  /** The element appended last comes first in the reversed list. */
  lemma {:induction false} ReverseSnoc<T>(s: seq<T>, x: T)
    ensures Reverse(s + [x]) == [x] + Reverse(s)
  {
    if s == [] {
      assert s + [x] == [x];
    } else {
      assert (s + [x])[1..] == s[1..] + [x];
      ReverseSnoc(s[1..], x);
    }
  }


  /** `s.slice(0, n)` for `n >= 0`: the first `min(n, |s|)` elements. */
  function Take<T>(s: seq<T>, n: nat): (r: seq<T>)
    ensures |r| == if n < |s| then n else |s|
    ensures forall i :: 0 <= i < |r| ==> r[i] == s[i]
  {
    if n < |s| then s[..n] else s
  }
}
