/** `Array.prototype.filter` and the subsequence relation that describes its result. */
module Seqs {

  /** `a` is `b` with some elements left out, order kept (greedy matching). */
  predicate IsSubsequence<T(==)>(a: seq<T>, b: seq<T>)
    decreases |b|
  {
    a == [] || (b != [] && if a[0] == b[0] then IsSubsequence(a[1..], b[1..]) else IsSubsequence(a, b[1..]))
  }

  /** `s.filter(p)`: the elements of `s` that satisfy `p`, in their order. */
  function Keep<T(==)>(s: seq<T>, p: T -> bool): (r: seq<T>)
    ensures |r| <= |s|
    ensures IsSubsequence(r, s)
    ensures forall i :: 0 <= i < |r| ==> r[i] in s && p(r[i])
    ensures forall i :: 0 <= i < |s| && p(s[i]) ==> s[i] in r
  {
    if s == [] then []
    else
      var rest := Keep(s[1..], p);
      assert s == [s[0]] + s[1..];
      if p(s[0]) then [s[0]] + rest else rest
  }

  /** Every kept element occurs as often as in `s`; every rejected one not at all. */
  lemma {:induction false} KeepMultiplicity<T>(s: seq<T>, p: T -> bool, x: T)
    ensures multiset(Keep(s, p))[x] == if p(x) then multiset(s)[x] else 0
  {
    if s != [] {
      KeepMultiplicity(s[1..], p, x);
      assert s == [s[0]] + s[1..];
    }
  }

  /** `KeepMultiplicity` for every element at once. */
  lemma KeepCounts<T>(s: seq<T>, p: T -> bool)
    ensures forall x :: multiset(Keep(s, p))[x] == if p(x) then multiset(s)[x] else 0
  {
    forall x
      ensures multiset(Keep(s, p))[x] == if p(x) then multiset(s)[x] else 0
    {
      KeepMultiplicity(s, p, x);
    }
  }

  /** Keeping nothing returns the empty sequence. */
  lemma {:induction false} KeepNone<T>(s: seq<T>, p: T -> bool)
    requires forall i :: 0 <= i < |s| ==> !p(s[i])
    ensures Keep(s, p) == []
  {
    if s != [] {
      KeepNone(s[1..], p);
    }
  }

  /** Keeping everything returns the sequence itself. */
  lemma {:induction false} KeepAll<T>(s: seq<T>, p: T -> bool)
    requires forall i :: 0 <= i < |s| ==> p(s[i])
    ensures Keep(s, p) == s
  {
    if s != [] {
      KeepAll(s[1..], p);
    }
  }

  /** Filtering a concatenation filters each part. */
  lemma {:induction false} KeepAppend<T>(a: seq<T>, b: seq<T>, p: T -> bool)
    ensures Keep(a + b, p) == Keep(a, p) + Keep(b, p)
  {
    if a == [] {
      assert a + b == b;
    } else {
      assert (a + b)[1..] == a[1..] + b;
      KeepAppend(a[1..], b, p);
    }
  }

  /** Filtering a sequence with a first element. */
  lemma KeepCons<T>(a: T, s: seq<T>, p: T -> bool)
    ensures Keep([a] + s, p) == (if p(a) then [a] else []) + Keep(s, p)
  {
    assert ([a] + s)[1..] == s;
  }

  /** An element that `p` rejects, or that shares no turn with a kept `x`, commutes with it under `Keep`. */
  lemma KeepPastOther<T>(a: T, x: T, t: seq<T>, rest: seq<T>, p: T -> bool)
    requires !(p(a) && p(x))
    requires Keep(t, p) == (if p(x) then [x] else []) + Keep(rest, p)
    ensures Keep([a] + t, p) == (if p(x) then [x] else []) + Keep([a] + rest, p)
  {
    KeepCons(a, t, p);
    KeepCons(a, rest, p);
    if p(a) {
      assert !p(x);
      assert Keep([a] + t, p) == [a] + Keep(rest, p);
    } else {
      assert Keep([a] + t, p) == Keep(t, p);
      assert Keep([a] + rest, p) == Keep(rest, p);
    }
  }
}
