/** Order-preserving list operations shared by the routes and pages:
    `Array.prototype.filter`, `map` and `findIndex`, and the facts about them
    that the rest of the model is proved from. */
module Seqs {
  import opened Wrappers

  /** `s.filter(f)`: the elements of `s` that satisfy `f`, in their original order. */
  function Filter<T>(s: seq<T>, f: T -> bool): (r: seq<T>)
    ensures |r| <= |s|
    ensures forall i :: 0 <= i < |r| ==> f(r[i]) && r[i] in s
    ensures forall i :: 0 <= i < |s| && f(s[i]) ==> s[i] in r
    decreases |s|
  {
    if s == [] then []
    else (if f(s[0]) then [s[0]] else []) + Filter(s[1..], f)
  }

  /** `s.map(f)`: one image per element, in order. */
  function Map<T, U>(s: seq<T>, f: T -> U): (r: seq<U>)
    ensures |r| == |s|
    ensures forall i :: 0 <= i < |s| ==> r[i] == f(s[i])
    decreases |s|
  {
    if s == [] then [] else [f(s[0])] + Map(s[1..], f)
  }

  /** `s.findIndex(f)`, with -1 modelled as `None`: the first position whose element satisfies `f`. */
  function FirstIndex<T>(s: seq<T>, f: T -> bool): (r: Option<nat>)
    ensures r.Some? ==> r.value < |s| && f(s[r.value]) && forall j :: 0 <= j < r.value ==> !f(s[j])
    ensures r.None? ==> forall j :: 0 <= j < |s| ==> !f(s[j])
    decreases |s|
  {
    if s == [] then None
    else if f(s[0]) then Some(0)
    else match FirstIndex(s[1..], f)
      case None => None
      case Some(k) => Some(k + 1)
  }

  /** The conjunction of two filter predicates. */
  function Both<T>(f: T -> bool, g: T -> bool): T -> bool
  {
    x => f(x) && g(x)
  }

  /** A filter applied only when `cond` holds, as one predicate. */
  function When<T>(cond: bool, f: T -> bool): T -> bool
  {
    x => !cond || f(x)
  }

  /** A guarded filter (`if (cond) s = s.filter(f)`) is the filter by `When(cond, f)`. */
  lemma FilterWhen<T>(s: seq<T>, cond: bool, f: T -> bool)
    ensures (if cond then Filter(s, f) else s) == Filter(s, When(cond, f))
  {
    if cond {
      FilterAgrees(s, f, When(cond, f));
    } else {
      FilterKeepsAll(s, When(cond, f));
    }
  }

  /** `a` is obtained from `b` by deleting elements, keeping the order of the rest. */
  ghost predicate IsSubsequence<T>(a: seq<T>, b: seq<T>)
    decreases |b|
  {
    if a == [] then true
    else if b == [] then false
    else (a[0] == b[0] && IsSubsequence(a[1..], b[1..])) || IsSubsequence(a, b[1..])
  }

  /** A filter keeps the order of what it keeps. */
  lemma {:induction false} FilterIsSubsequence<T>(s: seq<T>, f: T -> bool)
    ensures IsSubsequence(Filter(s, f), s)
    decreases |s|
  {
    if s != [] {
      FilterIsSubsequence(s[1..], f);
      if f(s[0]) {
        assert Filter(s, f) == [s[0]] + Filter(s[1..], f);
        assert Filter(s, f)[1..] == Filter(s[1..], f);
      } else {
        assert Filter(s, f) == Filter(s[1..], f);
      }
    }
  }

  /** Filtering twice is filtering once by the conjunction. */
  lemma {:induction false} FilterTwice<T>(s: seq<T>, f: T -> bool, g: T -> bool)
    ensures Filter(Filter(s, f), g) == Filter(s, Both(f, g))
    decreases |s|
  {
    if s != [] {
      FilterTwice(s[1..], f, g);
      if f(s[0]) {
        assert Filter(s, f) == [s[0]] + Filter(s[1..], f);
        assert Filter(s, f)[1..] == Filter(s[1..], f);
      } else {
        assert Filter(s, f) == Filter(s[1..], f);
      }
    }
  }

  /** Two predicates that agree on the elements of `s` filter it alike. */
  lemma {:induction false} FilterAgrees<T>(s: seq<T>, f: T -> bool, g: T -> bool)
    requires forall x :: x in s ==> f(x) == g(x)
    ensures Filter(s, f) == Filter(s, g)
    decreases |s|
  {
    if s != [] {
      FilterAgrees(s[1..], f, g);
    }
  }

  /** A filter that every element passes returns the sequence itself. */
  lemma {:induction false} FilterKeepsAll<T>(s: seq<T>, f: T -> bool)
    requires forall x :: x in s ==> f(x)
    ensures Filter(s, f) == s
    decreases |s|
  {
    if s != [] {
      FilterKeepsAll(s[1..], f);
    }
  }

  /** A filter that no element passes returns the empty sequence. */
  lemma {:induction false} FilterDropsAll<T>(s: seq<T>, f: T -> bool)
    requires forall x :: x in s ==> !f(x)
    ensures Filter(s, f) == []
    decreases |s|
  {
    if s != [] {
      FilterDropsAll(s[1..], f);
    }
  }

  /** The first element a filter keeps is the element at the first matching position. */
  lemma {:induction false} FilterHead<T>(s: seq<T>, f: T -> bool)
    ensures FirstIndex(s, f).None? <==> Filter(s, f) == []
    ensures FirstIndex(s, f).Some? ==> Filter(s, f)[0] == s[FirstIndex(s, f).value]
    decreases |s|
  {
    if s != [] && !f(s[0]) {
      FilterHead(s[1..], f);
      assert Filter(s, f) == Filter(s[1..], f);
    }
  }

  /** When no element passes both predicates, the count by "either" is the sum of the counts. */
  lemma {:induction false} FilterCountDisjoint<T>(s: seq<T>, f: T -> bool, g: T -> bool, either: T -> bool)
    requires forall x :: x in s ==> !(f(x) && g(x))
    requires forall x :: x in s ==> either(x) == (f(x) || g(x))
    ensures |Filter(s, either)| == |Filter(s, f)| + |Filter(s, g)|
    decreases |s|
  {
    if s != [] {
      FilterCountDisjoint(s[1..], f, g, either);
    }
  }
}
