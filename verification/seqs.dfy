/** The three list idioms the services are built from: a list
    comprehension with a condition (`[x for x in xs if keep(x)]`), Python's
    slice `xs[start:stop]` and the first-match lookup
    `next((x for x in xs if p(x)), None)`. */
module Seqs {
  import opened Common

  /** `[x for x in s if keep(x)]`. */
  function Filter<T>(s: seq<T>, keep: T -> bool): (r: seq<T>)
    ensures |r| <= |s|
    ensures forall i :: 0 <= i < |r| ==> keep(r[i]) && r[i] in s
    decreases |s|
  {
    if s == [] then []
    else if keep(s[0]) then [s[0]] + Filter(s[1..], keep)
    else Filter(s[1..], keep)
  }

  /** Nothing that is kept is lost: an element is in the result exactly when
      it is in the input and satisfies the condition. */
  lemma {:induction false} FilterMembership<T>(s: seq<T>, keep: T -> bool, x: T)
    ensures x in Filter(s, keep) <==> x in s && keep(x)
    decreases |s|
  {
    if s != [] {
      FilterMembership(s[1..], keep, x);
      assert s == [s[0]] + s[1..];
    }
  }

  /** Filtering keeps the input's order: filtering a concatenation is the
      concatenation of the filtered parts. */
  lemma {:induction false} FilterAppend<T>(a: seq<T>, b: seq<T>, keep: T -> bool)
    ensures Filter(a + b, keep) == Filter(a, keep) + Filter(b, keep)
    decreases |a|
  {
    if a != [] {
      assert (a + b)[1..] == a[1..] + b;
      FilterAppend(a[1..], b, keep);
    } else {
      assert a + b == b;
    }
  }

  /** Two filters applied one after the other keep exactly what the single
      filter on the conjunction keeps. */
  lemma {:induction false} FilterTwice<T>(s: seq<T>, p: T -> bool, q: T -> bool)
    ensures Filter(Filter(s, p), q) == Filter(s, x => p(x) && q(x))
    decreases |s|
  {
    if s != [] {
      FilterTwice(s[1..], p, q);
    }
  }

  /** The order in which two filters are applied does not matter. */
  lemma FilterCommute<T>(s: seq<T>, p: T -> bool, q: T -> bool)
    ensures Filter(Filter(s, p), q) == Filter(Filter(s, q), p)
  {
    FilterTwice(s, p, q);
    FilterTwice(s, q, p);
    FilterSameCondition(s, x => p(x) && q(x), x => q(x) && p(x));
  }

  lemma {:induction false} FilterSameCondition<T>(s: seq<T>, p: T -> bool, q: T -> bool)
    requires forall x :: p(x) == q(x)
    ensures Filter(s, p) == Filter(s, q)
    decreases |s|
  {
    if s != [] {
      FilterSameCondition(s[1..], p, q);
    }
  }

  /** Three filters applied one after the other keep exactly what one
      filter by their conjunction keeps. */
  lemma {:induction false} FilterThrice<T>(s: seq<T>, p: T -> bool, q: T -> bool, t: T -> bool, all: T -> bool)
    requires forall x :: all(x) == (p(x) && q(x) && t(x))
    ensures Filter(Filter(Filter(s, p), q), t) == Filter(s, all)
    decreases |s|
  {
    if s != [] {
      FilterThrice(s[1..], p, q, t, all);
    }
  }

  /** A condition every element meets keeps the whole list. */
  lemma {:induction false} FilterAll<T>(s: seq<T>, keep: T -> bool)
    requires forall i :: 0 <= i < |s| ==> keep(s[i])
    ensures Filter(s, keep) == s
    decreases |s|
  {
    if s != [] {
      FilterAll(s[1..], keep);
    }
  }

  /** A condition no element meets keeps nothing. */
  lemma {:induction false} FilterNone<T>(s: seq<T>, keep: T -> bool)
    requires forall i :: 0 <= i < |s| ==> !keep(s[i])
    ensures Filter(s, keep) == []
    decreases |s|
  {
    if s != [] {
      FilterNone(s[1..], keep);
    }
  }

  /** How often each value occurs: as often as in the input when it is kept,
      never otherwise. */
  lemma {:induction false} FilterMultiset<T>(s: seq<T>, keep: T -> bool, x: T)
    ensures multiset(Filter(s, keep))[x] == if keep(x) then multiset(s)[x] else 0
    decreases |s|
  {
    if s != [] {
      FilterMultiset(s[1..], keep, x);
      assert s == [s[0]] + s[1..];
    }
  }

  // ---------------------------------------------------------------------
  // Python slicing with step 1
  // ---------------------------------------------------------------------

  /** How Python turns a slice bound into a position in a list of length
      `n`: a negative bound counts from the end, and the result is clamped
      to `0..n`. */
  function SliceBound(i: int, n: nat): (k: nat)
    ensures k <= n
    ensures 0 <= i <= n ==> k == i
    ensures i > n ==> k == n
  {
    if i < 0 then (if i + n < 0 then 0 else i + n) else if i > n then n else i
  }

  /** Python's `s[start:stop]`. */
  function PySlice<T>(s: seq<T>, start: int, stop: int): (r: seq<T>)
    ensures |r| <= |s|
    ensures var lo, hi := SliceBound(start, |s|), SliceBound(stop, |s|);
            |r| == (if lo < hi then hi - lo else 0)
            && forall i :: 0 <= i < |r| ==> r[i] == s[lo + i]
  {
    var lo, hi := SliceBound(start, |s|), SliceBound(stop, |s|);
    if lo < hi then s[lo..hi] else []
  }

  /** For non-negative bounds the slice is the window `[start, stop)` cut
      down to the list: at most `stop - start` elements, and exactly
      `min(stop, |s|) - start` of them when `start < |s|`. */
  lemma NonNegativeSlice<T>(s: seq<T>, start: int, stop: int)
    requires 0 <= start && 0 <= stop
    ensures |PySlice(s, start, stop)| <= if stop - start < 0 then 0 else stop - start
    ensures 0 <= start <= stop ==>
              |PySlice(s, start, stop)| ==
                (if stop <= |s| then stop - start else if start <= |s| then |s| - start else 0)
    ensures start <= stop <= |s| ==> PySlice(s, start, stop) == s[start..stop]
  {
  }

  // ---------------------------------------------------------------------
  // First match
  // ---------------------------------------------------------------------

  /** The position of the first element satisfying `p`. */
  function FindFirst<T>(s: seq<T>, p: T -> bool): (r: Option<nat>)
    ensures r.Some? ==> r.value < |s| && p(s[r.value])
                        && forall j :: 0 <= j < r.value ==> !p(s[j])
    ensures r.None? <==> forall j :: 0 <= j < |s| ==> !p(s[j])
    decreases |s|
  {
    if s == [] then None
    else if p(s[0]) then Some(0)
    else match FindFirst(s[1..], p)
      case None => None
      case Some(i) => Some(i + 1)
  }

  /** `next((x for x in s if p(x)), None)`. */
  function FirstWhere<T>(s: seq<T>, p: T -> bool): (r: Option<T>)
    ensures r.Some? <==> exists j :: 0 <= j < |s| && p(s[j])
    ensures r.Some? ==> r.value in s && p(r.value)
    ensures r.Some? ==> exists k :: 0 <= k < |s| && s[k] == r.value
                                    && forall j :: 0 <= j < k ==> !p(s[j])
  {
    match FindFirst(s, p)
    case None => None
    case Some(i) => Some(s[i])
  }

  /** The first match does not depend on what follows it. */
  lemma {:induction false} FirstWhereAppend<T>(a: seq<T>, b: seq<T>, p: T -> bool)
    requires exists j :: 0 <= j < |a| && p(a[j])
    ensures FirstWhere(a + b, p) == FirstWhere(a, p)
    decreases |a|
  {
    if !p(a[0]) {
      assert (a + b)[1..] == a[1..] + b;
      var j :| 0 <= j < |a| && p(a[j]);
      assert p(a[1..][j - 1]);
      FirstWhereAppend(a[1..], b, p);
    }
  }
}
