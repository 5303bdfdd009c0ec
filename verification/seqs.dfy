/** Order-preserving selection over sequences: the model of `Array.prototype.filter`
    and the properties the vehicle browser relies on. */
module Seqs {

  /** `sub` can be obtained from `s` by deleting elements: nothing invented,
      reordered or duplicated. */
  ghost predicate IsSubsequence<T>(sub: seq<T>, s: seq<T>)
    decreases |s|
  {
    sub == [] ||
    (s != [] &&
      ((sub[0] == s[0] && IsSubsequence(sub[1..], s[1..])) || IsSubsequence(sub, s[1..])))
  }

  /** `xs.filter(keep)`: the elements of `s` that `keep` accepts, in their original order. */
  function Filter<T(!new)>(s: seq<T>, keep: T -> bool): (r: seq<T>)
    ensures |r| <= |s|
    ensures forall x :: x in r <==> x in s && keep(x)
    ensures IsSubsequence(r, s)
  {
    if s == [] then []
    else if keep(s[0]) then [s[0]] + Filter(s[1..], keep)
    else Filter(s[1..], keep)
  }

  /** A filter that rejects nothing returns its input unchanged. */
  lemma {:induction false} FilterKeepsAll<T(!new)>(s: seq<T>, keep: T -> bool)
    requires forall x :: x in s ==> keep(x)
    ensures Filter(s, keep) == s
  {
    if s != [] {
      assert forall x :: x in s[1..] ==> x in s;
      FilterKeepsAll(s[1..], keep);
    }
  }

  /** Two predicates that agree on the elements of `s` select the same elements. */
  lemma {:induction false} FilterExt<T(!new)>(s: seq<T>, p: T -> bool, q: T -> bool)
    requires forall x :: x in s ==> p(x) == q(x)
    ensures Filter(s, p) == Filter(s, q)
  {
    if s != [] {
      assert forall x :: x in s[1..] ==> x in s;
      FilterExt(s[1..], p, q);
    }
  }

  /** Filtering twice is filtering once by the conjunction. */
  lemma {:induction false} FilterThen<T(!new)>(s: seq<T>, p: T -> bool, q: T -> bool)
    ensures Filter(Filter(s, p), q) == Filter(s, x => p(x) && q(x))
  {
    if s != [] {
      FilterThen(s[1..], p, q);
      if p(s[0]) {
        assert Filter(s, p) == [s[0]] + Filter(s[1..], p);
        assert ([s[0]] + Filter(s[1..], p))[1..] == Filter(s[1..], p);
      }
    }
  }

  /** Two filter passes may be applied in either order. */
  lemma {:induction false} FilterCommutes<T(!new)>(s: seq<T>, p: T -> bool, q: T -> bool)
    ensures Filter(Filter(s, p), q) == Filter(Filter(s, q), p)
  {
    FilterThen(s, p, q);
    FilterThen(s, q, p);
    FilterExt(s, x => p(x) && q(x), x => q(x) && p(x));
  }

  /** Exactly one element of `s` fails `keep`: the filter drops exactly one. */
  lemma {:induction false} FilterDropsOne<T(!new)>(s: seq<T>, keep: T -> bool, k: nat)
    requires k < |s| && !keep(s[k])
    requires forall i :: 0 <= i < |s| && i != k ==> keep(s[i])
    ensures |Filter(s, keep)| == |s| - 1
  {
    if k == 0 {
      FilterKeepsAll(s[1..], keep);
    } else {
      FilterDropsOne(s[1..], keep, k - 1);
    }
  }

  /** A second pass by `q` after a first by `p` is one pass by any predicate that
      agrees with their conjunction. */
  lemma {:induction false} FilterNarrows<T(!new)>(s: seq<T>, p: T -> bool, q: T -> bool, both: T -> bool)
    requires forall x :: both(x) == (p(x) && q(x))
    ensures Filter(Filter(s, p), q) == Filter(s, both)
  {
    FilterThen(s, p, q);
    FilterExt(s, x => p(x) && q(x), both);
  }

  /** Five successive passes are one pass by their conjunction. */
  lemma {:induction false} FilterFive<T(!new)>(s: seq<T>, a: T -> bool, b: T -> bool, c: T -> bool, d: T -> bool,
                            e: T -> bool, all: T -> bool)
    requires forall x :: all(x) == (a(x) && b(x) && c(x) && d(x) && e(x))
    ensures Filter(Filter(Filter(Filter(Filter(s, a), b), c), d), e) == Filter(s, all)
  {
    var ab := (x: T) => a(x) && b(x);
    var abc := (x: T) => ab(x) && c(x);
    var abcd := (x: T) => abc(x) && d(x);
    FilterNarrows(s, a, b, ab);
    FilterNarrows(s, ab, c, abc);
    FilterNarrows(s, abc, d, abcd);
    FilterNarrows(s, abcd, e, all);
  }

  /** Filtering a two-element sequence. */
  lemma FilterPair<T(!new)>(a: T, b: T, keep: T -> bool)
    ensures Filter([a, b], keep) == (if keep(a) then [a] else []) + (if keep(b) then [b] else [])
  {
    assert [a, b][1..] == [b];
  }
}
