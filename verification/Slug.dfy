/** Unique slugs by probing `base`, `base-2`, `base-3`, ... */
module Slug {
  import Decimal

  function Candidate(base: string, n: nat): string {
    base + "-" + Decimal.ToString(n)
  }

  lemma CandidatesDiffer(base: string, m: nat, n: nat)
    requires Candidate(base, m) == Candidate(base, n)
    ensures m == n
  {
    assert Decimal.ToString(m) == Candidate(base, m)[|base| + 1..];
    assert Decimal.ToString(n) == Candidate(base, n)[|base| + 1..];
    Decimal.ToStringInjective(m, n);
  }

  predicate LeastFree(base: string, taken: set<string>, n: nat) {
    2 <= n && Candidate(base, n) !in taken && forall m :: 2 <= m < n ==> Candidate(base, m) in taken
  }

  lemma SubsetSize<T>(a: set<T>, b: set<T>)
    requires a <= b
    ensures |a| <= |b|
    decreases |a|
  {
    if x :| x in a { SubsetSize(a - {x}, b - {x}); }
  }

  lemma {:induction false} SizeOfSeq<T>(s: seq<T>)
    ensures |set x | x in s| <= |s|
  {
    if s == [] {
      assert (set x | x in s) == {};
    } else {
      SizeOfSeq(s[1..]);
      assert (set x | x in s) == {s[0]} + set x | x in s[1..];
    }
  }

  ghost function Probed(base: string, n: nat): set<string> {
    set m | 2 <= m < n :: Candidate(base, m)
  }

  lemma {:induction false} ProbedSize(base: string, n: nat)
    requires n >= 2
    ensures |Probed(base, n)| == n - 2
  {
    if n == 2 {
      assert Probed(base, n) == {};
    } else {
      ProbedSize(base, n - 1);
      assert Probed(base, n) == Probed(base, n - 1) + {Candidate(base, n - 1)};
      if m :| 2 <= m < n - 1 && Candidate(base, m) == Candidate(base, n - 1) { CandidatesDiffer(base, m, n - 1); }
    }
  }

  /** Pigeonhole: with the base and every suffix below `n` taken, `n` is at most one more than the slugs taken. */
  lemma ProbeBound(base: string, taken: set<string>, n: nat)
    requires n >= 2 && base in taken && forall m :: 2 <= m < n ==> Candidate(base, m) in taken
    ensures n <= |taken| + 1
  {
    ProbedSize(base, n);
    assert forall m :: |Candidate(base, m)| > |base|;
    SubsetSize(Probed(base, n), taken - {base});
  }

  /** A slug nobody has: the desired one, or the least free suffix. */
  method UniqueSlug(slugify: string -> string, desired: string, taken: seq<string>) returns (slug: string)
    ensures slug !in taken
    ensures slugify(desired) !in taken ==> slug == slugify(desired)
    ensures slugify(desired) in taken ==>
              exists n: nat :: n <= |taken| + 1 && slug == Candidate(slugify(desired), n)
                               && LeastFree(slugify(desired), (set s | s in taken), n)
  {
    hide Candidate;
    var base := slugify(desired);
    var slugs := set s | s in taken;
    SizeOfSeq(taken);
    if base !in slugs { return base; }
    var n := 2;
    ProbeBound(base, slugs, n);
    while Candidate(base, n) in slugs
      invariant 2 <= n <= |slugs| + 1
      invariant forall m :: 2 <= m < n ==> Candidate(base, m) in slugs
      decreases |slugs| + 1 - n
    {
      n := n + 1;
      ProbeBound(base, slugs, n);
    }
    slug := Candidate(base, n);
    assert LeastFree(base, slugs, n);
  }
}
