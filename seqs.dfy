/** Sequence combinators that stand for the `Array.prototype` methods the storefront uses
    (`filter` and `reduce` of a sum), with the lemmas the rest of the model needs about them. */
module Seqs {

  /** The elements of `s` that satisfy `p`, in their original order (`s.filter(p)`). */
  function Filter<T>(s: seq<T>, p: T -> bool): (r: seq<T>)
    ensures |r| <= |s|
    ensures forall i :: 0 <= i < |r| ==> p(r[i])
    decreases |s|
  {
    if s == [] then [] else (if p(s[0]) then [s[0]] else []) + Filter(s[1..], p)
  }

  /** Filtering keeps exactly the elements that satisfy the predicate. */
  lemma {:induction false} FilterMembers<T>(s: seq<T>, p: T -> bool)
    ensures forall i :: 0 <= i < |Filter(s, p)| ==> Filter(s, p)[i] in s
    ensures forall i :: 0 <= i < |s| && p(s[i]) ==> s[i] in Filter(s, p)
    decreases |s|
  {
    if s != [] {
      FilterMembers(s[1..], p);
      var r := Filter(s, p);
      var head := if p(s[0]) then [s[0]] else [];
      assert r == head + Filter(s[1..], p);
      forall i | 0 <= i < |r| ensures r[i] in s {
        if i < |head| {
          assert r[i] == s[0];
        } else {
          assert r[i] == Filter(s[1..], p)[i - |head|];
          assert Filter(s[1..], p)[i - |head|] in s[1..];
        }
      }
      forall i | 0 <= i < |s| && p(s[i]) ensures s[i] in r {
        if i == 0 {
          assert r[0] == s[0];
        } else {
          assert s[1..][i - 1] == s[i];
        }
      }
    }
  }

  /** `r` can be obtained from `s` by deleting elements, keeping the order of the rest. */
  ghost predicate IsSubsequence<T>(r: seq<T>, s: seq<T>)
    decreases |s|
  {
    if r == [] then true
    else if s == [] then false
    else (r[0] == s[0] && IsSubsequence(r[1..], s[1..])) || IsSubsequence(r, s[1..])
  }

  lemma {:induction false} FilterIsSubsequence<T>(s: seq<T>, p: T -> bool)
    ensures IsSubsequence(Filter(s, p), s)
    decreases |s|
  {
    if s != [] {
      FilterIsSubsequence(s[1..], p);
      var r := Filter(s, p);
      if p(s[0]) {
        assert r == [s[0]] + Filter(s[1..], p);
        assert r[1..] == Filter(s[1..], p);
      } else {
        assert r == Filter(s[1..], p);
      }
    }
  }

  /** Filtering keeps every occurrence of every element that satisfies the predicate. */
  lemma {:induction false} FilterMultiset<T>(s: seq<T>, p: T -> bool)
    ensures forall x :: p(x) ==> multiset(Filter(s, p))[x] == multiset(s)[x]
    decreases |s|
  {
    if s != [] {
      FilterMultiset(s[1..], p);
      assert s == [s[0]] + s[1..];
      assert Filter(s, p) == (if p(s[0]) then [s[0]] else []) + Filter(s[1..], p);
    }
  }

  /** Filtering with a predicate every element satisfies gives back the sequence itself. */
  lemma {:induction false} FilterKeepsAll<T>(s: seq<T>, p: T -> bool)
    requires forall i :: 0 <= i < |s| ==> p(s[i])
    ensures Filter(s, p) == s
    decreases |s|
  {
    if s != [] {
      FilterKeepsAll(s[1..], p);
      assert p(s[0]);
      assert Filter(s, p) == [s[0]] + s[1..];
    }
  }

  /** Filtering distributes over concatenation. */
  lemma {:induction false} FilterAppend<T>(a: seq<T>, b: seq<T>, p: T -> bool)
    ensures Filter(a + b, p) == Filter(a, p) + Filter(b, p)
    decreases |a|
  {
    if a != [] {
      FilterAppend(a[1..], b, p);
      assert (a + b)[1..] == a[1..] + b;
    } else {
      assert a + b == b;
    }
  }

  /** Filtering a sequence filters the part before, the element at, and the part after `k`. */
  lemma {:induction false} FilterAround<T>(s: seq<T>, p: T -> bool, k: nat)
    requires k < |s|
    ensures Filter(s, p) == Filter(s[..k], p) + (if p(s[k]) then [s[k]] else []) + Filter(s[k + 1..], p)
  {
    assert s == s[..k] + ([s[k]] + s[k + 1..]);
    FilterAppend(s[..k], [s[k]] + s[k + 1..], p);
    FilterAppend([s[k]], s[k + 1..], p);
    assert [s[k]][1..] == [];
  }

  /** Filtering with a predicate that fails on exactly one position deletes that position. */
  lemma {:induction false} FilterDropsOne<T>(s: seq<T>, p: T -> bool, k: nat)
    requires k < |s| && !p(s[k])
    requires forall i :: 0 <= i < |s| && i != k ==> p(s[i])
    ensures Filter(s, p) == s[..k] + s[k + 1..]
  {
    FilterAround(s, p, k);
    var before, after := s[..k], s[k + 1..];
    assert Filter(before, p) == before by {
      forall i | 0 <= i < |before| ensures p(before[i]) {
        assert before[i] == s[i];
      }
      FilterKeepsAll(before, p);
    }
    assert Filter(after, p) == after by {
      forall i | 0 <= i < |after| ensures p(after[i]) {
        assert after[i] == s[k + 1 + i];
      }
      FilterKeepsAll(after, p);
    }
  }

  /** Sum of `f` over `s`: `s.reduce((sum, x) => sum + f(x), 0)` on integers. */
  function SumInt<T>(s: seq<T>, f: T -> int): int
    decreases |s|
  {
    if s == [] then 0 else f(s[0]) + SumInt(s[1..], f)
  }

  /** Sum of `f` over `s`: `s.reduce((sum, x) => sum + f(x), 0)` on exact reals. Addition of
      reals is associative, so summing from the front equals JavaScript's left fold. */
  function SumReal<T>(s: seq<T>, f: T -> real): real
    decreases |s|
  {
    if s == [] then 0.0 else f(s[0]) + SumReal(s[1..], f)
  }

  lemma {:induction false} SumIntAppend<T>(s: seq<T>, x: T, f: T -> int)
    ensures SumInt(s + [x], f) == SumInt(s, f) + f(x)
    decreases |s|
  {
    if s == [] {
      assert [] + [x] == [x];
    } else {
      assert (s + [x])[1..] == s[1..] + [x];
      SumIntAppend(s[1..], x, f);
    }
  }

  lemma {:induction false} SumRealAppend<T>(s: seq<T>, x: T, f: T -> real)
    ensures SumReal(s + [x], f) == SumReal(s, f) + f(x)
    decreases |s|
  {
    if s == [] {
      assert [] + [x] == [x];
    } else {
      assert (s + [x])[1..] == s[1..] + [x];
      SumRealAppend(s[1..], x, f);
    }
  }

  /** Replacing one element changes the sum by the difference of the two summands. */
  lemma {:induction false} SumIntUpdate<T>(s: seq<T>, k: nat, x: T, f: T -> int)
    requires k < |s|
    ensures SumInt(s[k := x], f) == SumInt(s, f) - f(s[k]) + f(x)
    decreases |s|
  {
    if k > 0 {
      assert s[k := x][1..] == s[1..][k - 1 := x];
      SumIntUpdate(s[1..], k - 1, x, f);
    }
  }

  lemma {:induction false} SumRealUpdate<T>(s: seq<T>, k: nat, x: T, f: T -> real)
    requires k < |s|
    ensures SumReal(s[k := x], f) == SumReal(s, f) - f(s[k]) + f(x)
    decreases |s|
  {
    if k > 0 {
      assert s[k := x][1..] == s[1..][k - 1 := x];
      SumRealUpdate(s[1..], k - 1, x, f);
    }
  }

  /** Deleting one element takes its summand out of the sum. */
  lemma {:induction false} SumIntDelete<T>(s: seq<T>, k: nat, f: T -> int)
    requires k < |s|
    ensures SumInt(s[..k] + s[k + 1..], f) == SumInt(s, f) - f(s[k])
    decreases |s|
  {
    if k == 0 {
      assert s[..0] + s[1..] == s[1..];
    } else {
      SumIntDelete(s[1..], k - 1, f);
      assert (s[..k] + s[k + 1..])[1..] == s[1..][..k - 1] + s[1..][k..];
    }
  }

  lemma {:induction false} SumRealDelete<T>(s: seq<T>, k: nat, f: T -> real)
    requires k < |s|
    ensures SumReal(s[..k] + s[k + 1..], f) == SumReal(s, f) - f(s[k])
    decreases |s|
  {
    if k == 0 {
      assert s[..0] + s[1..] == s[1..];
    } else {
      SumRealDelete(s[1..], k - 1, f);
      assert (s[..k] + s[k + 1..])[1..] == s[1..][..k - 1] + s[1..][k..];
    }
  }

  /** A sum is bounded below by `|s| * b` when every summand is at least `b`. */
  lemma {:induction false} SumIntAtLeast<T>(s: seq<T>, f: T -> int, b: int)
    requires forall i :: 0 <= i < |s| ==> f(s[i]) >= b
    ensures SumInt(s, f) >= |s| * b
    decreases |s|
  {
    if s != [] {
      SumIntAtLeast(s[1..], f, b);
      assert f(s[0]) >= b;
    }
  }

  /** Summands compared pointwise give sums compared the same way. */
  lemma {:induction false} SumRealMonotone<T>(s: seq<T>, f: T -> real, g: T -> real)
    requires forall i :: 0 <= i < |s| ==> f(s[i]) <= g(s[i])
    ensures SumReal(s, f) <= SumReal(s, g)
    decreases |s|
  {
    if s != [] {
      SumRealMonotone(s[1..], f, g);
      assert f(s[0]) <= g(s[0]);
    }
  }

  /** Summands that agree pointwise give equal sums. */
  lemma {:induction false} SumRealCongruent<T>(s: seq<T>, f: T -> real, g: T -> real)
    requires forall i :: 0 <= i < |s| ==> f(s[i]) == g(s[i])
    ensures SumReal(s, f) == SumReal(s, g)
    decreases |s|
  {
    if s != [] {
      SumRealCongruent(s[1..], f, g);
      assert f(s[0]) == g(s[0]);
    }
  }
}
