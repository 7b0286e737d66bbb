/** Sequence operations the handlers use: `Array.prototype.filter`, `slice`,
    and the insertion-ordered `Set` behind `Array.from(new Set(...))`. */
module Seqs {

  /** `sub` is obtained from `s` by deleting elements, keeping the order of the rest. */
  predicate IsSubsequence<T(==)>(sub: seq<T>, s: seq<T>)
    decreases |s|
  {
    if |sub| == 0 then true
    else if |s| == 0 then false
    else if sub[0] == s[0] then IsSubsequence(sub[1..], s[1..])
    else IsSubsequence(sub, s[1..])
  }

  /** Number of elements of `s` that satisfy `p`. */
  function Count<T>(s: seq<T>, p: T -> bool): nat
  {
    if |s| == 0 then 0 else (if p(s[0]) then 1 else 0) + Count(s[1..], p)
  }

  /** The sum of `f` over the elements of `s`. */
  function Total<T>(s: seq<T>, f: T -> nat): nat
  {
    if |s| == 0 then 0 else f(s[0]) + Total(s[1..], f)
  }

  lemma {:induction false} SubsequenceDropHead<T>(sub: seq<T>, s: seq<T>)
    requires |sub| > 0 && IsSubsequence(sub, s)
    ensures IsSubsequence(sub[1..], s)
    decreases |s|, 0
  {
    if sub[0] == s[0] {
      SubsequenceSkip(sub[1..], s[1..], s[0]);
      assert [s[0]] + s[1..] == s;
    } else {
      SubsequenceDropHead(sub, s[1..]);
      SubsequenceSkip(sub[1..], s[1..], s[0]);
      assert [s[0]] + s[1..] == s;
    }
  }

  /** Prepending an element to the sequence keeps a subsequence a subsequence. */
  lemma {:induction false} SubsequenceSkip<T>(sub: seq<T>, s: seq<T>, x: T)
    requires IsSubsequence(sub, s)
    ensures IsSubsequence(sub, [x] + s)
    decreases |s|, 1
  {
    var xs := [x] + s;
    assert xs[1..] == s;
    if |sub| > 0 && sub[0] == x {
      SubsequenceDropHead(sub, s);
    }
  }

  /** A subsequence is no longer than the sequence and only holds its elements. */
  lemma {:induction false} SubsequenceFacts<T>(sub: seq<T>, s: seq<T>)
    requires IsSubsequence(sub, s)
    ensures |sub| <= |s|
    ensures forall x :: x in sub ==> x in s
    decreases |s|
  {
    if |sub| > 0 {
      if sub[0] == s[0] {
        SubsequenceFacts(sub[1..], s[1..]);
        assert sub == [sub[0]] + sub[1..];
      } else {
        SubsequenceFacts(sub, s[1..]);
      }
    }
  }

  lemma {:induction false} SubsequenceRefl<T>(s: seq<T>)
    ensures IsSubsequence(s, s)
    decreases |s|
  {
    if |s| > 0 {
      SubsequenceRefl(s[1..]);
    }
  }

  /** A property of the tail of a suffix `t == s[i..]` from position `m` on holds for
      `s` from position `i + m` on. */
  lemma {:induction false} SuffixTail<T>(s: seq<T>, t: seq<T>, i: nat, m: nat, p: T -> bool)
    requires i <= |s| && t == s[i..] && m <= |t|
    requires forall j :: m <= j < |t| ==> p(t[j])
    ensures forall j :: i + m <= j < |s| ==> p(s[j])
  {
    forall j | i + m <= j < |s| ensures p(s[j]) {
      assert s[j] == t[j - i];
    }
  }

  /** The elements of a non-empty sequence: its head and those of its tail. */
  lemma {:induction false} ConsMembers<T>(s: seq<T>)
    requires |s| > 0
    ensures forall x :: x in s <==> x == s[0] || x in s[1..]
  {
    assert s == [s[0]] + s[1..];
  }

  lemma {:induction false} SubsequenceTransitive<T>(a: seq<T>, b: seq<T>, c: seq<T>)
    requires IsSubsequence(a, b) && IsSubsequence(b, c)
    ensures IsSubsequence(a, c)
    decreases |c|
  {
    if |a| > 0 {
      assert [c[0]] + c[1..] == c;
      if b[0] == c[0] {
        if a[0] == b[0] {
          SubsequenceTransitive(a[1..], b[1..], c[1..]);
        } else {
          SubsequenceTransitive(a, b[1..], c[1..]);
          SubsequenceSkip(a, c[1..], c[0]);
        }
      } else {
        SubsequenceTransitive(a, b, c[1..]);
        SubsequenceSkip(a, c[1..], c[0]);
      }
    }
  }

  /** `Array.prototype.filter`: the elements that satisfy `p`, in their original order. */
  function Filter<T>(s: seq<T>, p: T -> bool): (r: seq<T>)
    ensures IsSubsequence(r, s)
    ensures forall i :: 0 <= i < |r| ==> p(r[i])
    ensures forall x :: x in s && p(x) ==> x in r
    ensures |r| == Count(s, p)
  {
    if |s| == 0 then []
    else
      var rest := Filter(s[1..], p);
      if p(s[0]) then
        assert ([s[0]] + rest)[1..] == rest;
        [s[0]] + rest
      else
        SubsequenceSkip(rest, s[1..], s[0]);
        assert [s[0]] + s[1..] == s;
        rest
  }

  /** Everything `Filter` keeps comes from the input, so the result is never longer. */
  lemma {:induction false} FilterKeepsOnlyMatches<T>(s: seq<T>, p: T -> bool)
    ensures forall x :: x in Filter(s, p) <==> x in s && p(x)
    ensures |Filter(s, p)| <= |s|
  {
    SubsequenceFacts(Filter(s, p), s);
  }

  /** One kept element: it comes from the input and satisfies the predicate. */
  lemma {:induction false} FilterMember<T>(s: seq<T>, p: T -> bool, x: T)
    requires x in Filter(s, p)
    ensures x in s && p(x)
  {
    FilterKeepsOnlyMatches(s, p);
  }

  lemma {:induction false} FilterAppend<T>(a: seq<T>, b: seq<T>, p: T -> bool)
    ensures Filter(a + b, p) == Filter(a, p) + Filter(b, p)
    decreases |a|
  {
    if |a| > 0 {
      assert (a + b)[1..] == a[1..] + b;
      FilterAppend(a[1..], b, p);
    } else {
      assert a + b == b;
    }
  }

  /** Two successive filters keep exactly what one filter on the conjunction keeps. */
  lemma {:induction false} FilterTwice<T>(s: seq<T>, p: T -> bool, q: T -> bool, pq: T -> bool)
    requires forall x :: pq(x) == (p(x) && q(x))
    ensures Filter(Filter(s, p), q) == Filter(s, pq)
    decreases |s|
  {
    if |s| > 0 {
      FilterTwice(s[1..], p, q, pq);
      if p(s[0]) {
        var f := Filter(s, p);
        assert f == [s[0]] + Filter(s[1..], p);
        assert f[1..] == Filter(s[1..], p);
      }
    }
  }

  /** Some element satisfies `p` exactly when the count is positive. */
  lemma {:induction false} CountPositive<T>(s: seq<T>, p: T -> bool)
    ensures Count(s, p) > 0 <==> exists x :: x in s && p(x)
  {
    var r := Filter(s, p);
    FilterKeepsOnlyMatches(s, p);
    if |r| > 0 {
      FilterMember(s, p, r[0]);
    } else {
      assert forall x :: x in s && p(x) ==> x in r;
    }
  }

  /** One element with a positive value makes the total positive. */
  lemma {:induction false} TotalPositive<T>(s: seq<T>, f: T -> nat, x: T)
    requires x in s && f(x) > 0
    ensures Total(s, f) > 0
    decreases |s|
  {
    if s[0] != x {
      assert x in s[1..] by {
        var i :| 0 <= i < |s| && s[i] == x;
        assert s[1..][i - 1] == x;
      }
      TotalPositive(s[1..], f, x);
    }
  }

  /** A list without repetitions whose elements all equal `x` has at most one element. */
  lemma {:induction false} DistinctConstant<T>(s: seq<T>, x: T)
    requires Distinct(s)
    requires forall y :: y in s ==> y == x
    ensures |s| <= 1
  {
    FirstTwo(s);
  }

  lemma {:induction false} FirstTwo<T>(s: seq<T>)
    ensures |s| > 1 ==> s[0] in s && s[1] in s
  {
  }

  /** Filters that agree on every element keep the same elements. */
  lemma {:induction false} FilterSame<T>(s: seq<T>, p: T -> bool, q: T -> bool)
    requires forall x :: p(x) == q(x)
    ensures Filter(s, p) == Filter(s, q)
    decreases |s|
  {
    if |s| > 0 {
      FilterSame(s[1..], p, q);
    }
  }

  /** A filter that keeps everything is the identity. */
  lemma {:induction false} FilterAll<T>(s: seq<T>, p: T -> bool)
    requires forall x :: p(x)
    ensures Filter(s, p) == s
    decreases |s|
  {
    if |s| > 0 {
      FilterAll(s[1..], p);
      assert [s[0]] + s[1..] == s;
    }
  }

  /** Every element is different from every other one. */
  predicate Distinct<T(==)>(s: seq<T>)
  {
    forall i, j :: 0 <= i < j < |s| ==> s[i] != s[j]
  }

  /** Position of the first occurrence of `x` in `s`. */
  function FirstIndex<T(==)>(s: seq<T>, x: T): (i: nat)
    requires x in s
    ensures i < |s| && s[i] == x
    ensures forall j :: 0 <= j < i ==> s[j] != x
  {
    if s[0] == x then 0 else 1 + FirstIndex(s[1..], x)
  }

  /** The elements of `s` without repetitions, in order of first occurrence: what
      `Array.from(set)` yields after adding the elements of `s` one by one to a `Set`. */
  function Dedup<T(==,!new)>(s: seq<T>): (r: seq<T>)
    ensures Distinct(r)
    ensures forall x :: x in r <==> x in s
    ensures |r| <= |s|
  {
    if |s| == 0 then []
    else
      var d := Dedup(s[..|s| - 1]);
      assert forall x :: x in s <==> x in s[..|s| - 1] || x == s[|s| - 1] by {
        assert s == s[..|s| - 1] + [s[|s| - 1]];
      }
      if s[|s| - 1] in d then d else d + [s[|s| - 1]]
  }

  /** `Dedup` lists the elements in the order of their first occurrence. */
  lemma {:induction false} DedupFirstOccurrenceOrder<T(!new)>(s: seq<T>)
    ensures forall i, j :: 0 <= i < j < |Dedup(s)| ==> FirstIndex(s, Dedup(s)[i]) < FirstIndex(s, Dedup(s)[j])
  {
    if |s| > 0 {
      var init := s[..|s| - 1];
      var x := s[|s| - 1];
      DedupFirstOccurrenceOrder(init);
      var d := Dedup(init);
      forall y | y in init
        ensures FirstIndex(s, y) == FirstIndex(init, y)
      {
        var k := FirstIndex(init, y);
        assert s[k] == y;
        assert forall j :: 0 <= j < k ==> s[j] == init[j];
      }
      if x !in d {
        assert x !in init;
        assert FirstIndex(s, x) == |s| - 1;
        var r := Dedup(s);
        assert r == d + [x];
        forall i, j | 0 <= i < j < |r|
          ensures FirstIndex(s, r[i]) < FirstIndex(s, r[j])
        {
          assert r[i] == d[i] && r[i] in init;
          if j < |d| {
            assert r[j] == d[j] && r[j] in init;
          }
        }
      }
    }
  }

  /** A subsequence of a repetition-free sequence is repetition-free. */
  lemma {:induction false} SubsequenceOfDistinct<T>(sub: seq<T>, s: seq<T>)
    requires IsSubsequence(sub, s) && Distinct(s)
    ensures Distinct(sub)
    decreases |s|
  {
    if |sub| > 0 {
      if sub[0] == s[0] {
        SubsequenceOfDistinct(sub[1..], s[1..]);
        SubsequenceFacts(sub[1..], s[1..]);
        assert sub[0] !in s[1..];
        forall j | 0 < j < |sub| ensures sub[0] != sub[j] {
          assert sub[j] == sub[1..][j - 1];
        }
      } else {
        SubsequenceOfDistinct(sub, s[1..]);
      }
    }
  }

  lemma {:induction false} DistinctOnce<T>(s: seq<T>, x: T)
    requires Distinct(s)
    ensures multiset(s)[x] <= 1
    decreases |s|
  {
    if |s| > 0 {
      DistinctOnce(s[1..], x);
      assert s == [s[0]] + s[1..];
      assert s[0] !in s[1..];
    }
  }

  /** A rearrangement of a repetition-free sequence is repetition-free. */
  lemma {:induction false} DistinctPermutation<T>(s: seq<T>, t: seq<T>)
    requires Distinct(s) && multiset(s) == multiset(t)
    ensures Distinct(t)
  {
    forall i, j | 0 <= i < j < |t| ensures t[i] != t[j] {
      if t[i] == t[j] {
        var x := t[i];
        assert t == t[..i] + [x] + t[i + 1..j] + [x] + t[j + 1..];
        assert multiset(t)[x] >= 2;
        DistinctOnce(s, x);
      }
    }
  }

  /** `Array.prototype.slice(0, n)`. */
  function Take<T>(s: seq<T>, n: nat): (r: seq<T>)
    ensures |r| <= n && |r| <= |s|
    ensures |r| == n || r == s
    ensures r == s[..|r|]
  {
    if |s| <= n then s else s[..n]
  }
}
