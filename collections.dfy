/** Order-preserving filtering over sequences, the model of JavaScript's
    `Array.prototype.filter`, and the subsequence relation it establishes. */
module Collections {

  /** `r` is obtained from `s` by deleting elements, keeping the order of the rest. */
  predicate IsSubsequence<T(==,!new)>(r: seq<T>, s: seq<T>)
    decreases |s|
  {
    r == [] ||
    (s != [] && ((r[0] == s[0] && IsSubsequence(r[1..], s[1..])) || IsSubsequence(r, s[1..])))
  }

  lemma {:induction false} SubsequenceReflexive<T(!new)>(s: seq<T>)
    ensures IsSubsequence(s, s)
  {
    if s != [] {
      SubsequenceReflexive(s[1..]);
    }
  }

  lemma {:induction false} SubsequenceTransitive<T(!new)>(a: seq<T>, b: seq<T>, c: seq<T>)
    requires IsSubsequence(a, b) && IsSubsequence(b, c)
    ensures IsSubsequence(a, c)
    decreases |c|
  {
    if a != [] {
      if b[0] == c[0] && IsSubsequence(b[1..], c[1..]) {
        if a[0] == b[0] && IsSubsequence(a[1..], b[1..]) {
          SubsequenceTransitive(a[1..], b[1..], c[1..]);
        } else {
          SubsequenceTransitive(a, b[1..], c[1..]);
        }
      } else {
        SubsequenceTransitive(a, b, c[1..]);
      }
    }
  }

  /** The elements of `s` that satisfy `keep`, in their original order. */
  function Filter<T(==,!new)>(s: seq<T>, keep: T -> bool): (r: seq<T>)
    ensures |r| <= |s|
    ensures forall x :: x in r <==> x in s && keep(x)
    ensures IsSubsequence(r, s)
    ensures forall x :: multiset(r)[x] == if keep(x) then multiset(s)[x] else 0
  {
    if s == [] then []
    else
      assert s == [s[0]] + s[1..];
      if keep(s[0]) then [s[0]] + Filter(s[1..], keep)
      else Filter(s[1..], keep)
  }

  /** A filter whose predicate holds everywhere returns its input. */
  lemma {:induction false} FilterKeepsAll<T(!new)>(s: seq<T>, keep: T -> bool)
    requires forall i :: 0 <= i < |s| ==> keep(s[i])
    ensures Filter(s, keep) == s
  {
    if s != [] {
      FilterKeepsAll(s[1..], keep);
    }
  }

  /** A filter that rejects some element returns a strictly shorter sequence. */
  lemma {:induction false} FilterDropsSome<T(!new)>(s: seq<T>, keep: T -> bool)
    requires exists x :: x in s && !keep(x)
    ensures |Filter(s, keep)| < |s|
  {
    if keep(s[0]) {
      var x :| x in s && !keep(x);
      assert x in s[1..];
      FilterDropsSome(s[1..], keep);
    }
  }

  /** A filter keeps everything exactly when its predicate holds everywhere,
      and nothing exactly when it holds nowhere. */
  lemma FilterLength<T(!new)>(s: seq<T>, keep: T -> bool)
    ensures |Filter(s, keep)| == |s| <==> forall x :: x in s ==> keep(x)
    ensures |Filter(s, keep)| == 0 <==> forall x :: x in s ==> !keep(x)
    ensures (forall x :: x in s ==> keep(x)) ==> Filter(s, keep) == s
  {
    var r := Filter(s, keep);
    if forall x :: x in s ==> keep(x) {
      FilterKeepsAll(s, keep);
    } else {
      FilterDropsSome(s, keep);
    }
    if r != [] {
      assert r[0] in r;
    }
  }

  /** `s` with every element equal to `x` removed. */
  function Without<T(==,!new)>(s: seq<T>, x: T): (r: seq<T>)
    ensures forall y :: y in r <==> y in s && y != x
    ensures IsSubsequence(r, s)
  {
    Filter(s, y => y != x)
  }

  /** `s` with every element of `xs` removed, one `Without` per element of `xs`, in order. */
  function WithoutAll<T(==,!new)>(s: seq<T>, xs: seq<T>): (r: seq<T>)
    ensures forall y :: y in r <==> y in s && y !in xs
    ensures IsSubsequence(r, s)
  {
    if xs == [] then
      SubsequenceReflexive(s);
      s
    else
      var front := WithoutAll(s, xs[..|xs| - 1]);
      var r := Without(front, xs[|xs| - 1]);
      assert forall y :: y in xs <==> y in xs[..|xs| - 1] || y == xs[|xs| - 1] by {
        assert xs == xs[..|xs| - 1] + [xs[|xs| - 1]];
      }
      SubsequenceTransitive(r, front, s);
      r
  }

  /** `s.findIndex(p)`: the first index whose element satisfies `p`, or -1. */
  function FirstIndex<T>(s: seq<T>, p: T -> bool): (k: int)
    ensures -1 <= k < |s|
    ensures k >= 0 ==> p(s[k])
    ensures forall j :: 0 <= j < |s| && (k < 0 || j < k) ==> !p(s[j])
  {
    if s == [] then -1
    else if p(s[0]) then 0
    else
      var k := FirstIndex(s[1..], p);
      if k < 0 then -1 else k + 1
  }

  /** Every element of a subsequence is an element of the whole. */
  lemma {:induction false} SubsequenceMembers<T(!new)>(r: seq<T>, s: seq<T>)
    requires IsSubsequence(r, s)
    ensures forall x :: x in r ==> x in s
    decreases |s|
  {
    if r != [] {
      if r[0] == s[0] && IsSubsequence(r[1..], s[1..]) {
        SubsequenceMembers(r[1..], s[1..]);
        assert forall x :: x in r ==> x == r[0] || x in r[1..];
      } else {
        SubsequenceMembers(r, s[1..]);
      }
    }
  }

  /** A prefix is a subsequence. */
  lemma {:induction false} PrefixSubsequence<T(!new)>(s: seq<T>, k: nat)
    requires k <= |s|
    ensures IsSubsequence(s[..k], s)
  {
    if k > 0 {
      PrefixSubsequence(s[1..], k - 1);
      assert s[..k][1..] == s[1..][..k - 1];
    }
  }

  /** Every two elements of `s`, taken in order, are related by `ok`. */
  predicate Pairwise<T>(s: seq<T>, ok: (T, T) -> bool) {
    forall i, j :: 0 <= i < j < |s| ==> ok(s[i], s[j])
  }

  /** Deleting elements keeps a pairwise property. */
  lemma {:induction false} SubsequencePairwise<T(!new)>(r: seq<T>, s: seq<T>, ok: (T, T) -> bool)
    requires IsSubsequence(r, s) && Pairwise(s, ok)
    ensures Pairwise(r, ok)
    decreases |s|
  {
    if r != [] {
      assert Pairwise(s[1..], ok) by {
        forall i, j | 0 <= i < j < |s[1..]| ensures ok(s[1..][i], s[1..][j]) {
          assert ok(s[i + 1], s[j + 1]);
        }
      }
      if r[0] == s[0] && IsSubsequence(r[1..], s[1..]) {
        SubsequencePairwise(r[1..], s[1..], ok);
        SubsequenceMembers(r[1..], s[1..]);
        forall i, j | 0 <= i < j < |r| ensures ok(r[i], r[j]) {
          if i == 0 {
            assert r[j] in s[1..] by { assert r[j] == r[1..][j - 1]; }
            var m :| 0 <= m < |s[1..]| && s[1..][m] == r[j];
            assert ok(s[0], s[m + 1]);
          } else {
            assert ok(r[1..][i - 1], r[1..][j - 1]);
          }
        }
      } else {
        SubsequencePairwise(r, s[1..], ok);
      }
    }
  }
}
