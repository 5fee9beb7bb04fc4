/**
 * Case-sensitive substring search, the model of JavaScript's
 * `String.prototype.includes`, plus the small sequence helpers the engine
 * uses (`Array.prototype.includes`, `.some`, `.filter`, `.filter(Boolean).length`).
 */
module Strings {

  /** `s` begins with `t`. */
  predicate StartsWith(s: string, t: string) {
    |t| <= |s| && s[..|t|] == t
  }

  /** `t` occurs in `s` starting at index `k`. */
  predicate OccursAt(s: string, t: string, k: int) {
    0 <= k <= |s| && StartsWith(s[k..], t)
  }

  /**
   * `s.includes(t)`: exact, case-sensitive; the empty needle occurs
   * everywhere. Defined by scanning `s` from the left.
   */
  predicate Contains(s: string, t: string)
    decreases |s|
  {
    StartsWith(s, t) || (s != [] && Contains(s[1..], t))
  }

  /** The scan finds exactly the needles that occur at some index. */
  lemma {:induction false} ContainsIff(s: string, t: string)
    ensures Contains(s, t) <==> exists k | 0 <= k <= |s| :: OccursAt(s, t, k)
    decreases |s|
  {
    assert s[0..] == s;
    if StartsWith(s, t) {
      assert OccursAt(s, t, 0);
    }
    if s != [] {
      ContainsIff(s[1..], t);
      if exists k | 0 <= k <= |s[1..]| :: OccursAt(s[1..], t, k) {
        var k :| 0 <= k <= |s[1..]| && OccursAt(s[1..], t, k);
        assert s[k + 1..] == s[1..][k..];
        assert OccursAt(s, t, k + 1);
      }
      if exists k | 0 <= k <= |s| :: OccursAt(s, t, k) {
        var k :| 0 <= k <= |s| && OccursAt(s, t, k);
        if k == 0 {
          assert StartsWith(s, t);
        } else {
          assert s[k..] == s[1..][k - 1..];
          assert OccursAt(s[1..], t, k - 1);
          assert Contains(s[1..], t);
        }
      }
    }
  }

  lemma {:induction false} ContainsAt(s: string, t: string, k: int)
    requires OccursAt(s, t, k)
    ensures Contains(s, t)
    decreases k
  {
    if k > 0 {
      assert s[1..][k - 1..] == s[k..];
      ContainsAt(s[1..], t, k - 1);
    }
  }

  /** A needle holding a character the haystack lacks cannot occur in it. */
  lemma {:induction false} NotContainsByChar(s: string, t: string, j: nat)
    requires j < |t| && t[j] !in s
    ensures !Contains(s, t)
    decreases |s|
  {
    if s != [] {
      assert forall c :: c in s[1..] ==> c in s;
      NotContainsByChar(s[1..], t, j);
    }
  }

  /**
   * If the needle's first character `c` occurs only once in the haystack
   * `p + [c] + q`, and the character after it differs from the needle's
   * second one, the needle does not occur.
   */
  lemma {:induction false} NotContainsSplit(p: string, c: char, q: string, t: string)
    requires 2 <= |t| && t[0] == c && c !in p && c !in q
    requires q == [] || q[0] != t[1]
    ensures !Contains(p + [c] + q, t)
    decreases |p|
  {
    var s := p + [c] + q;
    if p == [] {
      assert s == [c] + q;
      assert s[1..] == q;
      NotContainsByChar(q, t, 0);
    } else {
      assert s[0] == p[0] != c;
      assert s[1..] == p[1..] + [c] + q;
      NotContainsSplit(p[1..], c, q, t);
    }
  }

  /** `s.push(x)` when `c` holds: the list after one conditional push. */
  function PushIf<T(!new)>(s: seq<T>, c: bool, x: T): (r: seq<T>)
    ensures |r| == |s| + (if c then 1 else 0)
    ensures forall y :: y in r <==> y in s || (c && y == x)
  {
    if c then s + [x] else s
  }

  /** `xs.some(x => vocab.includes(x))`. */
  predicate HasAny(xs: seq<string>, vocab: seq<string>) {
    exists i | 0 <= i < |xs| :: xs[i] in vocab
  }

  /** `xs.filter(x => vocab.includes(x))`: the elements of `xs` that belong to `vocab`, in order. */
  function KeepIn(xs: seq<string>, vocab: seq<string>): (r: seq<string>)
    ensures |r| <= |xs|
    ensures forall x :: x in r <==> x in xs && x in vocab
    ensures r == [] <==> !HasAny(xs, vocab)
  {
    if xs == [] then []
    else
      var rest := KeepIn(xs[1..], vocab);
      assert forall x :: x in xs <==> x == xs[0] || x in xs[1..];
      assert HasAny(xs, vocab) <==> xs[0] in vocab || HasAny(xs[1..], vocab) by {
        if HasAny(xs[1..], vocab) {
          var i :| 0 <= i < |xs[1..]| && xs[1..][i] in vocab;
          assert xs[i + 1] in vocab;
        }
        if HasAny(xs, vocab) && xs[0] !in vocab {
          var i :| 0 <= i < |xs| && xs[i] in vocab;
          assert xs[1..][i - 1] in vocab;
        }
      }
      if xs[0] in vocab then [xs[0]] + rest else rest
  }

  /** `bs.filter(Boolean).length`. */
  function CountTrue(bs: seq<bool>): (n: nat)
    ensures n <= |bs|
    ensures n == |bs| <==> forall i | 0 <= i < |bs| :: bs[i]
    ensures n == 0 <==> forall i | 0 <= i < |bs| :: !bs[i]
  {
    if bs == [] then 0
    else
      var rest := CountTrue(bs[1..]);
      assert forall i | 1 <= i < |bs| :: bs[i] == bs[1..][i - 1];
      (if bs[0] then 1 else 0) + rest
  }

  /** `a` is an order-preserving subsequence of `b`. */
  predicate IsSubsequence<T(==)>(a: seq<T>, b: seq<T>)
    decreases |b|
  {
    a == [] || (b != [] && ((a[0] == b[0] && IsSubsequence(a[1..], b[1..])) || IsSubsequence(a, b[1..])))
  }
}
