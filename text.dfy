/** The few JavaScript string operations the service relies on, stated on `seq<char>`. */
module Text {

  /** `p` occurs in `s` at index `k`. */
  predicate StartsWithAt(s: string, k: nat, p: string)
  {
    k + |p| <= |s| && s[k..k + |p|] == p
  }

  /** `String.prototype.endsWith`: `s` is some text followed by `p`. */
  function EndsWith(s: string, p: string): (r: bool)
    ensures r <==> exists t: string :: s == t + p
  {
    if |p| <= |s| && s[|s| - |p|..] == p then
      assert s == s[..|s| - |p|] + p;
      true
    else
      false
  }

  /** `String.prototype.includes`: some index of `s` starts an occurrence of `p`. */
  function Contains(s: string, p: string): (r: bool)
    ensures r <==> exists k: nat :: StartsWithAt(s, k, p)
  {
    ContainsFrom(s, p, 0)
  }

  /** The scan behind `Contains`, from index `from` onwards. */
  function ContainsFrom(s: string, p: string, from: nat): (r: bool)
    decreases |s| - from
    ensures r <==> exists k: nat :: from <= k && StartsWithAt(s, k, p)
  {
    if from + |p| > |s| then false
    else StartsWithAt(s, from, p) || ContainsFrom(s, p, from + 1)
  }

  /** The line terminators of ECMAScript, which the regular-expression atom `.` does not match. */
  predicate IsLineTerminator(c: char)
  {
    c == '\n' || c == '\r' || c == '\U{2028}' || c == '\U{2029}'
  }

  /** An occurrence inside a prefix of `s` is an occurrence in `s`. */
  lemma StartsWithInPrefix(s: string, prefix: string, k: nat, p: string)
    requires StartsWithAt(s, 0, prefix) && StartsWithAt(prefix, k, p)
    ensures StartsWithAt(s, k, p)
  {
    assert s[k..k + |p|] == s[..|prefix|][k..k + |p|];
  }

  /** A witness occurrence is enough to show `Contains`. */
  lemma ContainsAt(s: string, p: string, k: nat)
    requires StartsWithAt(s, k, p)
    ensures Contains(s, p)
  {
  }

  /** A text lacking one of the characters of `p` does not contain `p`. */
  lemma MissingChar(s: string, p: string, i: nat)
    requires i < |p| && p[i] !in s
    ensures !Contains(s, p)
  {
    forall k: nat | k + |p| <= |s|
      ensures !StartsWithAt(s, k, p)
    {
      assert s[k..k + |p|][i] == s[k + i] && s[k + i] in s;
    }
  }

  /** No character `a` of `s` is directly followed by `b`. */
  predicate PairFree(s: string, a: char, b: char)
  {
    forall k :: 0 <= k < |s| - 1 ==> !(s[k] == a && s[k + 1] == b)
  }

  /** A text in which two adjacent characters of `p` never appear together does not contain `p`. */
  lemma MissingPair(s: string, p: string, i: nat)
    requires i + 1 < |p| && PairFree(s, p[i], p[i + 1])
    ensures !Contains(s, p)
  {
    forall k: nat | k + |p| <= |s|
      ensures !StartsWithAt(s, k, p)
    {
      assert s[k..k + |p|][i] == s[k + i] && s[k..k + |p|][i + 1] == s[k + i + 1];
    }
  }

  /** Two texts free of a pair stay free of it when joined, unless the pair straddles the join. */
  lemma PairJoin(x: string, y: string, a: char, b: char)
    requires PairFree(x, a, b) && PairFree(y, a, b)
    requires x != [] && y != [] ==> !(x[|x| - 1] == a && y[0] == b)
    ensures PairFree(x + y, a, b)
  {
    var s := x + y;
    forall k | 0 <= k < |s| - 1
      ensures !(s[k] == a && s[k + 1] == b)
    {
      if k + 1 < |x| {
        assert s[k] == x[k] && s[k + 1] == x[k + 1];
      } else if k + 1 == |x| {
        assert s[k] == x[|x| - 1] && s[k + 1] == y[0];
      } else {
        assert s[k] == y[k - |x|] && s[k + 1] == y[k - |x| + 1];
      }
    }
  }
}
