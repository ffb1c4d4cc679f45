/**
 * String facts used by the completion algorithm: case-sensitive prefixes
 * (QString::startsWith), the common prefix of two strings (the inner loop of
 * findCompletions), the common prefix of a list, and the order QString's
 * operator< gives to strings (used by qStableSort).
 */
module Strings {

  /** Concatenation regrouped; stated once so that long proofs need not rediscover it. */
  lemma AppendAssociative<T>(a: seq<T>, b: seq<T>, c: seq<T>)
    ensures (a + b) + c == a + (b + c)
  {
  }

  /** p is a prefix of s (QString::startsWith with case sensitivity). */
  predicate IsPrefix(p: string, s: string) {
    |p| <= |s| && s[..|p|] == p
  }

  lemma PrefixTransitive(a: string, b: string, c: string)
    requires IsPrefix(a, b) && IsPrefix(b, c)
    ensures IsPrefix(a, c)
  {
    assert c[..|a|] == c[..|b|][..|a|];
  }

  /** The index of the first position where a and b differ, or the shorter length. */
  function PrefixLength(a: string, b: string): (n: nat)
    ensures n <= |a| && n <= |b|
    ensures a[..n] == b[..n]
    ensures n == |a| || n == |b| || a[n] != b[n]
  {
    if a == [] || b == [] || a[0] != b[0] then 0
    else
      var m := PrefixLength(a[1..], b[1..]);
      assert a[..m + 1] == [a[0]] + a[1..][..m];
      assert b[..m + 1] == [b[0]] + b[1..][..m];
      m + 1
  }

  /** Any index with the characterising properties of PrefixLength is PrefixLength. */
  lemma PrefixLengthUnique(a: string, b: string, k: nat)
    requires k <= |a| && k <= |b| && a[..k] == b[..k]
    requires k == |a| || k == |b| || a[k] != b[k]
    ensures k == PrefixLength(a, b)
  {
  }

  /** The longest common prefix of two strings. */
  function CommonPrefix(a: string, b: string): (c: string)
    ensures IsPrefix(c, a) && IsPrefix(c, b)
  {
    a[..PrefixLength(a, b)]
  }

  /** Every common prefix of a and b is a prefix of CommonPrefix(a, b). */
  lemma CommonPrefixIsLongest(a: string, b: string, p: string)
    requires IsPrefix(p, a) && IsPrefix(p, b)
    ensures IsPrefix(p, CommonPrefix(a, b))
  {
    assert CommonPrefix(a, b)[..|p|] == a[..|p|];
  }

  /**
   * The common prefix of a non-empty list, folded from the first element to
   * the last exactly as findCompletions narrows its `common` variable.
   */
  function LongestCommonPrefix(xs: seq<string>): (c: string)
    requires |xs| > 0
    ensures forall i :: 0 <= i < |xs| ==> IsPrefix(c, xs[i])
  {
    if |xs| == 1 then xs[0]
    else
      var init := xs[..|xs| - 1];
      var c0 := LongestCommonPrefix(init);
      var c := CommonPrefix(c0, xs[|xs| - 1]);
      forall i | 0 <= i < |xs| ensures IsPrefix(c, xs[i]) {
        if i < |xs| - 1 {
          assert xs[i] == init[i];
          PrefixTransitive(c, c0, xs[i]);
        }
      }
      c
  }

  /** The fold is the longest prefix common to all elements. */
  lemma {:induction false} LongestCommonPrefixIsLongest(xs: seq<string>, p: string)
    requires |xs| > 0
    requires forall i :: 0 <= i < |xs| ==> IsPrefix(p, xs[i])
    ensures IsPrefix(p, LongestCommonPrefix(xs))
  {
    if |xs| > 1 {
      var init := xs[..|xs| - 1];
      forall i | 0 <= i < |init| ensures IsPrefix(p, init[i]) {
        assert init[i] == xs[i];
      }
      LongestCommonPrefixIsLongest(init, p);
      CommonPrefixIsLongest(LongestCommonPrefix(init), xs[|xs| - 1], p);
    }
  }

  /** a <= b in the order of QString::operator<: lexicographic on characters. */
  predicate StrLe(a: string, b: string)
    decreases |a|
  {
    a == [] || (b != [] && (a[0] < b[0] || (a[0] == b[0] && StrLe(a[1..], b[1..]))))
  }

  lemma {:induction false} StrLeTotal(a: string, b: string)
    ensures StrLe(a, b) || StrLe(b, a)
    decreases |a|
  {
    if a != [] && b != [] && a[0] == b[0] {
      StrLeTotal(a[1..], b[1..]);
    }
  }

  lemma {:induction false} StrLeTransitive(a: string, b: string, c: string)
    requires StrLe(a, b) && StrLe(b, c)
    ensures StrLe(a, c)
    decreases |a|
  {
    if a != [] && a[0] == b[0] && b[0] == c[0] {
      StrLeTransitive(a[1..], b[1..], c[1..]);
    }
  }

  lemma {:induction false} StrLeAntisymmetric(a: string, b: string)
    requires StrLe(a, b) && StrLe(b, a)
    ensures a == b
    decreases |a|
  {
    if a != [] {
      StrLeAntisymmetric(a[1..], b[1..]);
      assert a == [a[0]] + a[1..] && b == [b[0]] + b[1..];
    }
  }

  predicate Sorted(s: seq<string>) {
    forall i, j :: 0 <= i < j < |s| ==> StrLe(s[i], s[j])
  }

  /** Inserts x into a sorted list, keeping it sorted. */
  function Insert(x: string, s: seq<string>): (r: seq<string>)
    requires Sorted(s)
    ensures Sorted(r)
    ensures multiset(r) == multiset(s) + multiset{x}
  {
    if s == [] then [x]
    else if StrLe(x, s[0]) then
      forall j | 0 <= j < |s| ensures StrLe(x, s[j]) {
        if j > 0 { StrLeTransitive(x, s[0], s[j]); }
      }
      [x] + s
    else
      var t := Insert(x, s[1..]);
      StrLeTotal(x, s[0]);
      forall j | 0 <= j < |t| ensures StrLe(s[0], t[j]) {
        assert t[j] in multiset(t);
        if t[j] != x {
          assert t[j] in multiset(s[1..]);
          var k :| 0 <= k < |s[1..]| && s[1..][k] == t[j];
          assert s[k + 1] == t[j];
        }
      }
      assert s == [s[0]] + s[1..];
      [s[0]] + t
  }

  /** The sorted permutation of s (the effect of qStableSort on a string list). */
  function SortStrings(s: seq<string>): (r: seq<string>)
    ensures Sorted(r)
    ensures multiset(r) == multiset(s)
  {
    if s == [] then []
    else
      assert s == [s[0]] + s[1..];
      Insert(s[0], SortStrings(s[1..]))
  }

  /** A list of strings has exactly one sorted permutation, so any sort gives the same result. */
  lemma {:induction false} SortedUnique(a: seq<string>, b: seq<string>)
    requires Sorted(a) && Sorted(b)
    requires multiset(a) == multiset(b)
    ensures a == b
    decreases |a|
  {
    if a == [] || b == [] {
      assert |a| == |multiset(a)| == |multiset(b)| == |b|;
    } else {
      SortedHeads(a, b);
      MultisetTail(a);
      MultisetTail(b);
      SortedUnique(a[1..], b[1..]);
      assert a == [a[0]] + a[1..] && b == [b[0]] + b[1..];
    }
  }

  /** Two sorted permutations of each other start with the same string. */
  lemma SortedHeads(a: seq<string>, b: seq<string>)
    requires Sorted(a) && Sorted(b) && a != [] && b != []
    requires multiset(a) == multiset(b)
    ensures a[0] == b[0]
  {
    assert a[0] in multiset(b);
    assert b[0] in multiset(a);
    var i :| 0 <= i < |a| && a[i] == b[0];
    var j :| 0 <= j < |b| && b[j] == a[0];
    if i > 0 && j > 0 {
      assert StrLe(a[0], a[i]) && StrLe(b[0], b[j]);
      StrLeAntisymmetric(a[0], b[0]);
    }
  }

  lemma MultisetTail(a: seq<string>)
    requires a != []
    ensures multiset(a[1..]) == multiset(a) - multiset{a[0]}
  {
    assert a == [a[0]] + a[1..];
  }
}
