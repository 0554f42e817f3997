/** The string operations of the Kotlin standard library that the launcher relies
    on: ordinal `compareTo`, `isBlank`, `startsWith` and `contains(ignoreCase = true)`. */
module Text {

  /** `a.compareTo(b) <= 0` for Kotlin strings: ordinal, case-sensitive,
      character by character, a proper prefix before the longer string. */
  function LexLeq(a: string, b: string): (le: bool)
    ensures a <= b ==> le
    ensures le && |a| > 0 ==> |b| > 0 && a[0] <= b[0]
  {
    |a| == 0 || (|b| > 0 && (a[0] < b[0] || (a[0] == b[0] && LexLeq(a[1..], b[1..]))))
  }

  lemma {:induction false} LexLeqReflexive(a: string)
    ensures LexLeq(a, a)
  {
    if |a| > 0 {
      LexLeqReflexive(a[1..]);
    }
  }

  lemma {:induction false} LexLeqTotal(a: string, b: string)
    ensures LexLeq(a, b) || LexLeq(b, a)
  {
    if |a| > 0 && |b| > 0 && a[0] == b[0] {
      LexLeqTotal(a[1..], b[1..]);
    }
  }

  lemma {:induction false} LexLeqTransitive(a: string, b: string, c: string)
    requires LexLeq(a, b) && LexLeq(b, c)
    ensures LexLeq(a, c)
  {
    if |a| > 0 && a[0] == b[0] && b[0] == c[0] {
      LexLeqTransitive(a[1..], b[1..], c[1..]);
    }
  }

  lemma {:induction false} LexLeqAntisymmetric(a: string, b: string)
    requires LexLeq(a, b) && LexLeq(b, a)
    ensures a == b
  {
    if |a| > 0 {
      LexLeqAntisymmetric(a[1..], b[1..]);
      assert a == [a[0]] + a[1..];
      assert b == [b[0]] + b[1..];
    }
  }

  /** The order is ordinal, not locale-folded: every upper-case Latin letter
      sorts before every lower-case one, so "Zeta" comes before "alpha". */
  lemma UpperCaseBeforeLowerCase()
    ensures LexLeq("Zeta", "alpha") && !LexLeq("alpha", "Zeta")
  {
  }

  /** Kotlin `Char.isWhitespace()` on the JVM: `Character.isWhitespace` or
      `Character.isSpaceChar`, written out as the characters it accepts. */
  predicate IsWhitespace(c: char)
  {
    var n := c as int;
    || 0x09 <= n <= 0x0D
    || 0x1C <= n <= 0x20
    || n == 0x00A0 || n == 0x1680
    || 0x2000 <= n <= 0x200A
    || n == 0x2028 || n == 0x2029 || n == 0x202F || n == 0x205F || n == 0x3000
  }

  /** Kotlin `CharSequence.isBlank()`: empty or whitespace only. A blank string
      holds no lower-case letter and no dot, so no package name is blank. */
  function IsBlank(s: string): (blank: bool)
    ensures s == [] ==> blank
    ensures blank ==> forall i | 0 <= i < |s| :: s[i] != '.' && !('a' <= s[i] <= 'z')
  {
    forall i | 0 <= i < |s| :: IsWhitespace(s[i])
  }

  /** Kotlin `String.startsWith(prefix)`, compared character by character. */
  predicate StartsWith(s: string, prefix: string)
  {
    prefix <= s
  }

  /** A string that starts with `prefix` agrees with it position by position. */
  lemma StartsWithAt(s: string, prefix: string, i: nat)
    requires StartsWith(s, prefix) && i < |prefix|
    ensures i < |s| && s[i] == prefix[i]
  {
  }

  /** Case folding used by `contains(ignoreCase = true)`, restricted to ASCII letters. */
  function FoldCase(c: char): (r: char)
    ensures 'A' <= c <= 'Z' ==> 'a' <= r <= 'z'
    ensures !('A' <= c <= 'Z') ==> r == c
  {
    if 'A' <= c <= 'Z' then (c as int - 'A' as int + 'a' as int) as char else c
  }

  /** Two equally long strings that are equal up to case. */
  predicate EqualIgnoreCase(a: string, b: string)
  {
    |a| == |b| && forall k | 0 <= k < |a| :: FoldCase(a[k]) == FoldCase(b[k])
  }

  /** `s.regionMatches(i, query, 0, query.length, ignoreCase = true)`. */
  predicate MatchesAt(s: string, query: string, i: nat)
  {
    i + |query| <= |s| && EqualIgnoreCase(s[i..i + |query|], query)
  }

  /** Kotlin `s.contains(query, ignoreCase = true)`: some window of `s` equals the
      query up to case (the empty query occurs in every string). */
  function ContainsIgnoreCase(s: string, query: string): (found: bool)
    ensures query == [] ==> found
    ensures found ==> |query| <= |s|
  {
    assert query == [] ==> MatchesAt(s, query, 0);
    exists i: nat | i <= |s| :: MatchesAt(s, query, i)
  }

  /** Case does not matter on either side: an upper-case query finds a
      lower-case name and the other way round. */
  lemma {:induction false} ContainsIgnoreCaseOfFolded(s: string, query: string, folded: string)
    requires |folded| == |query|
    requires forall k | 0 <= k < |query| :: FoldCase(folded[k]) == FoldCase(query[k])
    ensures ContainsIgnoreCase(s, query) <==> ContainsIgnoreCase(s, folded)
  {
    if ContainsIgnoreCase(s, query) {
      var i: nat :| i <= |s| && MatchesAt(s, query, i);
      assert MatchesAt(s, folded, i);
    }
    if ContainsIgnoreCase(s, folded) {
      var i: nat :| i <= |s| && MatchesAt(s, folded, i);
      assert MatchesAt(s, query, i);
    }
  }

  /** A string contains itself, whatever its case. */
  lemma ContainsItself(s: string)
    ensures ContainsIgnoreCase(s, s)
  {
    assert s[0..|s|] == s;
    assert MatchesAt(s, s, 0);
  }
}
