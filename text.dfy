/**
 * The string operations the core relies on: ASCII `str.lower()`, `str.replace("_", " ")`
 * and the substring test `p in s`.
 */
module Text {

  function LowerChar(c: char): char
  {
    if 'A' <= c <= 'Z' then (c as int + 32) as char else c
  }

  /** `s.lower()`, restricted to ASCII letters. */
  function Lower(s: string): string
  {
    seq(|s|, i requires 0 <= i < |s| => LowerChar(s[i]))
  }

  /** Python's `str.replace` of underscores by spaces: every underscore of an action name becomes a
      space. */
  function Spaced(f: string): string
  {
    seq(|f|, i requires 0 <= i < |f| => if f[i] == '_' then ' ' else f[i])
  }

  /** `p` occurs in `s` starting at position `i`. */
  predicate OccursAt(s: string, p: string, i: nat)
  {
    i + |p| <= |s| && s[i..i + |p|] == p
  }

  /** The characters of `p` from position `k` on agree with those of `s` from `i + k` on. */
  predicate MatchesFrom(s: string, p: string, i: nat, k: nat)
    requires i + |p| <= |s| && k <= |p|
    decreases |p| - k
  {
    k == |p| || (s[i + k] == p[k] && MatchesFrom(s, p, i, k + 1))
  }

  /** Some position `j >= i` is an occurrence of `p` in `s`. */
  predicate ContainsFrom(s: string, p: string, i: nat)
    decreases |s| - i
  {
    i + |p| <= |s| && (MatchesFrom(s, p, i, 0) || ContainsFrom(s, p, i + 1))
  }

  /** Python's `p in s` on strings: a left-to-right scan of the candidate positions. */
  function Contains(s: string, p: string): (b: bool)
    ensures b <==> exists i: nat :: OccursAt(s, p, i)
  {
    ContainsFromMeaning(s, p, 0);
    ContainsFrom(s, p, 0)
  }

  lemma {:induction false} MatchesFromMeaning(s: string, p: string, i: nat, k: nat)
    requires i + |p| <= |s| && k <= |p|
    ensures MatchesFrom(s, p, i, k) <==> s[i + k..i + |p|] == p[k..]
    decreases |p| - k
  {
    if k < |p| {
      MatchesFromMeaning(s, p, i, k + 1);
      assert s[i + k..i + |p|] == [s[i + k]] + s[i + k + 1..i + |p|];
      assert p[k..] == [p[k]] + p[k + 1..];
    }
  }

  lemma {:induction false} ContainsFromMeaning(s: string, p: string, i: nat)
    ensures ContainsFrom(s, p, i) <==> exists j: nat :: i <= j && OccursAt(s, p, j)
    decreases |s| - i
  {
    if i + |p| <= |s| {
      MatchesFromMeaning(s, p, i, 0);
      assert MatchesFrom(s, p, i, 0) <==> OccursAt(s, p, i);
      ContainsFromMeaning(s, p, i + 1);
      if exists j: nat :: i <= j && OccursAt(s, p, j) {
        var j: nat :| i <= j && OccursAt(s, p, j);
        assert j == i || (i + 1 <= j && OccursAt(s, p, j));
      }
    } else {
      forall j: nat | i <= j ensures !OccursAt(s, p, j) { }
    }
  }

  /** `c` is at no position of `t`. */
  predicate Lacks(t: string, c: char)
  {
    forall i :: 0 <= i < |t| ==> t[i] != c
  }

  lemma LacksConcat(a: string, b: string, c: char)
    requires Lacks(a, c) && Lacks(b, c)
    ensures Lacks(a + b, c)
  {
    forall i | 0 <= i < |a + b| ensures (a + b)[i] != c {
      if i >= |a| {
        assert (a + b)[i] == b[i - |a|];
      }
    }
  }

  /** A text that lacks some character of `p` cannot contain `p`. */
  lemma AbsentChar(s: string, p: string, c: char)
    requires c in p && Lacks(s, c)
    ensures !Contains(s, p)
  {
  }

  /** Witness form: an explicit occurrence shows containment. */
  lemma Occurrence(s: string, p: string, i: nat)
    requires OccursAt(s, p, i)
    ensures Contains(s, p)
  {
  }

  lemma LowerAppend(a: string, b: string)
    ensures Lower(a + b) == Lower(a) + Lower(b)
  {
  }
  /** Lower-casing turns each ASCII capital into its small letter, changes no other character, keeps
      the length, and lowering twice is lowering once. */
  lemma LowerSpec(s: string)
    ensures |Lower(s)| == |s|
    ensures forall i :: 0 <= i < |s| ==> !('A' <= Lower(s)[i] <= 'Z')
    ensures forall i :: 0 <= i < |s| && !('A' <= s[i] <= 'Z') ==> Lower(s)[i] == s[i]
    ensures forall i :: 0 <= i < |s| && 'A' <= s[i] <= 'Z' ==>
              Lower(s)[i] == "abcdefghijklmnopqrstuvwxyz"[s[i] as int - 'A' as int]
    ensures Lower(Lower(s)) == Lower(s)
  {
  }

  /** Spacing turns each underscore into a space, changes no other character, keeps the length, and
      leaves a name without underscores as it is. */
  lemma SpacedSpec(f: string)
    ensures |Spaced(f)| == |f|
    ensures forall i :: 0 <= i < |f| && f[i] == '_' ==> Spaced(f)[i] == ' '
    ensures forall i :: 0 <= i < |f| ==> Spaced(f)[i] != '_'
    ensures forall i :: 0 <= i < |f| && f[i] != '_' ==> Spaced(f)[i] == f[i]
    ensures (forall i :: 0 <= i < |f| ==> f[i] != '_') ==> Spaced(f) == f
  {
  }

  /** An occurrence in `a` is one in `a + b`, at the same position. */
  lemma OccursLeft(a: string, b: string, p: string, i: nat)
    requires OccursAt(a, p, i)
    ensures OccursAt(a + b, p, i)
  {
    assert (a + b)[i..i + |p|] == a[i..i + |p|];
  }

  /** An occurrence in `b` is one in `a + b`, shifted by `|a|`. */
  lemma OccursRight(a: string, b: string, p: string, i: nat)
    requires OccursAt(b, p, i)
    ensures OccursAt(a + b, p, |a| + i)
  {
    assert (a + b)[|a| + i..|a| + i + |p|] == b[i..i + |p|];
  }

  /** Containment survives putting text on either side. */
  lemma ContainsConcat(a: string, b: string, p: string)
    ensures Contains(a, p) ==> Contains(a + b, p)
    ensures Contains(b, p) ==> Contains(a + b, p)
  {
    if Contains(a, p) {
      var i: nat :| OccursAt(a, p, i);
      OccursLeft(a, b, p, i);
    }
    if Contains(b, p) {
      var i: nat :| OccursAt(b, p, i);
      OccursRight(a, b, p, i);
    }
  }
}
