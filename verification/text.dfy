/**
 * String replacement with the semantics of JavaScript's
 * `String.prototype.replace` when the pattern is a string: only the FIRST
 * occurrence of the pattern is replaced.
 */
module Text {

  /** `pat` occurs in `s` starting at index `i`. */
  predicate OccursAt(s: string, pat: string, i: nat) {
    i + |pat| <= |s| && s[i..i + |pat|] == pat
  }

  /** `pat` occurs somewhere in `s`. */
  predicate Contains(s: string, pat: string) {
    exists i: nat :: i <= |s| && OccursAt(s, pat, i)
  }

  /** `i` is the leftmost occurrence of `pat` in `s`. */
  predicate FirstOccurrence(s: string, pat: string, i: nat) {
    OccursAt(s, pat, i) && forall j: nat :: j < i ==> !OccursAt(s, pat, j)
  }

  /**
   * JavaScript `s.replace(pat, rep)` for a string `pat`: scanning from the
   * left, the first place where `pat` starts is replaced by `rep`; without
   * an occurrence `s` comes back unchanged. The replacement is inserted
   * verbatim: JavaScript's `$$`, `$&`, `` $` `` and `$'` are not expanded, so
   * the two agree exactly when `Verbatim(rep)` holds.
   */
  function ReplaceFirst(s: string, pat: string, rep: string): string
    decreases |s|
  {
    if |s| < |pat| then s
    else if s[..|pat|] == pat then rep + s[|pat|..]
    else [s[0]] + ReplaceFirst(s[1..], pat, rep)
  }

  /** An occurrence in the tail of `s` is an occurrence in `s`, one place further. */
  lemma OccursInTail(s: string, pat: string, i: nat)
    requires |s| > 0
    ensures OccursAt(s[1..], pat, i) <==> OccursAt(s, pat, i + 1)
  {
  }

  /** No occurrence of `pat` in `a + b` starts inside `a`. */
  predicate NoneStartsIn(a: string, b: string, pat: string) {
    forall j: nat :: j < |a| ==> !OccursAt(a + b, pat, j)
  }

  /** A replacement string that JavaScript inserts verbatim: none of `$$`, `$&`, `` $` ``, `$'` in it. */
  predicate Verbatim(rep: string) {
    forall i :: 0 <= i < |rep| - 1 && rep[i] == '$' ==> rep[i + 1] !in "$&`'"
  }

  /** Dropping the first character of `a` keeps occurrences out of the rest of `a`. */
  lemma NoneStartsInTail(a: string, b: string, pat: string)
    requires a != [] && NoneStartsIn(a, b, pat)
    ensures NoneStartsIn(a[1..], b, pat)
  {
    assert (a + b)[1..] == a[1..] + b;
    forall j: nat | j < |a| - 1
      ensures !OccursAt(a[1..] + b, pat, j)
    {
      OccursInTail(a + b, pat, j);
    }
  }

  /** A string lacking the pattern's first character holds no start of an occurrence. */
  lemma HeadFreeNoneStartsIn(a: string, b: string, pat: string)
    requires |pat| > 0 && pat[0] !in a
    ensures NoneStartsIn(a, b, pat)
  {
    forall j: nat | j < |a|
      ensures !OccursAt(a + b, pat, j)
    {
      assert (a + b)[j] == a[j];
    }
  }

  /** When no occurrence starts inside `a`, the replacement happens in `b` alone. */
  lemma {:induction false} ReplaceInSuffix(a: string, b: string, pat: string, rep: string)
    requires NoneStartsIn(a, b, pat)
    ensures ReplaceFirst(a + b, pat, rep) == a + ReplaceFirst(b, pat, rep)
    decreases |a|
  {
    if a == [] {
      assert a + b == b;
    } else {
      var s := a + b;
      if |s| < |pat| {
        assert ReplaceFirst(b, pat, rep) == b;
      } else {
        assert s[..|pat|] != pat by {
          assert !OccursAt(s, pat, 0);
        }
        assert s[1..] == a[1..] + b;
        NoneStartsInTail(a, b, pat);
        ReplaceInSuffix(a[1..], b, pat, rep);
        assert ReplaceFirst(s, pat, rep) == [a[0]] + ReplaceFirst(a[1..] + b, pat, rep);
        assert [a[0]] + (a[1..] + ReplaceFirst(b, pat, rep)) == a + ReplaceFirst(b, pat, rep);
      }
    }
  }

  /** A string that starts with the pattern has that occurrence replaced. */
  lemma ReplaceAtStart(pat: string, post: string, rep: string)
    ensures ReplaceFirst(pat + post, pat, rep) == rep + post
  {
    assert (pat + post)[..|pat|] == pat;
    assert (pat + post)[|pat|..] == post;
  }

  /** Without an occurrence of `pat`, replacing it changes nothing. */
  lemma {:induction false} ReplaceFirstAbsent(s: string, pat: string, rep: string)
    requires !Contains(s, pat)
    ensures ReplaceFirst(s, pat, rep) == s
    decreases |s|
  {
    if |s| >= |pat| {
      assert !OccursAt(s, pat, 0);
      assert s[..|pat|] != pat;
      forall i: nat | i <= |s[1..]|
        ensures !OccursAt(s[1..], pat, i)
      {
        OccursInTail(s, pat, i);
      }
      ReplaceFirstAbsent(s[1..], pat, rep);
      assert [s[0]] + s[1..] == s;
    }
  }

  /** The leftmost occurrence of `pat`, and only that one, is replaced. */
  lemma ReplaceFirstAt(s: string, pat: string, rep: string, i: nat)
    requires FirstOccurrence(s, pat, i)
    ensures ReplaceFirst(s, pat, rep) == s[..i] + rep + s[i + |pat|..]
  {
    var a, b := s[..i], s[i..];
    assert a + b == s;
    assert NoneStartsIn(a, b, pat);
    ReplaceInSuffix(a, b, pat, rep);
    assert b == pat + s[i + |pat|..];
    ReplaceAtStart(pat, s[i + |pat|..], rep);
  }

  /** A prefix that lacks the pattern's first character is left in place. */
  lemma ReplaceKeepsPrefix(prefix: string, s: string, pat: string, rep: string)
    requires prefix <= s && |pat| > 0 && pat[0] !in prefix
    ensures prefix <= ReplaceFirst(s, pat, rep)
  {
    var b := s[|prefix|..];
    assert s == prefix + b;
    HeadFreeNoneStartsIn(prefix, b, pat);
    ReplaceInSuffix(prefix, b, pat, rep);
  }

  /** A pattern whose first character does not occur in `s` does not occur in `s`. */
  lemma AbsentHead(s: string, pat: string)
    requires |pat| > 0 && pat[0] !in s
    ensures !Contains(s, pat)
  {
  }

  /**
   * A pattern placed after a prefix that lacks the pattern's first character
   * is replaced exactly where it stands, whatever follows it.
   */
  lemma ReplaceAfterHeadFree(pre: string, pat: string, post: string, rep: string)
    requires |pat| > 0 && pat[0] !in pre
    ensures ReplaceFirst(pre + pat + post, pat, rep) == pre + rep + post
  {
    assert pre + pat + post == pre + (pat + post);
    HeadFreeNoneStartsIn(pre, pat + post, pat);
    ReplaceInSuffix(pre, pat + post, pat, rep);
    ReplaceAtStart(pat, post, rep);
  }
}
