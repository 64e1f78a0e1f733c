/**
 * Why replacing one placeholder or escape token never disturbs another: every token has the
 * shape "__" + W + "__" (Expressions.SentinelShape), so no token is a prefix of another and a
 * token can start inside another only at its final "__" or "_", where what follows decides.
 */
module Sentinels {
  import opened Wrappers
  import opened Text
  import opened Expressions

  lemma PrefixTail(a: string, x: string, f: string)
    requires |f| > |a|
    ensures HasPrefix(a + x, f) <==> f[..|a|] == a && HasPrefix(x, f[|a|..])
  {
    if HasPrefix(a + x, f) {
      assert f[..|a|] == (a + x)[..|a|];
      assert f[|a|..] == (a + x)[|a|..|f|];
    }
    if f[..|a|] == a && HasPrefix(x, f[|a|..]) {
      assert f == f[..|a|] + f[|a|..];
      assert (a + x)[..|f|] == a + x[..|f| - |a|];
    }
  }

  lemma PrefixHead(a: string, x: string, f: string)
    requires |f| <= |a|
    ensures HasPrefix(a + x, f) <==> HasPrefix(a, f)
  {
    assert (a + x)[..|f|] == a[..|f|];
  }

  /** A token is never a proper prefix of another token. */
  lemma NotProperPrefix(a: string, b: string)
    requires SentinelShape(a) && SentinelShape(b) && |a| < |b|
    ensures b[..|a|] != a
  {
    if |a| == |b| - 1 {
      assert b[|a| - 2] != a[|a| - 2];
    } else {
      assert b[|a| - 2] != a[|a| - 2] || b[|a| - 1] != a[|a| - 1];
    }
  }

  /** Two different tokens never match at the same position. */
  lemma DistinctTokens(t: string, f: string, x: string)
    requires SentinelShape(t) && SentinelShape(f) && t != f
    ensures !HasPrefix(t + x, f)
  {
    if |f| <= |t| {
      PrefixHead(t, x, f);
      if |f| < |t| {
        NotProperPrefix(f, t);
      }
    } else {
      PrefixTail(t, x, f);
      NotProperPrefix(t, f);
    }
  }

  /** The first underscore inside W, which is followed by a letter. */
  lemma FirstUnderscore(t: string) returns (m: nat)
    requires SentinelShape(t)
    ensures 2 < m < |t| - 3 && t[m] == '_' && t[m + 1] != '_'
    ensures forall i :: 2 <= i < m ==> 'A' <= t[i] <= 'Z'
  {
    m := 2;
    while t[m] != '_'
      invariant 2 <= m < |t| - 2
      invariant forall i :: 2 <= i < m ==> 'A' <= t[i] <= 'Z'
      invariant '_' in t[m..|t| - 2]
      decreases |t| - m
    {
      assert t[m..|t| - 2] == [t[m]] + t[m + 1..|t| - 2];
      m := m + 1;
    }
  }

  /**
   * Where a token `t` is followed by text `x` that cannot begin with the tail of `f` after one
   * or two underscores, `f` does not occur starting inside `t`.
   */
  lemma TokenSkip(t: string, f: string, x: string)
    requires SentinelShape(t) && SentinelShape(f) && t != f
    requires !HasPrefix(x, f[1..]) && !HasPrefix(x, f[2..])
    ensures NoMatchBefore(t + x, |t|, f)
  {
    var s := t + x;
    forall q | 0 <= q < |t| && q <= |s|
      ensures !HasPrefix(s[q..], f)
    {
      if q == 0 {
        assert s[q..] == t + x;
        DistinctTokens(t, f, x);
      } else if q < |t| - 2 {
        assert s[q..][0] == t[q] && s[q..][1] == t[q + 1];
      } else if q == |t| - 2 {
        assert s[q..] == "__" + x;
        PrefixTail("__", x, f);
      } else {
        assert s[q..] == "_" + x;
        PrefixTail("_", x, f);
      }
    }
  }

  /** A replacement pass for token `f` copies a different token `t` that leads the text. */
  lemma TokenCopy(t: string, f: string, x: string, r: string)
    requires SentinelShape(t) && SentinelShape(f) && t != f
    requires !HasPrefix(x, f[1..]) && !HasPrefix(x, f[2..])
    ensures ReplaceAll(t + x, f, r) == t + ReplaceAll(x, f, r)
  {
    TokenSkip(t, f, x);
    ReplaceAllSkip(t, x, f, r);
  }

  /** No spelling of a well-formed table is a prefix of another, whatever follows it. */
  lemma KeysDistinct(T: Table, e1: Expr, e2: Expr, x: string)
    requires KeysDiffer(T) && e1 != e2
    ensures !HasPrefix(T.key(e1) + x, T.key(e2))
  {
    assert Differ(T.key(e1), T.key(e2));
    var i :| 0 <= i < |T.key(e1)| && i < |T.key(e2)| && T.key(e1)[i] != T.key(e2)[i];
    assert (T.key(e1) + x)[i] == T.key(e1)[i];
  }

  /** No spelling starts inside another one at a position other than its first. */
  lemma KeySkip(T: Table, e': Expr, e: Expr, x: string)
    requires KeysShaped(T) && KeysDiffer(T) && e' != e
    ensures NoMatchBefore(T.key(e') + x, |T.key(e')|, T.key(e))
  {
    var k', k := T.key(e'), T.key(e);
    var s := k' + x;
    assert KeyShaped(k') && KeyShaped(k);
    forall q | 0 <= q < |k'| && q <= |s|
      ensures !HasPrefix(s[q..], k)
    {
      if q == 0 {
        assert s[q..] == s;
        KeysDistinct(T, e', e, x);
      } else if q == 1 {
        assert s[q..][1] == k'[2];
      } else {
        assert s[q..][0] == k'[q];
      }
    }
  }

  /** The expression found at a spelling is the one spelled. */
  lemma KeyAtSpelling(T: Table, e: Expr, x: string)
    requires KeysDiffer(T)
    ensures KeyAt(T, T.key(e) + x) == Some(e)
  {
    PrefixHead(T.key(e), x, T.key(e));
    forall e' | e' != e
      ensures !HasPrefix(T.key(e) + x, T.key(e'))
    {
      KeysDistinct(T, e, e', x);
    }
  }

  /** A prefix of a prefix. */
  lemma PrefixOfPrefix(s: string, p: string, w: string)
    requires HasPrefix(p, w)
    ensures HasPrefix(s, p) ==> HasPrefix(s, w)
  {
    if HasPrefix(s, p) {
      assert s[..|w|] == s[..|p|][..|w|];
    }
  }

  /** A replacement pass for token `f` copies a leading '_' when what follows cannot begin with the rest of `f`. */
  lemma UnderscoreCopy(f: string, x: string, r: string)
    requires SentinelShape(f) && !HasPrefix(x, f[1..])
    ensures ReplaceAll("_" + x, f, r) == "_" + ReplaceAll(x, f, r)
  {
    PrefixTail("_", x, f);
    ReplaceAllStep("_" + x, f, r);
    assert ("_" + x)[1..] == x;
  }

  /** The word W that a token "__" + W + "__" carries. */
  function InnerWord(t: string): string {
    if |t| < 4 then t else t[2..|t| - 2]
  }

  /** Upper-case letters and single underscores, ending with a letter. */
  predicate IsWord(w: string) {
    && |w| > 0
    && (forall i :: 0 <= i < |w| ==> ('A' <= w[i] <= 'Z') || w[i] == '_')
    && (forall i :: 0 <= i < |w| - 1 ==> !(w[i] == '_' && w[i + 1] == '_'))
    && w[|w| - 1] != '_'
  }

  /** A token's word is a word, and it follows the token's opening "__". */
  lemma InnerWordShape(t: string)
    requires SentinelShape(t)
    ensures IsWord(InnerWord(t)) && HasPrefix(t[2..], InnerWord(t))
  {
    var w := InnerWord(t);
    assert forall i :: 0 <= i < |w| ==> w[i] == t[i + 2];
  }

  /** A word that goes on after its first character goes on as a word. */
  lemma WordTail(w: string)
    requires IsWord(w) && |w| > 1
    ensures IsWord(w[1..])
  {
    assert forall i :: 0 <= i < |w| - 1 ==> w[1..][i] == w[i + 1];
  }

  /**
   * `s` mentions none of the words the table's placeholders and escape tokens carry (for the
   * generator's table: PROJECT_NAME_PLACEHOLDER, ..., ESCAPED_LEFT_BRACE, ESCAPED_RIGHT_BRACE).
   */
  ghost predicate NoTokenWords(T: Table, s: string) {
    && (forall e :: !Contains(s, InnerWord(T.placeholder(e))))
    && !Contains(s, InnerWord(T.leftEscape))
    && !Contains(s, InnerWord(T.rightEscape))
  }

  lemma {:induction false} ContainsLater(a: string, b: string, w: string)
    ensures Contains(b, w) ==> Contains(a + b, w)
    decreases |a|
  {
    if |a| == 0 {
      assert a + b == b;
    } else {
      ContainsLater(a[1..], b, w);
      assert (a + b)[1..] == a[1..] + b;
    }
  }

  /** What follows text without a token word has none either. */
  lemma NoTokenWordsTail(T: Table, a: string, b: string)
    requires NoTokenWords(T, a + b)
    ensures NoTokenWords(T, b)
  {
    forall e: Expr
      ensures !Contains(b, InnerWord(T.placeholder(e)))
    {
      ContainsLater(a, b, InnerWord(T.placeholder(e)));
    }
    ContainsLater(a, b, InnerWord(T.leftEscape));
    ContainsLater(a, b, InnerWord(T.rightEscape));
  }

  /** Text without '_' holds no token word, since each of them has one. */
  lemma {:induction false} NoUnderscoreNoWord(s: string, w: string)
    requires '_' !in s && '_' in w
    ensures !Contains(s, w)
    decreases |s|
  {
    if |s| > 0 {
      assert forall j :: 0 <= j < |s| - 1 ==> s[1..][j] == s[j + 1];
      NoUnderscoreNoWord(s[1..], w);
    }
  }

  /** In particular text without '_' mentions no token word. */
  lemma NoUnderscoreNoTokenWords(T: Table, s: string)
    requires TokensDistinct(T) && '_' !in s
    ensures NoTokenWords(T, s)
  {
    forall e: Expr
      ensures !Contains(s, InnerWord(T.placeholder(e)))
    {
      assert SentinelShape(T.placeholder(e));
      NoUnderscoreNoWord(s, InnerWord(T.placeholder(e)));
    }
    NoUnderscoreNoWord(s, InnerWord(T.leftEscape));
    NoUnderscoreNoWord(s, InnerWord(T.rightEscape));
  }

  /** No '_' stands right after an upper-case letter (as in "my_app" or "for _, v := range"). */
  predicate NoCapitalUnderscore(s: string) {
    forall i :: 0 < i < |s| && s[i] == '_' ==> !('A' <= s[i - 1] <= 'Z')
  }

  /** Each token word has a '_' right after an upper-case letter, so such text holds none. */
  lemma CapitalUnderscoreNoWord(s: string, t: string)
    requires SentinelShape(t) && NoCapitalUnderscore(s)
    ensures !Contains(s, InnerWord(t))
  {
    var w := InnerWord(t);
    var m := FirstUnderscore(t);
    assert w[m - 2] == '_' && 'A' <= w[m - 3] <= 'Z';
    ContainsIff(s, w);
  }

  /** Text in which no '_' follows an upper-case letter mentions no token word. */
  lemma CapitalUnderscoreFree(T: Table, s: string)
    requires TokensDistinct(T) && NoCapitalUnderscore(s)
    ensures NoTokenWords(T, s)
  {
    forall e: Expr
      ensures !Contains(s, InnerWord(T.placeholder(e)))
    {
      CapitalUnderscoreNoWord(s, T.placeholder(e));
    }
    CapitalUnderscoreNoWord(s, T.leftEscape);
    CapitalUnderscoreNoWord(s, T.rightEscape);
  }
}
