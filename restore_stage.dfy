/** The restoration loop: each placeholder becomes its spelling again. */
module RestoreStage {
  import opened Text
  import opened Expressions
  import opened Atoms
  import opened Pipeline
  import opened Sentinels

  function RestAtom(done: seq<Expr>, a: Atom): Atom {
    if a.PhA? && a.e in done then KeyA(a.e) else a
  }

  /** The atoms after the placeholders of the expressions in `done` have been restored. */
  function RestIn(done: seq<Expr>, xs: seq<Atom>): seq<Atom> {
    if |xs| == 0 then [] else [RestAtom(done, xs[0])] + RestIn(done, xs[1..])
  }

  /** The atoms after all nine placeholders have been restored. */
  function RestFull(xs: seq<Atom>): seq<Atom> {
    if |xs| == 0 then []
    else [if xs[0].PhA? then KeyA(xs[0].e) else xs[0]] + RestFull(xs[1..])
  }

  /**
   * Text spelled from atoms that begins with a word: neither a spelling (which opens with '{')
   * nor a token (which opens with "__") can spell any of it, so the word is made of character
   * atoms and what the atoms stand for begins with it too.
   */
  lemma {:induction false} SpelledWord(T: Table, val: Expr -> string, xs: seq<Atom>, w: string)
    requires WellFormed(T) && IsWord(w)
    ensures HasPrefix(Flat(T, xs), w) ==> HasPrefix(Output(val, xs), w)
    decreases |xs|
  {
    if |xs| > 0 {
      FlatHead(T, xs);
      var a, x, o := xs[0], Flat(T, xs[1..]), Output(val, xs[1..]);
      if a.Chr? {
        assert Output(val, xs) == [a.c] + o;
        if |w| == 1 {
          PrefixHead([a.c], x, w);
          PrefixHead([a.c], o, w);
        } else {
          PrefixTail([a.c], x, w);
          WordTail(w);
          SpelledWord(T, val, xs[1..], w[1..]);
          PrefixTail([a.c], o, w);
        }
      } else {
        if a.KeyA? {
          assert KeyShaped(T.key(a.e));
        } else {
          TokenShape(T, a);
        }
        HeadNotWord(Spelling(T, a), x, w);
      }
    }
  }

  /** Text led by "{" or by "__" does not begin with a word. */
  lemma HeadNotWord(t: string, x: string, w: string)
    requires |t| >= 2 && (t[0] == '{' || (t[0] == '_' && t[1] == '_')) && IsWord(w)
    ensures !HasPrefix(t + x, w)
  {
    assert (t + x)[0] == t[0] && (t + x)[1] == t[1];
    if |w| > 1 {
      assert !(w[0] == '_' && w[1] == '_');
    }
  }

  /**
   * Atoms whose meaning does not contain the word of token `f` cannot spell text that begins
   * with what follows the first one or two characters of `f`, since that text begins with the
   * word.
   */
  lemma CleanStart(T: Table, val: Expr -> string, xs: seq<Atom>, f: string)
    requires WellFormed(T) && SentinelShape(f) && !Contains(Output(val, xs), InnerWord(f))
    ensures !HasPrefix(Flat(T, xs), f[1..]) && !HasPrefix(Flat(T, xs), f[2..])
  {
    var w := InnerWord(f);
    InnerWordShape(f);
    PrefixOfPrefix(Flat(T, xs), f[2..], w);
    SpelledWord(T, val, xs, w);
    if |xs| > 0 {
      FlatHead(T, xs);
      var a := xs[0];
      if a.Chr? {
        PrefixTail([a.c], Flat(T, xs[1..]), f[1..]);
        assert f[1..][1..] == f[2..];
        PrefixOfPrefix(Flat(T, xs[1..]), f[2..], w);
        SpelledWord(T, val, xs[1..], w);
        assert Output(val, xs) == [a.c] + Output(val, xs[1..]);
      } else if a.KeyA? {
        assert KeyShaped(T.key(a.e));
      } else {
        TokenShape(T, a);
      }
    }
  }

  /** Text without token words does not contain the word of any one token. */
  lemma TokenWordAbsent(T: Table, s: string, a: Atom)
    requires NoTokenWords(T, s) && IsToken(a)
    ensures !Contains(s, InnerWord(Spelling(T, a)))
  {
  }

  /** Restoring placeholders keeps what the atoms stand for. */
  lemma {:induction false} RestInOutput(val: Expr -> string, done: seq<Expr>, xs: seq<Atom>)
    ensures Output(val, RestIn(done, xs)) == Output(val, xs)
    decreases |xs|
  {
    if |xs| > 0 {
      RestInOutput(val, done, xs[1..]);
    }
  }

  /** One pass of the restoration loop over the first atom, given the rest. */
  lemma RestoreAtomStep(T: Table, done: seq<Expr>, e: Expr, a: Atom, x: string)
    requires WellFormed(T) && e !in done && !a.KeyA?
    requires !HasPrefix(x, T.placeholder(e)[1..]) && !HasPrefix(x, T.placeholder(e)[2..])
    ensures ReplaceAll(Spelling(T, RestAtom(done, a)) + x, T.placeholder(e), T.key(e))
         == Spelling(T, RestAtom(done + [e], a)) + ReplaceAll(x, T.placeholder(e), T.key(e))
  {
    if a == Chr('_') {
      assert SentinelShape(T.placeholder(e));
      UnderscoreCopy(T.placeholder(e), x, T.key(e));
    } else if a.Chr? {
      RestoreCopy(T, e, [a.c], x);
    } else if a.PhA? && a.e in done {
      assert KeyShaped(T.key(a.e));
      RestoreCopy(T, e, T.key(a.e), x);
    } else if a == PhA(e) {
      ReplaceAllFront(x, T.placeholder(e), T.key(e));
    } else {
      RestoreOtherToken(T, e, a, x);
    }
  }

  /** Text without underscores is copied by a restoration pass. */
  lemma RestoreCopy(T: Table, e: Expr, t: string, x: string)
    requires WellFormed(T) && '_' !in t
    ensures ReplaceAll(t + x, T.placeholder(e), T.key(e)) == t + ReplaceAll(x, T.placeholder(e), T.key(e))
  {
    assert SentinelShape(T.placeholder(e));
    ReplaceAllSkipChar(t, x, T.placeholder(e), T.key(e));
  }

  /** Another token is copied by a restoration pass. */
  lemma RestoreOtherToken(T: Table, e: Expr, a: Atom, x: string)
    requires WellFormed(T) && IsToken(a) && a != PhA(e)
    requires !HasPrefix(x, T.placeholder(e)[1..]) && !HasPrefix(x, T.placeholder(e)[2..])
    ensures ReplaceAll(Spelling(T, a) + x, T.placeholder(e), T.key(e)) == Spelling(T, a) + ReplaceAll(x, T.placeholder(e), T.key(e))
  {
    assert SentinelShape(T.placeholder(e));
    TokenShape(T, a);
    assert Spelling(T, a) != T.placeholder(e);
    TokenCopy(Spelling(T, a), T.placeholder(e), x, T.key(e));
  }

  /**
   * One pass of the restoration loop, on atoms that mention no token word in what they stand
   * for under some valuation `val` (any valuation will do: such a word could only be spelled by
   * character atoms, which stand for themselves).
   */
  lemma {:induction false} RestoreStep(T: Table, val: Expr -> string, done: seq<Expr>, e: Expr, xs: seq<Atom>)
    requires WellFormed(T) && e !in done && NoKeyAtoms(xs) && NoTokenWords(T, Output(val, xs))
    ensures ReplaceAll(Flat(T, RestIn(done, xs)), T.placeholder(e), T.key(e)) == Flat(T, RestIn(done + [e], xs))
    decreases |xs|
  {
    if |xs| > 0 {
      var rest := xs[1..];
      var x := Flat(T, RestIn(done, rest));
      assert Output(val, xs) == Meaning(val, xs[0]) + Output(val, rest);
      NoTokenWordsTail(T, Meaning(val, xs[0]), Output(val, rest));
      RestoreStep(T, val, done, e, rest);
      RestInOutput(val, done, rest);
      TokenWordAbsent(T, Output(val, rest), PhA(e));
      assert SentinelShape(T.placeholder(e));
      CleanStart(T, val, RestIn(done, rest), T.placeholder(e));
      RestoreAtomStep(T, done, e, xs[0], x);
      assert Flat(T, RestIn(done, xs)) == Spelling(T, RestAtom(done, xs[0])) + x;
      assert Flat(T, RestIn(done + [e], xs)) == Spelling(T, RestAtom(done + [e], xs[0])) + Flat(T, RestIn(done + [e], rest));
    }
  }

  lemma {:induction false} RestInNone(xs: seq<Atom>)
    ensures RestIn([], xs) == xs
    decreases |xs|
  {
    if |xs| > 0 {
      RestInNone(xs[1..]);
    }
  }

  /** The whole restoration loop, in any order that visits each expression once. */
  lemma {:induction false} RestoreLoop(T: Table, val: Expr -> string, xs: seq<Atom>, o: seq<Expr>)
    requires WellFormed(T) && NoKeyAtoms(xs) && NoTokenWords(T, Output(val, xs))
    requires forall i, j :: 0 <= i < j < |o| ==> o[i] != o[j]
    ensures Restore(T, Flat(T, xs), o) == Flat(T, RestIn(o, xs))
    decreases |o|
  {
    if |o| == 0 {
      RestInNone(xs);
    } else {
      var init := o[..|o| - 1];
      LastFresh(o);
      RestoreLoop(T, val, xs, init);
      RestoreStep(T, val, init, o[|o| - 1], xs);
      assert init + [o[|o| - 1]] == o;
    }
  }

  lemma {:induction false} RestInFull(o: seq<Expr>, xs: seq<Atom>)
    requires forall e: Expr :: e in o
    ensures RestIn(o, xs) == RestFull(xs)
    decreases |xs|
  {
    if |xs| > 0 {
      RestInFull(o, xs[1..]);
    }
  }

  /**
   * After restoration no placeholder is left; what the atoms stand for, the absence of
   * neighbouring '{' characters, and whether a lone '{' precedes an expression are all
   * unchanged.
   */
  lemma {:induction false} RestFullFacts(val: Expr -> string, xs: seq<Atom>)
    ensures NoPlaceholders(RestFull(xs))
    ensures Output(val, RestFull(xs)) == Output(val, xs)
    ensures NoAdjacent(xs, '{') ==> NoAdjacent(RestFull(xs), '{')
    ensures BraceBeforeExpr(RestFull(xs)) == BraceBeforeExpr(xs)
    ensures |RestFull(xs)| == |xs|
    decreases |xs|
  {
    if |xs| > 0 {
      RestFullFacts(val, xs[1..]);
      var r := RestFull(xs);
      assert r[1..] == RestFull(xs[1..]);
      if |xs| >= 2 {
        assert r[1] == RestFull(xs[1..])[0];
      }
    }
  }

  /**
   * The restoration loop on escaped text that mentions no token word means the same whatever
   * order it runs in.
   */
  lemma RestoreMeaning(T: Table, val: Expr -> string, xs: seq<Atom>, o: seq<Expr>)
    requires WellFormed(T) && IsExprOrder(o) && NoKeyAtoms(xs) && NoTokenWords(T, Output(val, xs))
    ensures Restore(T, Flat(T, xs), o) == Flat(T, RestFull(xs))
  {
    RestoreLoop(T, val, xs, o);
    RestInFull(o, xs);
  }
}
