/** The protection loop: each spelling of the nine expressions becomes its placeholder. */
module ProtectStage {
  import opened Wrappers
  import opened Text
  import opened Expressions
  import opened Atoms
  import opened Pipeline
  import opened Sentinels

  function ProtAtom(done: seq<Expr>, a: Atom): Atom {
    if a.KeyA? && a.e in done then PhA(a.e) else a
  }

  /** The atoms after the expressions in `done` have been protected. */
  function ProtIn(done: seq<Expr>, xs: seq<Atom>): seq<Atom> {
    if |xs| == 0 then [] else [ProtAtom(done, xs[0])] + ProtIn(done, xs[1..])
  }

  /** The atoms after all nine expressions have been protected. */
  function ProtFull(xs: seq<Atom>): seq<Atom> {
    if |xs| == 0 then []
    else [if xs[0].KeyA? then PhA(xs[0].e) else xs[0]] + ProtFull(xs[1..])
  }

  /** Extending both texts after a common head keeps a prefix relation. */
  lemma PrefixCongruence(p: string, x': string, x: string, w: string)
    requires |w| > |p| ==> (HasPrefix(x', w[|p|..]) ==> HasPrefix(x, w[|p|..]))
    ensures HasPrefix(p + x', w) ==> HasPrefix(p + x, w)
  {
    if |w| <= |p| {
      PrefixHead(p, x', w);
      PrefixHead(p, x, w);
    } else {
      PrefixTail(p, x', w);
      PrefixTail(p, x, w);
    }
  }

  /** A placeholder begins with an underscore. */
  lemma PlaceholderHead(T: Table, e: Expr, x: string)
    requires WellFormed(T)
    ensures |T.placeholder(e) + x| > 0 && (T.placeholder(e) + x)[0] == '_'
  {
    assert SentinelShape(T.placeholder(e));
  }

  /** Protection only inserts underscores, so a prefix free of them was there before. */
  lemma {:induction false} ProtPrefix(T: Table, done: seq<Expr>, xs: seq<Atom>, w: string)
    requires WellFormed(T) && '_' !in w
    ensures HasPrefix(Flat(T, ProtIn(done, xs)), w) ==> HasPrefix(Flat(T, xs), w)
    decreases |xs|
  {
    if |xs| > 0 && |w| > 0 {
      var a := xs[0];
      var p := Spelling(T, ProtAtom(done, a));
      var x' := Flat(T, ProtIn(done, xs[1..]));
      assert Flat(T, ProtIn(done, xs)) == p + x';
      if ProtAtom(done, a) == a {
        if |w| > |p| {
          assert '_' !in w[|p|..] by {
            assert forall i :: 0 <= i < |w[|p|..]| ==> w[|p|..][i] == w[i + |p|];
          }
          ProtPrefix(T, done, xs[1..], w[|p|..]);
        }
        PrefixCongruence(p, x', Flat(T, xs[1..]), w);
      } else {
        PlaceholderHead(T, a.e, x');
      }
    }
  }

  /** One pass of the protection loop over a leading character no spelling starts at. */
  lemma ProtectChrStep(k: string, ph: string, c: char, rest: string, x: string)
    requires |k| > 1 && !HasPrefix([c] + rest, k)
    requires HasPrefix(x, k[1..]) ==> HasPrefix(rest, k[1..])
    ensures ReplaceAll([c] + x, k, ph) == [c] + ReplaceAll(x, k, ph)
  {
    PrefixTail([c], x, k);
    PrefixTail([c], rest, k);
    ReplaceAllStep([c] + x, k, ph);
    assert ([c] + x)[1..] == x;
  }

  /** One pass of the protection loop over a leading spelling. */
  lemma ProtectKeyStep(T: Table, done: seq<Expr>, e: Expr, e': Expr, x: string)
    requires WellFormed(T) && e !in done
    ensures ReplaceAll(Spelling(T, ProtAtom(done, KeyA(e'))) + x, T.key(e), T.placeholder(e))
         == Spelling(T, ProtAtom(done + [e], KeyA(e'))) + ReplaceAll(x, T.key(e), T.placeholder(e))
  {
    assert KeyShaped(T.key(e));
    if e' in done {
      assert SentinelShape(T.placeholder(e'));
      SentinelChars(T.placeholder(e'));
      ReplaceAllSkipChar(T.placeholder(e'), x, T.key(e), T.placeholder(e));
    } else if e' == e {
      ReplaceAllFront(x, T.key(e), T.placeholder(e));
    } else {
      KeySkip(T, e', e, x);
      ReplaceAllSkip(T.key(e'), x, T.key(e), T.placeholder(e));
    }
  }

  /** A spelling has no underscore after its first character either. */
  lemma KeyTailClean(T: Table, e: Expr)
    requires WellFormed(T)
    ensures |T.key(e)| > 1 && '_' !in T.key(e)[1..]
  {
    var k := T.key(e);
    assert KeyShaped(k);
    assert forall i :: 0 <= i < |k[1..]| ==> k[1..][i] == k[i + 1];
  }

  /** One pass of the protection loop over a leading character. */
  lemma ProtectChrAtom(T: Table, done: seq<Expr>, e: Expr, c: char, rest: seq<Atom>)
    requires WellFormed(T) && KeyAt(T, [c] + Flat(T, rest)) == None
    ensures ReplaceAll([c] + Flat(T, ProtIn(done, rest)), T.key(e), T.placeholder(e))
         == [c] + ReplaceAll(Flat(T, ProtIn(done, rest)), T.key(e), T.placeholder(e))
  {
    KeyTailClean(T, e);
    ProtPrefix(T, done, rest, T.key(e)[1..]);
    ProtectChrStep(T.key(e), T.placeholder(e), c, Flat(T, rest), Flat(T, ProtIn(done, rest)));
  }

  /** One pass of the protection loop over the first atom, given the pass over the others. */
  lemma ProtectHead(T: Table, done: seq<Expr>, e: Expr, xs: seq<Atom>)
    requires WellFormed(T) && e !in done && Tokenized(T, xs) && |xs| > 0
    requires ReplaceAll(Flat(T, ProtIn(done, xs[1..])), T.key(e), T.placeholder(e)) == Flat(T, ProtIn(done + [e], xs[1..]))
    ensures ReplaceAll(Flat(T, ProtIn(done, xs)), T.key(e), T.placeholder(e)) == Flat(T, ProtIn(done + [e], xs))
  {
    var a, rest := xs[0], xs[1..];
    var x := Flat(T, ProtIn(done, rest));
    assert Flat(T, ProtIn(done, xs)) == Spelling(T, ProtAtom(done, a)) + x;
    assert Flat(T, ProtIn(done + [e], xs)) == Spelling(T, ProtAtom(done + [e], a)) + Flat(T, ProtIn(done + [e], rest));
    if a.Chr? {
      assert Flat(T, xs) == [a.c] + Flat(T, rest);
      ProtectChrAtom(T, done, e, a.c, rest);
    } else {
      ProtectKeyStep(T, done, e, a.e, x);
    }
  }

  /** One pass of the protection loop. */
  lemma {:induction false} ProtectStep(T: Table, done: seq<Expr>, e: Expr, xs: seq<Atom>)
    requires WellFormed(T) && e !in done && Tokenized(T, xs)
    ensures ReplaceAll(Flat(T, ProtIn(done, xs)), T.key(e), T.placeholder(e)) == Flat(T, ProtIn(done + [e], xs))
    decreases |xs|
  {
    if |xs| > 0 {
      ProtectStep(T, done, e, xs[1..]);
      ProtectHead(T, done, e, xs);
    }
  }

  lemma {:induction false} ProtInNone(xs: seq<Atom>)
    ensures ProtIn([], xs) == xs
    decreases |xs|
  {
    if |xs| > 0 {
      ProtInNone(xs[1..]);
    }
  }

  /** The whole protection loop, in any order that visits each expression once. */
  lemma {:induction false} ProtectLoop(T: Table, xs: seq<Atom>, o: seq<Expr>)
    requires WellFormed(T) && Tokenized(T, xs)
    requires forall i, j :: 0 <= i < j < |o| ==> o[i] != o[j]
    ensures Protect(T, Flat(T, xs), o) == Flat(T, ProtIn(o, xs))
    decreases |o|
  {
    if |o| == 0 {
      ProtInNone(xs);
    } else {
      var init := o[..|o| - 1];
      LastFresh(o);
      ProtectLoop(T, xs, init);
      ProtectStep(T, init, o[|o| - 1], xs);
      assert init + [o[|o| - 1]] == o;
    }
  }

  lemma {:induction false} ProtInFull(o: seq<Expr>, xs: seq<Atom>)
    requires forall e: Expr :: e in o
    ensures ProtIn(o, xs) == ProtFull(xs)
    decreases |xs|
  {
    if |xs| > 0 {
      ProtInFull(o, xs[1..]);
    }
  }

  /** After protection no spelling is left and every atom means what it meant. */
  lemma {:induction false} ProtFullFacts(val: Expr -> string, xs: seq<Atom>)
    ensures NoKeyAtoms(ProtFull(xs))
    ensures Output(val, ProtFull(xs)) == Output(val, xs)
    ensures |ProtFull(xs)| == |xs|
    decreases |xs|
  {
    if |xs| > 0 {
      ProtFullFacts(val, xs[1..]);
    }
  }

  /** Protection turns spellings into placeholders, so a lone '{' before an expression stays one. */
  lemma {:induction false} ProtFullBrace(xs: seq<Atom>)
    ensures BraceBeforeExpr(ProtFull(xs)) == BraceBeforeExpr(xs)
    decreases |xs|
  {
    if |xs| > 0 {
      ProtFullBrace(xs[1..]);
      var p := ProtFull(xs);
      assert p[1..] == ProtFull(xs[1..]);
      if |xs| >= 2 {
        assert p[1] == ProtFull(xs[1..])[0];
      }
    }
  }

  /**
   * Protection of a file's text yields the spelled-out atoms of its tokenised form with every
   * spelling protected, whatever order the table is visited in.
   */
  lemma ProtectMeaning(T: Table, s: string, o: seq<Expr>)
    requires WellFormed(T) && IsExprOrder(o)
    ensures Protect(T, s, o) == Flat(T, ProtFull(Tokenize(T, s)))
  {
    TokenizeSound(T, s);
    ProtectLoop(T, Tokenize(T, s), o);
    ProtInFull(o, Tokenize(T, s));
  }

  /** The order in which the table is visited does not change the protected text. */
  lemma ProtectOrderIndependent(T: Table, s: string, o1: seq<Expr>, o2: seq<Expr>)
    requires WellFormed(T) && IsExprOrder(o1) && IsExprOrder(o2)
    ensures Protect(T, s, o1) == Protect(T, s, o2)
  {
    ProtectMeaning(T, s, o1);
    ProtectMeaning(T, s, o2);
  }
}
