/** The two escaping passes: every remaining "{{", then every "}}", becomes an escape token. */
module EscapeStage {
  import opened Text
  import opened Expressions
  import opened Atoms

  /** Neighbouring `ch` characters paired up from the left, each pair becoming `esc`. */
  function Pair(xs: seq<Atom>, ch: char, esc: Atom): seq<Atom>
    decreases |xs|
  {
    if |xs| == 0 then []
    else if |xs| >= 2 && xs[0] == Chr(ch) && xs[1] == Chr(ch) then [esc] + Pair(xs[2..], ch, esc)
    else [xs[0]] + Pair(xs[1..], ch, esc)
  }

  predicate IsEscape(a: Atom) {
    a.EscL? || a.EscR?
  }

  /** One escaping pass on text whose spellings have all been protected. */
  lemma {:induction false} EscapeStep(T: Table, xs: seq<Atom>, ch: char, esc: Atom)
    requires WellFormed(T)
    requires ch == '{' || ch == '}'
    requires IsToken(esc) && NoKeyAtoms(xs)
    ensures ReplaceAll(Flat(T, xs), [ch, ch], Spelling(T, esc)) == Flat(T, Pair(xs, ch, esc))
    decreases |xs|
  {
    if |xs| >= 2 && xs[0] == Chr(ch) && xs[1] == Chr(ch) {
      EscapeStep(T, xs[2..], ch, esc);
      EscapePairCase(T, xs, ch, Spelling(T, esc));
      assert Pair(xs, ch, esc) == [esc] + Pair(xs[2..], ch, esc);
      FlatHead(T, Pair(xs, ch, esc));
    } else if |xs| > 0 {
      EscapeStep(T, xs[1..], ch, esc);
      EscapeSingleCase(T, xs, ch, Spelling(T, esc));
      assert Pair(xs, ch, esc) == [xs[0]] + Pair(xs[1..], ch, esc);
      FlatHead(T, Pair(xs, ch, esc));
    }
  }

  lemma EscapePairCase(T: Table, xs: seq<Atom>, ch: char, t: string)
    requires WellFormed(T)
    requires |xs| >= 2 && xs[0] == Chr(ch) && xs[1] == Chr(ch)
    ensures ReplaceAll(Flat(T, xs), [ch, ch], t) == t + ReplaceAll(Flat(T, xs[2..]), [ch, ch], t)
  {
    FlatPair(T, xs, ch);
    ReplaceAllFront(Flat(T, xs[2..]), [ch, ch], t);
  }

  /** Two character atoms `ch` spell "<ch><ch>" in front of the rest. */
  lemma FlatPair(T: Table, xs: seq<Atom>, ch: char)
    requires |xs| >= 2 && xs[0] == Chr(ch) && xs[1] == Chr(ch)
    ensures Flat(T, xs) == [ch, ch] + Flat(T, xs[2..])
  {
    assert xs[1..][1..] == xs[2..];
    var rest := Flat(T, xs[2..]);
    assert Flat(T, xs[1..]) == [ch] + rest;
    assert [ch] + ([ch] + rest) == [ch, ch] + rest;
  }

  lemma EscapeSingleCase(T: Table, xs: seq<Atom>, ch: char, t: string)
    requires WellFormed(T)
    requires ch == '{' || ch == '}'
    requires NoKeyAtoms(xs) && |xs| > 0
    requires !(|xs| >= 2 && xs[0] == Chr(ch) && xs[1] == Chr(ch))
    ensures ReplaceAll(Flat(T, xs), [ch, ch], t) == Spelling(T, xs[0]) + ReplaceAll(Flat(T, xs[1..]), [ch, ch], t)
  {
    FlatHead(T, xs);
    var x := Flat(T, xs[1..]);
    if xs[0] == Chr(ch) {
      if |xs| >= 2 {
        FlatHead(T, xs[1..]);
        if IsToken(xs[1]) {
          TokenShape(T, xs[1]);
        }
      }
      LoneChar(ch, x, t);
    } else {
      if IsToken(xs[0]) {
        TokenShape(T, xs[0]);
      }
      ReplaceAllSkipChar(Spelling(T, xs[0]), x, [ch, ch], t);
    }
  }

  /** A `ch` not followed by another `ch` is copied by an escaping pass. */
  lemma LoneChar(ch: char, x: string, t: string)
    requires |x| == 0 || x[0] != ch
    ensures ReplaceAll([ch] + x, [ch, ch], t) == [ch] + ReplaceAll(x, [ch, ch], t)
  {
    assert !HasPrefix([ch] + x, [ch, ch]) by {
      assert |x| > 0 ==> ([ch] + x)[1] == x[0];
    }
    ReplaceAllStep([ch] + x, [ch, ch], t);
    assert ([ch] + x)[1..] == x;
  }

  lemma PairHead(xs: seq<Atom>, ch: char, esc: Atom)
    requires |xs| > 0
    ensures |Pair(xs, ch, esc)| > 0
    ensures Pair(xs, ch, esc)[0] == (if |xs| >= 2 && xs[0] == Chr(ch) && xs[1] == Chr(ch) then esc else xs[0])
  {
  }

  /** Pairing keeps what the atoms stand for when the token means the pair it replaces. */
  lemma {:induction false} PairOutput(val: Expr -> string, xs: seq<Atom>, ch: char, esc: Atom)
    requires Meaning(val, esc) == [ch, ch]
    ensures Output(val, Pair(xs, ch, esc)) == Output(val, xs)
    decreases |xs|
  {
    if |xs| >= 2 && xs[0] == Chr(ch) && xs[1] == Chr(ch) {
      PairOutput(val, xs[2..], ch, esc);
      assert xs[1..][1..] == xs[2..];
      assert Output(val, xs) == [ch] + ([ch] + Output(val, xs[2..]));
    } else if |xs| > 0 {
      PairOutput(val, xs[1..], ch, esc);
    }
  }

  /** Pairing introduces no spelling. */
  lemma {:induction false} PairClean(xs: seq<Atom>, ch: char, esc: Atom)
    requires IsEscape(esc)
    ensures NoKeyAtoms(xs) ==> NoKeyAtoms(Pair(xs, ch, esc))
    decreases |xs|
  {
    if |xs| >= 2 && xs[0] == Chr(ch) && xs[1] == Chr(ch) {
      PairClean(xs[2..], ch, esc);
      var p := Pair(xs, ch, esc);
      assert p[1..] == Pair(xs[2..], ch, esc);
    } else if |xs| > 0 {
      PairClean(xs[1..], ch, esc);
      var p := Pair(xs, ch, esc);
      assert p[1..] == Pair(xs[1..], ch, esc);
    }
  }

  /** After pairing no two `ch` characters stand next to each other. */
  lemma {:induction false} PairNoAdjacent(xs: seq<Atom>, ch: char, esc: Atom)
    requires IsEscape(esc)
    ensures NoAdjacent(Pair(xs, ch, esc), ch)
    decreases |xs|
  {
    if |xs| >= 2 && xs[0] == Chr(ch) && xs[1] == Chr(ch) {
      PairNoAdjacent(xs[2..], ch, esc);
      var p := Pair(xs, ch, esc);
      assert p[1..] == Pair(xs[2..], ch, esc);
    } else if |xs| > 0 {
      PairNoAdjacent(xs[1..], ch, esc);
      if |xs| >= 2 {
        PairHead(xs[1..], ch, esc);
      }
      var p := Pair(xs, ch, esc);
      assert p[1..] == Pair(xs[1..], ch, esc);
    }
  }

  /** Pairing `ch` characters creates no neighbouring pair of another character `d`. */
  lemma {:induction false} PairKeepsApart(xs: seq<Atom>, ch: char, esc: Atom, d: char)
    requires IsEscape(esc) && ch != d && NoAdjacent(xs, d)
    ensures NoAdjacent(Pair(xs, ch, esc), d)
    decreases |xs|
  {
    if |xs| >= 2 && xs[0] == Chr(ch) && xs[1] == Chr(ch) {
      assert NoAdjacent(xs[1..], d);
      assert xs[1..][1..] == xs[2..];
      PairKeepsApart(xs[2..], ch, esc, d);
      var p := Pair(xs, ch, esc);
      assert p[1..] == Pair(xs[2..], ch, esc);
    } else if |xs| > 0 {
      PairKeepsApart(xs[1..], ch, esc, d);
      if |xs| >= 2 {
        PairHead(xs[1..], ch, esc);
      }
      var p := Pair(xs, ch, esc);
      assert p[1..] == Pair(xs[1..], ch, esc);
    }
  }

  /** Pairing never puts a lone '{' in front of an expression that was not there already. */
  lemma {:induction false} PairNoNewBrace(xs: seq<Atom>, ch: char, esc: Atom)
    requires IsEscape(esc)
    ensures BraceBeforeExpr(Pair(xs, ch, esc)) ==> BraceBeforeExpr(xs)
    decreases |xs|
  {
    if |xs| >= 2 && xs[0] == Chr(ch) && xs[1] == Chr(ch) {
      PairNoNewBrace(xs[2..], ch, esc);
      var p := Pair(xs, ch, esc);
      assert p[1..] == Pair(xs[2..], ch, esc);
      if BraceBeforeExpr(xs[2..]) {
        assert xs[1..][1..] == xs[2..];
        assert BraceBeforeExpr(xs[1..]);
      }
    } else if |xs| > 0 {
      PairNoNewBrace(xs[1..], ch, esc);
      if |xs| >= 2 {
        PairHead(xs[1..], ch, esc);
      }
      var p := Pair(xs, ch, esc);
      assert p[1..] == Pair(xs[1..], ch, esc);
    }
  }
}
