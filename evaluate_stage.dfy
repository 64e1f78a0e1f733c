/** Evaluation by the template engine, and the two unescaping passes that follow it. */
module EvaluateStage {
  import opened Wrappers
  import opened Text
  import opened Expressions
  import opened Atoms
  import opened Pipeline
  import opened Sentinels
  import opened RestoreStage

  /** The text evaluation produces: each spelling becomes its value, everything else stays. */
  function EvalText(T: Table, val: Expr -> string, xs: seq<Atom>): string {
    if |xs| == 0 then ""
    else (if xs[0].KeyA? then val(xs[0].e) else Spelling(T, xs[0])) + EvalText(T, val, xs[1..])
  }

  /** The same text as atoms: a value becomes its characters. */
  function Expand(val: Expr -> string, xs: seq<Atom>): seq<Atom> {
    if |xs| == 0 then []
    else (if xs[0].KeyA? then Chars(val(xs[0].e)) else [xs[0]]) + Expand(val, xs[1..])
  }

  function Chars(s: string): seq<Atom> {
    if |s| == 0 then [] else [Chr(s[0])] + Chars(s[1..])
  }

  lemma {:induction false} FlatAppend(T: Table, xs: seq<Atom>, ys: seq<Atom>)
    ensures Flat(T, xs + ys) == Flat(T, xs) + Flat(T, ys)
    decreases |xs|
  {
    if |xs| == 0 {
      assert xs + ys == ys;
    } else {
      FlatAppend(T, xs[1..], ys);
      assert (xs + ys)[1..] == xs[1..] + ys;
    }
  }

  lemma {:induction false} OutputAppend(val: Expr -> string, xs: seq<Atom>, ys: seq<Atom>)
    ensures Output(val, xs + ys) == Output(val, xs) + Output(val, ys)
    decreases |xs|
  {
    if |xs| == 0 {
      assert xs + ys == ys;
    } else {
      OutputAppend(val, xs[1..], ys);
      assert (xs + ys)[1..] == xs[1..] + ys;
    }
  }

  lemma {:induction false} CharsFacts(T: Table, val: Expr -> string, s: string)
    ensures Flat(T, Chars(s)) == s && Output(val, Chars(s)) == s
    ensures forall i :: 0 <= i < |Chars(s)| ==> Chars(s)[i].Chr? && Chars(s)[i].c in s
    decreases |s|
  {
    if |s| > 0 {
      CharsFacts(T, val, s[1..]);
      assert s == [s[0]] + s[1..];
    }
  }

  /** Only characters, plus left escape tokens when `l` and right ones when `r`. */
  predicate Kinds(xs: seq<Atom>, l: bool, r: bool) {
    forall i :: 0 <= i < |xs| ==> xs[i].Chr? || (l && xs[i].EscL?) || (r && xs[i].EscR?)
  }

  lemma NoKeysAppend(xs: seq<Atom>, ys: seq<Atom>)
    requires NoKeyAtoms(xs) && NoKeyAtoms(ys)
    ensures NoKeyAtoms(xs + ys)
  {
    assert forall i :: |xs| <= i < |xs + ys| ==> (xs + ys)[i] == ys[i - |xs|];
  }

  lemma NoPlaceholdersAppend(xs: seq<Atom>, ys: seq<Atom>)
    requires NoPlaceholders(xs) && NoPlaceholders(ys)
    ensures NoPlaceholders(xs + ys)
  {
    assert forall i :: |xs| <= i < |xs + ys| ==> (xs + ys)[i] == ys[i - |xs|];
  }

  lemma KindsAppend(xs: seq<Atom>, ys: seq<Atom>, l: bool, r: bool)
    requires Kinds(xs, l, r) && Kinds(ys, l, r)
    ensures Kinds(xs + ys, l, r)
  {
    assert forall i :: |xs| <= i < |xs + ys| ==> (xs + ys)[i] == ys[i - |xs|];
  }

  /** Expansion spells out the evaluated text. */
  lemma {:induction false} ExpandFlat(T: Table, val: Expr -> string, xs: seq<Atom>)
    ensures Flat(T, Expand(val, xs)) == EvalText(T, val, xs)
    decreases |xs|
  {
    if |xs| > 0 {
      ExpandFlat(T, val, xs[1..]);
      var head := if xs[0].KeyA? then Chars(val(xs[0].e)) else [xs[0]];
      FlatAppend(T, head, Expand(val, xs[1..]));
      if xs[0].KeyA? {
        CharsFacts(T, val, val(xs[0].e));
      }
    }
  }

  /** Expansion keeps what the atoms stand for. */
  lemma {:induction false} ExpandOutput(val: Expr -> string, xs: seq<Atom>)
    requires NoPlaceholders(xs)
    ensures Output(val, Expand(val, xs)) == Output(val, xs)
    decreases |xs|
  {
    if |xs| > 0 {
      ExpandOutput(val, xs[1..]);
      var head := if xs[0].KeyA? then Chars(val(xs[0].e)) else [xs[0]];
      OutputAppend(val, head, Expand(val, xs[1..]));
      if xs[0].KeyA? {
        CharsFacts(Replacements, val, val(xs[0].e));
      }
    }
  }

  /** Expansion leaves only characters and escape tokens. */
  lemma {:induction false} ExpandKinds(val: Expr -> string, xs: seq<Atom>)
    requires NoPlaceholders(xs)
    ensures Kinds(Expand(val, xs), true, true)
    decreases |xs|
  {
    if |xs| > 0 {
      ExpandKinds(val, xs[1..]);
      var head := if xs[0].KeyA? then Chars(val(xs[0].e)) else [xs[0]];
      if xs[0].KeyA? {
        CharsFacts(Replacements, val, val(xs[0].e));
      }
      KindsAppend(head, Expand(val, xs[1..]), true, true);
    }
  }

  lemma PrependEmpty(r: Result<string, EvalError>)
    ensures Prepend("", r) == r
  {
    if r.Ok? {
      assert "" + r.value == r.value;
    }
  }

  lemma PrependTwice(p: string, q: string, r: Result<string, EvalError>)
    ensures Prepend(p, Prepend(q, r)) == Prepend(p + q, r)
  {
    if r.Ok? {
      assert p + (q + r.value) == (p + q) + r.value;
    }
  }

  /** Text without '{' is copied by evaluation. */
  lemma {:induction false} EvalSkip(T: Table, val: Expr -> string, t: string, x: string)
    requires KeysNonEmpty(T) && '{' !in t
    ensures Evaluate(T, val, t + x) == Prepend(t, Evaluate(T, val, x))
    decreases |t|
  {
    if |t| == 0 {
      assert t + x == x;
      PrependEmpty(Evaluate(T, val, x));
    } else {
      SplitFirst(t, x, '{');
      EvalSkip(T, val, t[1..], x);
      EvalCopyChar(T, val, t[0], t[1..] + x);
      PrependTwice([t[0]], t[1..], Evaluate(T, val, x));
    }
  }

  /** The first character of `t` split off, in `t` alone and in front of `x`. */
  lemma SplitFirst(t: string, x: string, c: char)
    requires |t| > 0 && c !in t
    ensures t[0] != c && c !in t[1..]
    ensures [t[0]] + t[1..] == t && t + x == [t[0]] + (t[1..] + x)
  {
    assert t[0] in t;
    assert forall i :: 0 <= i < |t[1..]| ==> t[1..][i] == t[i + 1];
  }

  lemma EvalCopyChar(T: Table, val: Expr -> string, c: char, x: string)
    requires KeysNonEmpty(T) && (c != '{' || |x| == 0 || x[0] != '{')
    ensures Evaluate(T, val, [c] + x) == Prepend([c], Evaluate(T, val, x))
  {
    assert ([c] + x)[1..] == x;
    assert |x| > 0 ==> ([c] + x)[1] == x[0];
  }

  lemma EvalKey(T: Table, val: Expr -> string, e: Expr, x: string)
    requires WellFormed(T)
    ensures Evaluate(T, val, T.key(e) + x) == Prepend(val(e), Evaluate(T, val, x))
  {
    assert KeyShaped(T.key(e));
    KeyOpens(T.key(e), x);
    KeyAtSpelling(T, e, x);
    EvalAtKey(T, val, T.key(e) + x, e);
  }

  /** A spelling opens an action, and the text after it is what follows the spelling. */
  lemma KeyOpens(k: string, x: string)
    requires KeyShaped(k)
    ensures HasPrefix(k + x, "{{") && (k + x)[|k|..] == x
  {
    assert (k + x)[..2] == "{{";
  }

  /** An action that is one of the nine spellings: its value, then evaluation after it. */
  lemma EvalAtKey(T: Table, val: Expr -> string, s: string, e: Expr)
    requires KeysNonEmpty(T) && HasPrefix(s, "{{") && KeyAt(T, s) == Some(e)
    ensures Evaluate(T, val, s) == Prepend(val(e), Evaluate(T, val, s[|T.key(e)|..]))
  {
  }

  /** A '{' right before a spelling opens an action that is none of the nine: a parse error. */
  lemma EvalBraceKey(T: Table, val: Expr -> string, e: Expr, x: string)
    requires WellFormed(T)
    ensures Evaluate(T, val, "{" + T.key(e) + x) == Err(ParseError)
  {
    assert KeyShaped(T.key(e));
    var s := "{" + T.key(e) + x;
    assert s[..2] == "{{";
    forall e': Expr
      ensures !HasPrefix(s, T.key(e'))
    {
      assert KeyShaped(T.key(e'));
      assert s[2] == '{';
    }
  }

  /**
   * Evaluation of restored text: it fails exactly when a lone '{' precedes a spelling, and
   * otherwise replaces each spelling by its value.
   */
  lemma {:induction false} EvalMeaning(T: Table, val: Expr -> string, xs: seq<Atom>)
    requires WellFormed(T) && NoPlaceholders(xs) && NoAdjacent(xs, '{')
    ensures Evaluate(T, val, Flat(T, xs)) == if BraceBeforeExpr(xs) then Err(ParseError) else Ok(EvalText(T, val, xs))
    decreases |xs|
  {
    if |xs| > 0 {
      FlatHead(T, xs);
      var a, rest := xs[0], xs[1..];
      var x := Flat(T, rest);
      EvalMeaning(T, val, rest);
      if a.Chr? {
        EvalChrHead(T, val, a.c, rest);
      } else if a.KeyA? {
        EvalKey(T, val, a.e, x);
      } else {
        TokenShape(T, a);
        EvalSkip(T, val, Spelling(T, a), x);
      }
    }
  }

  /** A '{' right before a key atom: a parse error. */
  lemma EvalBraceBeforeKey(T: Table, val: Expr -> string, rest: seq<Atom>)
    requires WellFormed(T) && |rest| > 0 && rest[0].KeyA?
    ensures Evaluate(T, val, "{" + Flat(T, rest)) == Err(ParseError)
  {
    BraceKeyText(T, rest);
    EvalBraceKey(T, val, rest[0].e, Flat(T, rest[1..]));
  }

  /** The text of a '{' and a key atom, grouped as EvalBraceKey reads it. */
  lemma BraceKeyText(T: Table, rest: seq<Atom>)
    requires WellFormed(T) && |rest| > 0 && rest[0].KeyA?
    ensures "{" + Flat(T, rest) == "{" + T.key(rest[0].e) + Flat(T, rest[1..])
  {
    FlatHead(T, rest);
  }

  /** Restored text led by neither '{' nor a key does not start with '{'. */
  lemma FlatNoBraceHead(T: Table, rest: seq<Atom>)
    requires WellFormed(T) && NoPlaceholders(rest) && |rest| > 0
    requires rest[0] != Chr('{') && !rest[0].KeyA?
    ensures Flat(T, rest)[0] != '{'
  {
    FlatHead(T, rest);
    if IsToken(rest[0]) {
      TokenShape(T, rest[0]);
    }
  }

  /** Evaluation of text led by a character atom. */
  lemma EvalChrHead(T: Table, val: Expr -> string, c: char, rest: seq<Atom>)
    requires WellFormed(T) && NoPlaceholders(rest)
    requires c == '{' && |rest| > 0 ==> rest[0] != Chr('{')
    ensures Evaluate(T, val, [c] + Flat(T, rest))
         == if c == '{' && |rest| > 0 && rest[0].KeyA? then Err(ParseError)
            else Prepend([c], Evaluate(T, val, Flat(T, rest)))
  {
    if c == '{' && |rest| > 0 && rest[0].KeyA? {
      EvalBraceBeforeKey(T, val, rest);
    } else {
      if c == '{' && |rest| > 0 {
        FlatNoBraceHead(T, rest);
      }
      EvalCopyChar(T, val, c, Flat(T, rest));
    }
  }

  /** Escape tokens `esc` turned back into two `ch` characters. */
  function Unesc(xs: seq<Atom>, esc: Atom, ch: char): seq<Atom> {
    if |xs| == 0 then []
    else (if xs[0] == esc then [Chr(ch), Chr(ch)] else [xs[0]]) + Unesc(xs[1..], esc, ch)
  }

  /**
   * One unescaping pass, on atoms that mention no token word in what they stand for under
   * some valuation `val`.
   */
  lemma {:induction false} UnescapeStep(T: Table, val: Expr -> string, xs: seq<Atom>, esc: Atom, ch: char)
    requires WellFormed(T) && IsToken(esc) && NoTokenWords(T, Output(val, xs))
    ensures ReplaceAll(Flat(T, xs), Spelling(T, esc), [ch, ch]) == Flat(T, Unesc(xs, esc, ch))
    decreases |xs|
  {
    if |xs| > 0 {
      FlatHead(T, xs);
      var a, rest := xs[0], xs[1..];
      assert Output(val, xs) == Meaning(val, a) + Output(val, rest);
      NoTokenWordsTail(T, Meaning(val, a), Output(val, rest));
      UnescapeStep(T, val, rest, esc, ch);
      UnescapeAtom(T, val, a, esc, ch, rest);
      UnescCons(T, xs, esc, ch);
    }
  }

  /** Unescaping a sequence is unescaping its first atom, then the rest. */
  lemma UnescCons(T: Table, xs: seq<Atom>, esc: Atom, ch: char)
    requires |xs| > 0
    ensures Flat(T, Unesc(xs, esc, ch))
         == (if xs[0] == esc then [ch, ch] else Spelling(T, xs[0])) + Flat(T, Unesc(xs[1..], esc, ch))
  {
    var head := if xs[0] == esc then [Chr(ch), Chr(ch)] else [xs[0]];
    FlatAppend(T, head, Unesc(xs[1..], esc, ch));
    if xs[0] == esc {
      assert head[1..] == [Chr(ch)];
      assert Flat(T, head) == [ch] + ([ch] + "");
    } else {
      assert Flat(T, head) == Spelling(T, xs[0]) + "";
    }
  }

  lemma UnescapeAtom(T: Table, val: Expr -> string, a: Atom, esc: Atom, ch: char, rest: seq<Atom>)
    requires WellFormed(T) && IsToken(esc) && NoTokenWords(T, Output(val, rest))
    ensures ReplaceAll(Spelling(T, a) + Flat(T, rest), Spelling(T, esc), [ch, ch])
         == (if a == esc then [ch, ch] else Spelling(T, a)) + ReplaceAll(Flat(T, rest), Spelling(T, esc), [ch, ch])
  {
    var f, x := Spelling(T, esc), Flat(T, rest);
    TokenShape(T, esc);
    if a == esc {
      ReplaceAllFront(x, f, [ch, ch]);
    } else if IsToken(a) {
      UnescapeOtherToken(T, val, a, esc, ch, rest);
    } else if a == Chr('_') {
      TokenWordAbsent(T, Output(val, rest), esc);
      CleanStart(T, val, rest, f);
      UnderscoreCopy(f, x, [ch, ch]);
    } else {
      if a.KeyA? {
        assert KeyShaped(T.key(a.e));
      }
      ReplaceAllSkipChar(Spelling(T, a), x, f, [ch, ch]);
    }
  }

  /** A token other than the one being unescaped is copied. */
  lemma UnescapeOtherToken(T: Table, val: Expr -> string, a: Atom, esc: Atom, ch: char, rest: seq<Atom>)
    requires WellFormed(T) && IsToken(esc) && IsToken(a) && a != esc && NoTokenWords(T, Output(val, rest))
    ensures ReplaceAll(Spelling(T, a) + Flat(T, rest), Spelling(T, esc), [ch, ch])
         == Spelling(T, a) + ReplaceAll(Flat(T, rest), Spelling(T, esc), [ch, ch])
  {
    var f := Spelling(T, esc);
    TokenShape(T, esc);
    TokenShape(T, a);
    assert Spelling(T, a) != f;
    TokenWordAbsent(T, Output(val, rest), esc);
    CleanStart(T, val, rest, f);
    TokenCopy(Spelling(T, a), f, Flat(T, rest), [ch, ch]);
  }

  /** Unescaping keeps what the atoms stand for. */
  lemma {:induction false} UnescOutput(val: Expr -> string, xs: seq<Atom>, esc: Atom, ch: char)
    requires Meaning(val, esc) == [ch, ch]
    ensures Output(val, Unesc(xs, esc, ch)) == Output(val, xs)
    decreases |xs|
  {
    if |xs| > 0 {
      UnescOutput(val, xs[1..], esc, ch);
      var head := if xs[0] == esc then [Chr(ch), Chr(ch)] else [xs[0]];
      OutputAppend(val, head, Unesc(xs[1..], esc, ch));
      HeadOutput(val, xs[0], esc, ch);
      assert Unesc(xs, esc, ch) == head + Unesc(xs[1..], esc, ch);
    }
  }

  /** The atoms unescaping puts in place of one atom stand for what that atom stands for. */
  lemma HeadOutput(val: Expr -> string, a: Atom, esc: Atom, ch: char)
    requires Meaning(val, esc) == [ch, ch]
    ensures Output(val, if a == esc then [Chr(ch), Chr(ch)] else [a]) == Meaning(val, a)
  {
    if a == esc {
      var p := [Chr(ch), Chr(ch)];
      assert p[1..] == [Chr(ch)];
      assert Output(val, p[1..]) == [ch] + Output(val, p[1..][1..]);
    } else {
      assert Output(val, [a]) == Meaning(val, a) + Output(val, [a][1..]);
    }
  }

  /** Unescaping removes every escape token of the kind it handles. */
  lemma {:induction false} UnescKinds(xs: seq<Atom>, esc: Atom, ch: char, l: bool, r: bool)
    requires Kinds(xs, l, r)
    ensures Kinds(Unesc(xs, esc, ch), l && !esc.EscL?, r && !esc.EscR?)
    decreases |xs|
  {
    if |xs| > 0 {
      UnescKinds(xs[1..], esc, ch, l, r);
      var head := if xs[0] == esc then [Chr(ch), Chr(ch)] else [xs[0]];
      KindsAppend(head, Unesc(xs[1..], esc, ch), l && !esc.EscL?, r && !esc.EscR?);
    }
  }

  /** Where only characters are left, the text is what the atoms stand for. */
  lemma {:induction false} CharsOnly(T: Table, val: Expr -> string, xs: seq<Atom>)
    requires Kinds(xs, false, false)
    ensures Flat(T, xs) == Output(val, xs)
    decreases |xs|
  {
    if |xs| > 0 {
      CharsOnly(T, val, xs[1..]);
    }
  }
}
