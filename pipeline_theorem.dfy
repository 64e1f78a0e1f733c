/**
 * What the pipeline of a templated file computes, end to end: given that the file it should
 * produce mentions none of the words its placeholders and escape tokens carry (so nothing can
 * be mistaken for one of those tokens), the result is the text with each of the nine spellings
 * replaced by its value (Render), unless a lone '{' stands right before one of them, where the
 * template engine reports a parse error. The protection and restoration orders do not matter.
 */
module PipelineTheorem {
  import opened Wrappers
  import opened Text
  import opened Schema
  import opened Expressions
  import opened Atoms
  import opened Pipeline
  import opened Sentinels
  import opened ProtectStage
  import opened EscapeStage
  import opened RestoreStage
  import opened EvaluateStage

  /** The atoms of `s` after protection and both escaping passes. */
  ghost function Escaped(T: Table, s: string): seq<Atom>
    requires KeysNonEmpty(T)
  {
    Pair(Pair(ProtFull(Tokenize(T, s)), '{', EscL), '}', EscR)
  }

  /** Protection then escaping, in atoms, with the facts the later stages rely on. */
  lemma FrontHalf(T: Table, val: Expr -> string, s: string, po: seq<Expr>)
    requires WellFormed(T) && IsExprOrder(po)
    ensures EscapeBraces(T, Protect(T, s, po)) == Flat(T, Escaped(T, s))
    ensures NoKeyAtoms(Escaped(T, s)) && NoAdjacent(Escaped(T, s), '{')
    ensures Output(val, Escaped(T, s)) == Render(T, val, s)
  {
    var xs := Tokenize(T, s);
    TokenizeSound(T, s);
    RenderIsOutput(T, val, s);
    var p := ProtFull(xs);
    ProtectMeaning(T, s, po);
    ProtFullFacts(val, xs);
    var e1 := Pair(p, '{', EscL);
    EscapeStep(T, p, '{', EscL);
    PairClean(p, '{', EscL);
    PairNoAdjacent(p, '{', EscL);
    PairOutput(val, p, '{', EscL);
    EscapeStep(T, e1, '}', EscR);
    PairClean(e1, '}', EscR);
    PairKeepsApart(e1, '}', EscR, '{');
    PairOutput(val, e1, '}', EscR);
  }

  /**
   * Restoration then evaluation of escaped atoms that mention no token word in what they stand
   * for under `view` (the valuation `val` the engine uses, or any other).
   */
  lemma MiddleHalf(T: Table, val: Expr -> string, view: Expr -> string, xs: seq<Atom>, ro: seq<Expr>)
    requires WellFormed(T) && IsExprOrder(ro)
    requires NoKeyAtoms(xs) && NoAdjacent(xs, '{') && NoTokenWords(T, Output(view, xs))
    ensures Evaluate(T, val, Restore(T, Flat(T, xs), ro))
         == if BraceBeforeExpr(xs) then Err(ParseError) else Ok(Flat(T, Expand(val, RestFull(xs))))
  {
    RestoreMeaning(T, view, xs, o := ro);
    RestFullFacts(val, xs);
    EvalMeaning(T, val, RestFull(xs));
    ExpandFlat(T, val, RestFull(xs));
  }

  /** Unescaping the evaluated atoms gives what they stand for. */
  lemma BackHalf(T: Table, val: Expr -> string, rs: seq<Atom>)
    requires WellFormed(T) && NoPlaceholders(rs) && NoTokenWords(T, Output(val, rs))
    ensures UnescapeBraces(T, Flat(T, Expand(val, rs))) == Output(val, rs)
  {
    var x := Expand(val, rs);
    ExpandKinds(val, rs);
    ExpandOutput(val, rs);
    UnescapeStep(T, val, x, EscL, '{');
    UnescKinds(x, EscL, '{', true, true);
    UnescOutput(val, x, EscL, '{');
    var u1 := Unesc(x, EscL, '{');
    UnescapeStep(T, val, u1, EscR, '}');
    UnescKinds(u1, EscR, '}', false, true);
    UnescOutput(val, u1, EscR, '}');
    CharsOnly(T, val, Unesc(u1, EscR, '}'));
  }

  /**
   * The pipeline after the mappings: a parse error exactly when a lone '{' precedes one of the
   * nine expressions, and otherwise every spelling replaced by its value.
   */
  lemma TransformMeaning(T: Table, val: Expr -> string, s: string, po: seq<Expr>, ro: seq<Expr>)
    requires WellFormed(T) && IsExprOrder(po) && IsExprOrder(ro)
    requires NoTokenWords(T, Render(T, val, s))
    ensures Transform(T, val, s, po, ro)
         == if BraceBeforeExpr(Escaped(T, s)) then Err(ParseError) else Ok(Render(T, val, s))
  {
    var xs := Escaped(T, s);
    FrontHalf(T, val, s, po);
    MiddleHalf(T, val, val, xs, ro);
    RestFullFacts(val, xs);
    if !BraceBeforeExpr(xs) {
      BackHalf(T, val, RestFull(xs));
    }
  }

  /** The reference rendering of mapped content under a project's variables. */
  function Rendered(vars: TemplateVariables, content: string, ms: seq<Mapping>): string {
    ReplacementsWellFormed();
    Render(Replacements, Valuation(vars), ApplyMappings(content, ms))
  }

  /**
   * The same for the generator's own table and the values of a project's variables, when the
   * file to be produced does not mention PROJECT_NAME_PLACEHOLDER, ..., ESCAPED_LEFT_BRACE or
   * ESCAPED_RIGHT_BRACE.
   */
  lemma ProcessTemplateMeaning(
    vars: TemplateVariables, content: string, ms: seq<Mapping>, po: seq<Expr>, ro: seq<Expr>)
    requires IsExprOrder(po) && IsExprOrder(ro)
    requires NoTokenWords(Replacements, Rendered(vars, content, ms))
    ensures KeysNonEmpty(Replacements)
    ensures KeysNonEmpty(Replacements) && ProcessTemplate(vars, content, ms, po, ro)
         == var s := ApplyMappings(content, ms);
            if BraceBeforeExpr(Escaped(Replacements, s)) then Err(ParseError)
            else Ok(Render(Replacements, Valuation(vars), s))
  {
    ReplacementsWellFormed();
    TransformMeaning(Replacements, Valuation(vars), ApplyMappings(content, ms), po, ro);
  }

  /** Without a lone '{' before a spelling of the source text, the pipeline succeeds. */
  lemma TransformSucceeds(T: Table, val: Expr -> string, s: string, po: seq<Expr>, ro: seq<Expr>)
    requires WellFormed(T) && IsExprOrder(po) && IsExprOrder(ro)
    requires NoTokenWords(T, Render(T, val, s))
    requires !BraceBeforeExpr(Tokenize(T, s))
    ensures Transform(T, val, s, po, ro) == Ok(Render(T, val, s))
  {
    var p := ProtFull(Tokenize(T, s));
    ProtFullBrace(Tokenize(T, s));
    PairNoNewBrace(p, '{', EscL);
    PairNoNewBrace(Pair(p, '{', EscL), '}', EscR);
    TransformMeaning(T, val, s, po, ro);
  }

  /**
   * A '{' right before a spelling makes the pipeline fail, whatever the values, when the text
   * mentions no token word. Restoration is read under the valuation that gives each expression
   * its own spelling, where the atoms stand for the text itself.
   */
  lemma TransformBraceFails(T: Table, val: Expr -> string, e: Expr, x: string, po: seq<Expr>, ro: seq<Expr>)
    requires WellFormed(T) && IsExprOrder(po) && IsExprOrder(ro)
    requires NoTokenWords(T, "{" + T.key(e) + x)
    ensures Transform(T, val, "{" + T.key(e) + x, po, ro) == Err(ParseError)
  {
    var s := "{" + T.key(e) + x;
    EscapedBraceHead(T, e, x);
    FrontHalf(T, T.key, s, po);
    RenderSpellings(T, s);
    MiddleHalf(T, val, T.key, Escaped(T, s), ro);
  }

  /** After protection and escaping, "{" and a spelling are a lone '{' before a placeholder. */
  lemma EscapedBraceHead(T: Table, e: Expr, x: string)
    requires KeysNonEmpty(T) && KeysShaped(T) && KeysDiffer(T)
    ensures BraceBeforeExpr(Escaped(T, "{" + T.key(e) + x))
  {
    BraceTokens(T, e, x);
    var p := ProtFull([Chr('{'), KeyA(e)] + Tokenize(T, x));
    ProtFullBraceHead(e, Tokenize(T, x));
    PairBraceHead(p, '{', EscL);
    PairBraceHead(Pair(p, '{', EscL), '}', EscR);
  }

  lemma ProtFullBraceHead(e: Expr, rest: seq<Atom>)
    ensures |ProtFull([Chr('{'), KeyA(e)] + rest)| >= 2
    ensures ProtFull([Chr('{'), KeyA(e)] + rest)[0] == Chr('{')
    ensures ProtFull([Chr('{'), KeyA(e)] + rest)[1] == PhA(e)
  {
    var xs := [Chr('{'), KeyA(e)] + rest;
    assert xs[1..] == [KeyA(e)] + rest;
    assert xs[1..][1..] == rest;
    ProtFullFacts(e => "", xs);
  }

  /** Pairing leaves a leading lone '{' before a placeholder in place. */
  lemma PairBraceHead(xs: seq<Atom>, ch: char, esc: Atom)
    requires |xs| >= 2 && xs[0] == Chr('{') && xs[1].PhA?
    ensures |Pair(xs, ch, esc)| >= 2 && Pair(xs, ch, esc)[..2] == xs[..2]
    ensures BraceBeforeExpr(Pair(xs, ch, esc))
  {
    var r := Pair(xs, ch, esc);
    assert r == [xs[0]] + Pair(xs[1..], ch, esc);
    PairHead(xs[1..], ch, esc);
  }

  /** The atoms of "{" followed by a spelling. */
  lemma BraceTokens(T: Table, e: Expr, x: string)
    requires KeysNonEmpty(T) && KeysShaped(T) && KeysDiffer(T)
    ensures Tokenize(T, "{" + T.key(e) + x) == [Chr('{'), KeyA(e)] + Tokenize(T, x)
  {
    BraceNoKey(T, e, x);
    TokenizeKey(T, e, x);
    TokenizeChrKey(T, '{', e, x);
  }

  lemma TokenizeChrKey(T: Table, c: char, e: Expr, x: string)
    requires KeysNonEmpty(T) && KeyAt(T, [c] + T.key(e) + x) == None
    requires Tokenize(T, T.key(e) + x) == [KeyA(e)] + Tokenize(T, x)
    ensures Tokenize(T, [c] + T.key(e) + x) == [Chr(c), KeyA(e)] + Tokenize(T, x)
  {
    var s := [c] + T.key(e) + x;
    TokenizeNoKey(T, s);
    DropHead(c, T.key(e), x);
    ConsTwo(Chr(c), KeyA(e), Tokenize(T, s), Tokenize(T, s[1..]), Tokenize(T, x));
  }

  /** Where no spelling starts, the scan emits a character atom and moves on. */
  lemma TokenizeNoKey(T: Table, s: string)
    requires KeysNonEmpty(T) && |s| > 0 && KeyAt(T, s) == None
    ensures Tokenize(T, s) == [Chr(s[0])] + Tokenize(T, s[1..])
  {
  }

  lemma DropHead(c: char, k: string, x: string)
    ensures ([c] + k + x)[0] == c && ([c] + k + x)[1..] == k + x
  {
  }

  /** Two atoms consed in turn onto a tail are the pair in front of it. */
  lemma ConsTwo(a: Atom, b: Atom, whole: seq<Atom>, afterHead: seq<Atom>, rest: seq<Atom>)
    requires whole == [a] + afterHead && afterHead == [b] + rest
    ensures whole == [a, b] + rest
  {
    assert [a] + ([b] + rest) == [a, b] + rest;
  }

  /** No spelling starts at a '{' followed by another spelling. */
  lemma BraceNoKey(T: Table, e: Expr, x: string)
    requires KeysShaped(T)
    ensures KeyAt(T, "{" + T.key(e) + x) == None
  {
    var s := "{" + T.key(e) + x;
    assert KeyShaped(T.key(e));
    assert s[2] == '{';
    forall e': Expr
      ensures !HasPrefix(s, T.key(e'))
    {
      assert KeyShaped(T.key(e'));
    }
  }

  lemma TokenizeKey(T: Table, e: Expr, x: string)
    requires KeysNonEmpty(T) && KeysDiffer(T)
    ensures Tokenize(T, T.key(e) + x) == [KeyA(e)] + Tokenize(T, x)
  {
    KeyAtSpelling(T, e, x);
    assert (T.key(e) + x)[|T.key(e)|..] == x;
  }

  /** Text without '{' holds no spelling. */
  lemma {:induction false} NoBraceTokens(T: Table, s: string)
    requires KeysNonEmpty(T) && KeysShaped(T) && '{' !in s
    ensures Tokenize(T, s) == Chars(s)
    decreases |s|
  {
    if |s| > 0 {
      NoBraceNoKey(T, s);
      NoBraceTail(s);
      NoBraceTokens(T, s[1..]);
    }
  }

  lemma NoBraceNoKey(T: Table, s: string)
    requires KeysShaped(T) && |s| > 0 && s[0] != '{'
    ensures KeyAt(T, s) == None
  {
    forall e: Expr
      ensures !HasPrefix(s, T.key(e))
    {
      assert KeyShaped(T.key(e));
    }
  }

  lemma NoBraceTail(s: string)
    requires |s| > 0 && '{' !in s
    ensures s[0] != '{' && '{' !in s[1..]
  {
    assert s[0] in s;
    assert forall i :: 0 <= i < |s[1..]| ==> s[1..][i] == s[i + 1];
  }

  lemma {:induction false} CharsNoBrace(s: string)
    requires '{' !in s
    ensures !BraceBeforeExpr(Chars(s))
    decreases |s|
  {
    if |s| > 0 {
      NoBraceTail(s);
      CharsNoBrace(s[1..]);
    }
  }

  /** Text without '{' that mentions no token word comes out of the pipeline unchanged. */
  lemma TransformPlainText(T: Table, val: Expr -> string, s: string, po: seq<Expr>, ro: seq<Expr>)
    requires WellFormed(T) && IsExprOrder(po) && IsExprOrder(ro)
    requires '{' !in s && NoTokenWords(T, s)
    ensures Transform(T, val, s, po, ro) == Ok(s)
  {
    NoBraceTokens(T, s);
    CharsNoBrace(s);
    CharsFacts(T, val, s);
    RenderIsOutput(T, val, s);
    TransformSucceeds(T, val, s, po, ro);
  }
}
