/**
 * A view of the text flowing through the pipeline as a sequence of atoms: ordinary
 * characters, the nine spellings, their placeholders and the two escape tokens. Each stage of
 * the pipeline is shown to turn the spelled-out text of one atom sequence into the
 * spelled-out text of another, while what the atoms finally stand for stays the same.
 */
module Atoms {
  import opened Wrappers
  import opened Text
  import opened Schema
  import opened Expressions

  datatype Atom = Chr(c: char) | KeyA(e: Expr) | PhA(e: Expr) | EscL | EscR

  /** The text an atom occupies in the intermediate string. */
  function Spelling(T: Table, a: Atom): string {
    match a
    case Chr(c) => [c]
    case KeyA(e) => T.key(e)
    case PhA(e) => T.placeholder(e)
    case EscL => T.leftEscape
    case EscR => T.rightEscape
  }

  function Flat(T: Table, xs: seq<Atom>): string {
    if |xs| == 0 then "" else Spelling(T, xs[0]) + Flat(T, xs[1..])
  }

  /** What an atom stands for in the generated file, given the value of each expression. */
  function Meaning(val: Expr -> string, a: Atom): string {
    match a
    case Chr(c) => [c]
    case KeyA(e) => val(e)
    case PhA(e) => val(e)
    case EscL => "{{"
    case EscR => "}}"
  }

  function Output(val: Expr -> string, xs: seq<Atom>): string {
    if |xs| == 0 then "" else Meaning(val, xs[0]) + Output(val, xs[1..])
  }

  predicate IsToken(a: Atom) {
    a.PhA? || a.EscL? || a.EscR?
  }

  lemma TokenShape(T: Table, a: Atom)
    requires WellFormed(T) && IsToken(a)
    ensures SentinelShape(Spelling(T, a))
    ensures '{' !in Spelling(T, a) && '}' !in Spelling(T, a)
  {
    SentinelChars(Spelling(T, a));
  }

  /**
   * The reference meaning of a templated file: each of the nine spellings, found from left to
   * right, becomes its value; every other character is kept as it is.
   */
  function Render(T: Table, val: Expr -> string, s: string): string
    requires KeysNonEmpty(T)
    decreases |s|
  {
    if |s| == 0 then ""
    else match KeyAt(T, s)
      case Some(e) => val(e) + Render(T, val, s[|T.key(e)|..])
      case None => [s[0]] + Render(T, val, s[1..])
  }

  /** The same left-to-right scan, producing atoms. */
  function Tokenize(T: Table, s: string): seq<Atom>
    requires KeysNonEmpty(T)
    decreases |s|
  {
    if |s| == 0 then []
    else match KeyAt(T, s)
      case Some(e) => [KeyA(e)] + Tokenize(T, s[|T.key(e)|..])
      case None => [Chr(s[0])] + Tokenize(T, s[1..])
  }

  /** Only characters and spellings, and no spelling starts at a character atom. */
  predicate Tokenized(T: Table, xs: seq<Atom>) {
    |xs| == 0 || (
    (match xs[0]
     case Chr(_) => KeyAt(T, Flat(T, xs)) == None
     case KeyA(_) => true
     case _ => false) && Tokenized(T, xs[1..]))
  }

  predicate NoKeyAtoms(xs: seq<Atom>) {
    forall i :: 0 <= i < |xs| ==> !xs[i].KeyA?
  }

  predicate NoPlaceholders(xs: seq<Atom>) {
    forall i :: 0 <= i < |xs| ==> !xs[i].PhA?
  }

  /** No two neighbouring atoms are both the character `ch`. */
  predicate NoAdjacent(xs: seq<Atom>, ch: char) {
    |xs| < 2 || (!(xs[0] == Chr(ch) && xs[1] == Chr(ch)) && NoAdjacent(xs[1..], ch))
  }

  /** Somewhere a lone '{' character stands right before one of the nine expressions. */
  predicate BraceBeforeExpr(xs: seq<Atom>) {
    |xs| >= 2 && ((xs[0] == Chr('{') && (xs[1].KeyA? || xs[1].PhA?)) || BraceBeforeExpr(xs[1..]))
  }

  /** Every atom is spelled with at least one character, and its first one leads the text. */
  lemma FlatHead(T: Table, xs: seq<Atom>)
    requires WellFormed(T) && |xs| > 0
    ensures |Spelling(T, xs[0])| > 0 && |Flat(T, xs)| > 0 && Flat(T, xs)[0] == Spelling(T, xs[0])[0]
    ensures Flat(T, xs) == Spelling(T, xs[0]) + Flat(T, xs[1..])
  {
  }

  lemma {:induction false} TokenizeFlat(T: Table, s: string)
    requires KeysNonEmpty(T)
    ensures Flat(T, Tokenize(T, s)) == s
    decreases |s|
  {
    if |s| > 0 {
      var xs := Tokenize(T, s);
      var n := if KeyAt(T, s).Some? then |T.key(KeyAt(T, s).value)| else 1;
      TokenizeFlat(T, s[n..]);
      assert xs[1..] == Tokenize(T, s[n..]);
      assert s == Spelling(T, xs[0]) + s[n..];
    }
  }

  lemma {:induction false} TokenizeSound(T: Table, s: string)
    requires WellFormed(T)
    ensures Flat(T, Tokenize(T, s)) == s
    ensures Tokenized(T, Tokenize(T, s))
    decreases |s|
  {
    TokenizeFlat(T, s);
    if |s| > 0 {
      var xs := Tokenize(T, s);
      var n := if KeyAt(T, s).Some? then |T.key(KeyAt(T, s).value)| else 1;
      TokenizeSound(T, s[n..]);
      assert xs[1..] == Tokenize(T, s[n..]);
    }
  }

  lemma {:induction false} RenderIsOutput(T: Table, val: Expr -> string, s: string)
    requires KeysNonEmpty(T)
    ensures Output(val, Tokenize(T, s)) == Render(T, val, s)
    decreases |s|
  {
    if |s| > 0 {
      match KeyAt(T, s)
      case Some(e) =>
        RenderIsOutput(T, val, s[|T.key(e)|..]);
        assert Tokenize(T, s)[1..] == Tokenize(T, s[|T.key(e)|..]);
      case None =>
        RenderIsOutput(T, val, s[1..]);
        assert Tokenize(T, s)[1..] == Tokenize(T, s[1..]);
    }
  }

  /** Each spelling standing for itself, the reference rendering gives the text back. */
  lemma {:induction false} RenderSpellings(T: Table, s: string)
    requires KeysNonEmpty(T)
    ensures Render(T, T.key, s) == s
    decreases |s|
  {
    if |s| > 0 {
      match KeyAt(T, s)
      case Some(e) =>
        RenderSpellings(T, s[|T.key(e)|..]);
        assert s == T.key(e) + s[|T.key(e)|..];
      case None =>
        RenderSpellings(T, s[1..]);
    }
  }
}
