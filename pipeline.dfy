/**
 * The text pipeline of a templated file, stage by stage as the generator writes it
 * (internal/generate/generator.go, processTemplatedFile): literal mappings, protection of the
 * nine expressions, escaping of every other brace pair, restoration, evaluation by the
 * template engine, and unescaping.
 *
 * Go ranges over the protection table (a map) in an unspecified order, once for protection
 * and once for restoration; each order is an input here.
 */
module Pipeline {
  import opened Wrappers
  import opened Text
  import opened Schema
  import opened Expressions

  /** An iteration order of the nine-entry protection table: every expression exactly once. */
  predicate IsExprOrder(o: seq<Expr>) {
    && (forall e: Expr :: e in o)
    && (forall i, j :: 0 <= i < j < |o| ==> o[i] != o[j])
  }

  /** In a sequence without repetitions the last element does not occur before it. */
  lemma LastFresh(o: seq<Expr>)
    requires |o| > 0 && forall i, j :: 0 <= i < j < |o| ==> o[i] != o[j]
    ensures o[|o| - 1] !in o[..|o| - 1]
    ensures o[..|o| - 1] + [o[|o| - 1]] == o
  {
    assert forall i :: 0 <= i < |o| - 1 ==> o[..|o| - 1][i] == o[i];
  }

  /** The mappings of a file, applied in their order, each to the result of the previous one. */
  function ApplyMappings(content: string, ms: seq<Mapping>): string
    decreases |ms|
  {
    if |ms| == 0 then content
    else
      var last := ms[|ms| - 1];
      ReplaceAll(ApplyMappings(content, ms[..|ms| - 1]), last.find, last.replace)
  }

  /** Every spelling in `o` replaced by its placeholder, one expression after the other. */
  function Protect(T: Table, s: string, o: seq<Expr>): string
    decreases |o|
  {
    if |o| == 0 then s
    else
      var e := o[|o| - 1];
      ReplaceAll(Protect(T, s, o[..|o| - 1]), T.key(e), T.placeholder(e))
  }

  /** Every placeholder in `o` turned back into its spelling, one expression after the other. */
  function Restore(T: Table, s: string, o: seq<Expr>): string
    decreases |o|
  {
    if |o| == 0 then s
    else
      var e := o[|o| - 1];
      ReplaceAll(Restore(T, s, o[..|o| - 1]), T.placeholder(e), T.key(e))
  }

  /** Every remaining "{{" and then every "}}" replaced by its escape token. */
  function EscapeBraces(T: Table, s: string): string {
    ReplaceAll(ReplaceAll(s, "{{", T.leftEscape), "}}", T.rightEscape)
  }

  /** The escape tokens turned back into brace pairs, left token first. */
  function UnescapeBraces(T: Table, s: string): string {
    ReplaceAll(ReplaceAll(s, T.leftEscape, "{{"), T.rightEscape, "}}")
  }

  /** The template engine's parse failure, the only failure evaluation can report here. */
  datatype EvalError = ParseError

  function Prepend(p: string, r: Result<string, EvalError>): Result<string, EvalError> {
    match r
    case Ok(t) => Ok(p + t)
    case Err(x) => Err(x)
  }

  /**
   * The template engine on the text that reaches it: an action opened by "{{" must be one of
   * the nine spellings and is replaced by its value; any other action is a parse error; all
   * other text is copied. A "}}" outside an action is ordinary text. `val` gives the value
   * of each of the nine actions (Valuation).
   */
  function Evaluate(T: Table, val: Expr -> string, s: string): Result<string, EvalError>
    requires KeysNonEmpty(T)
    decreases |s|
  {
    if |s| == 0 then Ok("")
    else if HasPrefix(s, "{{") then
      match KeyAt(T, s)
      case None => Err(ParseError)
      case Some(e) => Prepend(val(e), Evaluate(T, val, s[|T.key(e)|..]))
    else Prepend([s[0]], Evaluate(T, val, s[1..]))
  }

  /**
   * Protection, escaping, restoration, evaluation and unescaping of the mapped text `s`, with
   * the protection table visited in order `po` and then in order `ro`.
   */
  function Transform(T: Table, val: Expr -> string, s: string, po: seq<Expr>, ro: seq<Expr>): Result<string, EvalError>
    requires KeysNonEmpty(T)
  {
    var prepared := Restore(T, EscapeBraces(T, Protect(T, s, po)), ro);
    match Evaluate(T, val, prepared)
    case Ok(out) => Ok(UnescapeBraces(T, out))
    case Err(x) => Err(x)
  }

  /** The whole pipeline on the (already decompressed) content of one templated file. */
  function ProcessTemplate(
    vars: TemplateVariables, content: string, ms: seq<Mapping>, protectOrder: seq<Expr>, restoreOrder: seq<Expr>
  ): Result<string, EvalError> {
    ReplacementsWellFormed();
    Transform(Replacements, Valuation(vars), ApplyMappings(content, ms), protectOrder, restoreOrder)
  }
}
