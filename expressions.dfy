/**
 * The nine substitution expressions the generator evaluates, the placeholder tokens that
 * protect them while the rest of a file is escaped, the escape tokens, and the case helpers
 * registered with the template engine (internal/generate/generator.go).
 */
module Expressions {
  import opened Text
  import opened Schema
  import opened Wrappers

  /** The nine expressions of the generator's protection table. */
  datatype Expr =
    | ProjectName | GitHubRepo | Author | Description
    | KebabName | SnakeName | UpperName | LowerName | TitleName

  const AllExprs: seq<Expr> :=
    [ProjectName, GitHubRepo, Author, Description, KebabName, SnakeName, UpperName, LowerName, TitleName]

  /** The exact spelling that is recognised; any other spacing is ordinary text. */
  function Key(e: Expr): string {
    match e
    case ProjectName => "{{.ProjectName}}"
    case GitHubRepo => "{{.GitHubRepo}}"
    case Author => "{{.Author}}"
    case Description => "{{.Description}}"
    case KebabName => "{{.ProjectName | kebab}}"
    case SnakeName => "{{.ProjectName | snake}}"
    case UpperName => "{{.ProjectName | upper}}"
    case LowerName => "{{.ProjectName | lower}}"
    case TitleName => "{{.ProjectName | title}}"
  }

  function Placeholder(e: Expr): string {
    match e
    case ProjectName => "__PROJECT_NAME_PLACEHOLDER__"
    case GitHubRepo => "__GITHUB_REPO_PLACEHOLDER__"
    case Author => "__AUTHOR_PLACEHOLDER__"
    case Description => "__DESCRIPTION_PLACEHOLDER__"
    case KebabName => "__PROJECT_NAME_KEBAB_PLACEHOLDER__"
    case SnakeName => "__PROJECT_NAME_SNAKE_PLACEHOLDER__"
    case UpperName => "__PROJECT_NAME_UPPER_PLACEHOLDER__"
    case LowerName => "__PROJECT_NAME_LOWER_PLACEHOLDER__"
    case TitleName => "__PROJECT_NAME_TITLE_PLACEHOLDER__"
  }

  const LeftEscape: string := "__ESCAPED_LEFT_BRACE__"
  const RightEscape: string := "__ESCAPED_RIGHT_BRACE__"

  /** The `kebab` helper: spaces become '-', then lower case. */
  function Kebab(s: string): string {
    ToLower(ReplaceAll(s, " ", "-"))
  }

  /** The `snake` helper: spaces become '_', then lower case. */
  function Snake(s: string): string {
    ToLower(ReplaceAll(s, " ", "_"))
  }

  /** The `title` helper: only the first character is upper-cased. */
  function Title(s: string): string {
    if s == "" then s else [UpperChar(s[0])] + s[1..]
  }

  /** What each expression evaluates to for the bound variables. */
  function Value(vars: TemplateVariables, e: Expr): string {
    match e
    case ProjectName => vars.projectName
    case GitHubRepo => vars.gitHubRepo
    case Author => vars.author
    case Description => vars.description
    case KebabName => Kebab(vars.projectName)
    case SnakeName => Snake(vars.projectName)
    case UpperName => ToUpper(vars.projectName)
    case LowerName => ToLower(vars.projectName)
    case TitleName => Title(vars.projectName)
  }

  /** The values of the nine expressions, as the template engine computes them for `vars`. */
  function Valuation(vars: TemplateVariables): Expr -> string {
    e => Value(vars, e)
  }

  /**
   * The protection table: the spelling of each expression with its placeholder, and the two
   * escape tokens. The generator uses the fixed table Replacements; the proofs about the
   * pipeline hold for every table of the same shape (WellFormed).
   */
  datatype Table = Table(
    key: Expr -> string, placeholder: Expr -> string, leftEscape: string, rightEscape: string)

  const Replacements: Table := Table(Key, Placeholder, LeftEscape, RightEscape)

  /** The expression whose spelling begins `s`, if any (at most one can, see WellFormed). */
  function KeyAt(T: Table, s: string): (r: Option<Expr>)
    ensures r.Some? ==> HasPrefix(s, T.key(r.value))
    ensures r.None? ==> forall e :: !HasPrefix(s, T.key(e))
  {
    if HasPrefix(s, T.key(ProjectName)) then Some(ProjectName)
    else if HasPrefix(s, T.key(GitHubRepo)) then Some(GitHubRepo)
    else if HasPrefix(s, T.key(Author)) then Some(Author)
    else if HasPrefix(s, T.key(Description)) then Some(Description)
    else if HasPrefix(s, T.key(KebabName)) then Some(KebabName)
    else if HasPrefix(s, T.key(SnakeName)) then Some(SnakeName)
    else if HasPrefix(s, T.key(UpperName)) then Some(UpperName)
    else if HasPrefix(s, T.key(LowerName)) then Some(LowerName)
    else if HasPrefix(s, T.key(TitleName)) then Some(TitleName)
    else
      NoKeyFound(T, s);
      None
  }

  lemma NoKeyFound(T: Table, s: string)
    requires !HasPrefix(s, T.key(ProjectName)) && !HasPrefix(s, T.key(GitHubRepo))
    requires !HasPrefix(s, T.key(Author)) && !HasPrefix(s, T.key(Description))
    requires !HasPrefix(s, T.key(KebabName)) && !HasPrefix(s, T.key(SnakeName))
    requires !HasPrefix(s, T.key(UpperName)) && !HasPrefix(s, T.key(LowerName))
    requires !HasPrefix(s, T.key(TitleName))
    ensures forall e :: !HasPrefix(s, T.key(e))
  {
    forall e
      ensures !HasPrefix(s, T.key(e))
    {
      match e
      case ProjectName =>
      case GitHubRepo =>
      case Author =>
      case Description =>
      case KebabName =>
      case SnakeName =>
      case UpperName =>
      case LowerName =>
      case TitleName =>
    }
  }

  /** A spelling is "{{." followed by text without '{', and holds no underscore. */
  ghost predicate KeyShaped(k: string) {
    && |k| >= 3 && k[0] == '{' && k[1] == '{' && k[2] == '.'
    && (forall i :: 2 <= i < |k| ==> k[i] != '{')
    && '_' !in k
  }

  /** Neither string is a prefix of the other. */
  ghost predicate Differ(a: string, b: string) {
    exists i :: 0 <= i < |a| && i < |b| && a[i] != b[i]
  }

  /** Every spelling is at least one character long, so a scan past one makes progress. */
  ghost predicate KeysNonEmpty(T: Table) {
    forall e :: |T.key(e)| > 0
  }

  ghost predicate KeysShaped(T: Table) {
    forall e :: KeyShaped(T.key(e))
  }

  /** No spelling is a prefix of another. */
  ghost predicate KeysDiffer(T: Table) {
    forall e1, e2 :: e1 != e2 ==> Differ(T.key(e1), T.key(e2))
  }

  /** The nine placeholders and the two escape tokens are eleven different sentinels. */
  ghost predicate TokensDistinct(T: Table) {
    && (forall e :: SentinelShape(T.placeholder(e)))
    && (forall e :: T.placeholder(e) != T.leftEscape && T.placeholder(e) != T.rightEscape)
    && (forall e1, e2 :: e1 != e2 ==> T.placeholder(e1) != T.placeholder(e2))
    && SentinelShape(T.leftEscape) && SentinelShape(T.rightEscape) && T.leftEscape != T.rightEscape
  }

  /**
   * What the pipeline relies on: spellings of the expected form that are not prefixes of each
   * other, and eleven different tokens of the sentinel shape.
   */
  ghost predicate WellFormed(T: Table) {
    KeysNonEmpty(T) && KeysShaped(T) && KeysDiffer(T) && TokensDistinct(T)
  }

  /** The generator's table has that shape. */
  lemma ReplacementsWellFormed()
    ensures WellFormed(Replacements)
  {
    var T := Replacements;
    forall e
      ensures KeyShaped(T.key(e))
    {
      KeyShape(e);
    }
    forall e
      ensures SentinelShape(T.placeholder(e))
    {
      PlaceholderShape(e);
    }
    forall e
      ensures T.placeholder(e) != T.leftEscape && T.placeholder(e) != T.rightEscape
    {
      PlaceholderNotEscape(e);
    }
    forall e1, e2 | e1 != e2
      ensures Differ(T.key(e1), T.key(e2))
    {
      var i := KeyDiffer(e1, e2);
    }
    forall e1, e2 | e1 != e2
      ensures T.placeholder(e1) != T.placeholder(e2)
    {
      PlaceholdersDistinct(e1, e2);
    }
    EscapeShape();
    EscapesDistinct();
  }

  // ----- shape facts about the fixed strings -----

  /** Every spelling is "{{." followed by text without '{', and none has an underscore. */
  lemma KeyShape(e: Expr)
    ensures KeyShaped(Key(e))
  {
    match e
    case ProjectName => ProjectNameKeyShape();
    case GitHubRepo => GitHubRepoKeyShape();
    case Author => AuthorKeyShape();
    case Description => DescriptionKeyShape();
    case KebabName => KebabNameKeyShape();
    case SnakeName => SnakeNameKeyShape();
    case UpperName => UpperNameKeyShape();
    case LowerName => LowerNameKeyShape();
    case TitleName => TitleNameKeyShape();
  }

  lemma ProjectNameKeyShape()
    ensures KeyShaped(Key(ProjectName))
  {
    LiteralKey(Key(ProjectName));
  }

  lemma GitHubRepoKeyShape()
    ensures KeyShaped(Key(GitHubRepo))
  {
    LiteralKey(Key(GitHubRepo));
  }

  lemma AuthorKeyShape()
    ensures KeyShaped(Key(Author))
  {
    LiteralKey(Key(Author));
  }

  lemma DescriptionKeyShape()
    ensures KeyShaped(Key(Description))
  {
    LiteralKey(Key(Description));
  }

  lemma KebabNameKeyShape()
    ensures KeyShaped(Key(KebabName))
  {
    LiteralKey(Key(KebabName));
  }

  lemma SnakeNameKeyShape()
    ensures KeyShaped(Key(SnakeName))
  {
    LiteralKey(Key(SnakeName));
  }

  lemma UpperNameKeyShape()
    ensures KeyShaped(Key(UpperName))
  {
    LiteralKey(Key(UpperName));
  }

  lemma LowerNameKeyShape()
    ensures KeyShaped(Key(LowerName))
  {
    LiteralKey(Key(LowerName));
  }

  lemma TitleNameKeyShape()
    ensures KeyShaped(Key(TitleName))
  {
    LiteralKey(Key(TitleName));
  }

  lemma LiteralKey(k: string)
    requires |k| >= 3 && k[0] == '{' && k[1] == '{' && k[2] == '.'
    requires forall i :: 2 <= i < |k| ==> k[i] != '{'
    requires forall i :: 0 <= i < |k| ==> k[i] != '_'
    ensures KeyShaped(k)
  {
  }

  /** Whether the spelling applies a helper to the project name. */
  predicate Piped(e: Expr) {
    e.KebabName? || e.SnakeName? || e.UpperName? || e.LowerName? || e.TitleName?
  }

  /** The character after "{{.", the character at index 14 and the helper's initial. */
  lemma KeySignature(e: Expr)
    ensures |Key(e)| >= 11 && Key(e)[3] == (match e
      case GitHubRepo => 'G' case Author => 'A' case Description => 'D' case _ => 'P')
    ensures e.ProjectName? || Piped(e) ==> |Key(e)| >= 16 && Key(e)[14] == (if Piped(e) then ' ' else '}')
    ensures Piped(e) ==> |Key(e)| >= 18 && Key(e)[17] == (match e
      case KebabName => 'k' case SnakeName => 's' case UpperName => 'u' case LowerName => 'l' case _ => 't')
  {
  }

  /** A position before the end of both spellings where they differ. */
  lemma KeyDiffer(e1: Expr, e2: Expr) returns (i: nat)
    requires e1 != e2
    ensures i < |Key(e1)| && i < |Key(e2)| && Key(e1)[i] != Key(e2)[i]
  {
    KeySignature(e1);
    KeySignature(e2);
    var p1 := e1.ProjectName? || Piped(e1);
    var p2 := e2.ProjectName? || Piped(e2);
    i := if !p1 || !p2 then 3 else if Piped(e1) && Piped(e2) then 17 else 14;
  }

  /**
   * The shape shared by the placeholders and the escape tokens: "__" + W + "__" where W is
   * made of upper-case letters and single underscores, starts and ends with a letter and
   * contains at least one underscore.
   */
  predicate SentinelShape(t: string) {
    && |t| >= 7
    && t[0] == '_' && t[1] == '_' && t[|t| - 2] == '_' && t[|t| - 1] == '_'
    && (forall i :: 2 <= i < |t| - 2 ==> ('A' <= t[i] <= 'Z') || t[i] == '_')
    && t[2] != '_' && t[|t| - 3] != '_'
    && (forall i :: 2 <= i < |t| - 3 ==> !(t[i] == '_' && t[i + 1] == '_'))
    && '_' in t[2..|t| - 2]
  }

  /** A token is made of letters and underscores only. */
  lemma SentinelChars(t: string)
    requires SentinelShape(t)
    ensures forall i :: 0 <= i < |t| ==> t[i] == '_' || 'A' <= t[i] <= 'Z'
    ensures '{' !in t && '}' !in t && '.' !in t
  {
    assert forall i :: 0 <= i < |t| ==> t[i] == '_' || 'A' <= t[i] <= 'Z' by {
      forall i | 0 <= i < |t|
        ensures t[i] == '_' || 'A' <= t[i] <= 'Z'
      {
        if 2 <= i < |t| - 2 {
        }
      }
    }
  }

  lemma PlaceholderShape(e: Expr)
    ensures SentinelShape(Placeholder(e))
  {
    match e
    case ProjectName => ProjectNameShape();
    case GitHubRepo => GitHubRepoShape();
    case Author => AuthorShape();
    case Description => DescriptionShape();
    case KebabName => KebabNameShape();
    case SnakeName => SnakeNameShape();
    case UpperName => UpperNameShape();
    case LowerName => LowerNameShape();
    case TitleName => TitleNameShape();
  }

  lemma EscapeShape()
    ensures SentinelShape(LeftEscape) && SentinelShape(RightEscape)
  {
    LeftEscapeShape();
    RightEscapeShape();
  }

  lemma LeftEscapeShape()
    ensures SentinelShape(LeftEscape)
  {
    LiteralShape(LeftEscape, 9);
  }

  lemma RightEscapeShape()
    ensures SentinelShape(RightEscape)
  {
    LiteralShape(RightEscape, 9);
  }

  lemma ProjectNameShape()
    ensures SentinelShape(Placeholder(ProjectName))
  {
    LiteralShape(Placeholder(ProjectName), 9);
  }

  lemma GitHubRepoShape()
    ensures SentinelShape(Placeholder(GitHubRepo))
  {
    LiteralShape(Placeholder(GitHubRepo), 8);
  }

  lemma AuthorShape()
    ensures SentinelShape(Placeholder(Author))
  {
    LiteralShape(Placeholder(Author), 8);
  }

  lemma DescriptionShape()
    ensures SentinelShape(Placeholder(Description))
  {
    LiteralShape(Placeholder(Description), 13);
  }

  lemma KebabNameShape()
    ensures SentinelShape(Placeholder(KebabName))
  {
    LiteralShape(Placeholder(KebabName), 9);
  }

  lemma SnakeNameShape()
    ensures SentinelShape(Placeholder(SnakeName))
  {
    LiteralShape(Placeholder(SnakeName), 9);
  }

  lemma UpperNameShape()
    ensures SentinelShape(Placeholder(UpperName))
  {
    LiteralShape(Placeholder(UpperName), 9);
  }

  lemma LowerNameShape()
    ensures SentinelShape(Placeholder(LowerName))
  {
    LiteralShape(Placeholder(LowerName), 9);
  }

  lemma TitleNameShape()
    ensures SentinelShape(Placeholder(TitleName))
  {
    LiteralShape(Placeholder(TitleName), 9);
  }

  /** The shape of one fixed token, given the position of an inner underscore. */
  lemma LiteralShape(t: string, m: nat)
    requires |t| >= 7 && 2 < m < |t| - 3 && t[m] == '_'
    requires t[0] == '_' && t[1] == '_' && t[|t| - 2] == '_' && t[|t| - 1] == '_'
    requires forall i :: 2 <= i < |t| - 2 ==> ('A' <= t[i] <= 'Z') || t[i] == '_'
    requires t[2] != '_' && t[|t| - 3] != '_'
    requires forall i :: 2 <= i < |t| - 3 ==> !(t[i] == '_' && t[i + 1] == '_')
    ensures SentinelShape(t)
  {
    assert t[2..|t| - 2][m - 2] == t[m];
  }

  /** Different expressions have different placeholders. */
  lemma PlaceholdersDistinct(e1: Expr, e2: Expr)
    requires e1 != e2
    ensures Placeholder(e1) != Placeholder(e2)
  {
    var i := PlaceholderDiffer(e1, e2);
  }

  /** No placeholder is one of the escape tokens: they differ after the "__". */
  lemma PlaceholderNotEscape(e: Expr)
    ensures Placeholder(e) != LeftEscape && Placeholder(e) != RightEscape
  {
    PlaceholderSignature(e);
    assert LeftEscape[2] == 'E' && RightEscape[2] == 'E';
  }

  lemma EscapesDistinct()
    ensures LeftEscape != RightEscape
  {
    assert LeftEscape[10] != RightEscape[10];
  }

  /** The character after "__" and the one at index 15. */
  lemma PlaceholderSignature(e: Expr)
    ensures |Placeholder(e)| >= 16
    ensures Placeholder(e)[2] == (match e
      case GitHubRepo => 'G' case Author => 'A' case Description => 'D' case _ => 'P')
    ensures Placeholder(e)[15] == (match e
      case ProjectName => 'P' case KebabName => 'K' case SnakeName => 'S' case UpperName => 'U'
      case LowerName => 'L' case TitleName => 'T' case GitHubRepo => 'L' case Author => 'O'
      case Description => 'L')
  {
  }

  lemma PlaceholderDiffer(e1: Expr, e2: Expr) returns (i: nat)
    requires e1 != e2
    ensures i < |Placeholder(e1)| && i < |Placeholder(e2)| && Placeholder(e1)[i] != Placeholder(e2)[i]
  {
    PlaceholderSignature(e1);
    PlaceholderSignature(e2);
    i := if Placeholder(e1)[2] != Placeholder(e2)[2] then 2 else 15;
  }
}
