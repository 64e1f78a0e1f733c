/**
 * The generator of internal/generate/generator.go: the variables bound at construction, the
 * per-file processing (decompress, then the templating pipeline or a plain copy), and Generate,
 * which validates and then writes the files in schema order until the first failure.
 *
 * The output directory is the map `output` from relative path to written content. Whether a
 * directory or file can be created is an input (FileSystem); so are the iteration orders of
 * the protection table, one pair per file, since every call ranges over a fresh Go map.
 */
module Generation {
  import opened Wrappers
  import opened Text
  import opened Schema
  import opened Codec
  import opened Expressions
  import opened Atoms
  import opened Pipeline
  import opened PipelineTheorem
  import opened Sentinels
  import Validation

  const DefaultAuthor: string := "Developer"

  /** NewGenerator's variables: the two given values, a fixed author and a derived description. */
  function DefaultVariables(projectName: string, gitHubRepo: string): (v: TemplateVariables)
    ensures v.projectName == projectName && v.gitHubRepo == gitHubRepo
    ensures v.author == DefaultAuthor
    ensures v.description == "A " + projectName + " application"
  {
    TemplateVariables(projectName, gitHubRepo, DefaultAuthor, "A " + projectName + " application")
  }

  /** The iteration orders of the protection table in one call: protection, then restoration. */
  datatype TableOrders = TableOrders(protect: seq<Expr>, restore: seq<Expr>)

  /** Which directories (for a file's parent) and which files can be created. */
  datatype FileSystem = FileSystem(dirOk: string -> bool, writeOk: string -> bool)

  datatype FileError = DirFailed | DecompressFailed(decodeError: DecodeError) | TemplateFailed(evalError: EvalError) | WriteFailed

  datatype GenerateError =
    | InvalidSchema(schemaError: Validation.SchemaError)
    | InvalidVariables(variableError: Validation.VariableError)
    | OutputDirFailed
    | FileFailed(path: string, cause: FileError)

  // ----- one file -----

  /** The text written for a file: its decompressed content, run through the pipeline if templated. */
  function FileContent(lib: Lib, vars: TemplateVariables, f: FileSpec, o: TableOrders): Result<string, FileError> {
    match DecompressContent(lib, f.content, f.compressed)
    case Err(e) => Err(DecompressFailed(e))
    case Ok(c) =>
      if !f.template then Ok(c)
      else match ProcessTemplate(vars, c, f.mappings, o.protect, o.restore)
        case Err(e) => Err(TemplateFailed(e))
        case Ok(t) => Ok(t)
  }

  /** processFile: the parent directory, then the content, then the write. */
  function FileOutcome(lib: Lib, vars: TemplateVariables, f: FileSpec, o: TableOrders, fs: FileSystem): Result<string, FileError> {
    if !fs.dirOk(f.path) then Err(DirFailed)
    else match FileContent(lib, vars, f, o)
      case Err(e) => Err(e)
      case Ok(c) => if fs.writeOk(f.path) then Ok(c) else Err(WriteFailed)
  }

  /** The mapping loop of processTemplatedFile: each mapping's ReplaceAll, in order. */
  method MapContent(content: string, ms: seq<Mapping>) returns (text: string)
    ensures text == ApplyMappings(content, ms)
  {
    text := content;
    var i := 0;
    while i < |ms|
      invariant 0 <= i <= |ms|
      invariant text == ApplyMappings(content, ms[..i])
    {
      assert ms[..i + 1][..i] == ms[..i];
      text := ReplaceAll(text, ms[i].find, ms[i].replace);
      i := i + 1;
    }
    assert ms[..i] == ms;
  }

  /** The protection loop: each spelling replaced by its placeholder, in the order `o`. */
  method ProtectLoop(T: Table, mapped: string, o: seq<Expr>) returns (text: string)
    ensures text == Protect(T, mapped, o)
  {
    text := mapped;
    var i := 0;
    while i < |o|
      invariant 0 <= i <= |o|
      invariant text == Protect(T, mapped, o[..i])
    {
      assert o[..i + 1][..i] == o[..i];
      text := ReplaceAll(text, T.key(o[i]), T.placeholder(o[i]));
      i := i + 1;
    }
    assert o[..i] == o;
  }

  /** The restoration loop: each placeholder turned back into its spelling, in the order `o`. */
  method RestoreLoop(T: Table, escaped: string, o: seq<Expr>) returns (text: string)
    ensures text == Restore(T, escaped, o)
  {
    text := escaped;
    var i := 0;
    while i < |o|
      invariant 0 <= i <= |o|
      invariant text == Restore(T, escaped, o[..i])
    {
      assert o[..i + 1][..i] == o[..i];
      text := ReplaceAll(text, T.placeholder(o[i]), T.key(o[i]));
      i := i + 1;
    }
    assert o[..i] == o;
  }

  /**
   * processTemplatedFile from the decompressed content on: the mapping loop, the protection
   * loop, the two escapes, the restoration loop, evaluation and the two unescapes.
   */
  method RenderTemplate(vars: TemplateVariables, content: string, ms: seq<Mapping>, o: TableOrders)
    returns (r: Result<string, EvalError>)
    ensures r == ProcessTemplate(vars, content, ms, o.protect, o.restore)
  {
    var T := Replacements;
    var mapped := MapContent(content, ms);
    var text := ProtectLoop(T, mapped, o.protect);
    text := ReplaceAll(text, "{{", T.leftEscape);
    text := ReplaceAll(text, "}}", T.rightEscape);
    text := RestoreLoop(T, text, o.restore);
    ReplacementsWellFormed();
    var evaluated := Evaluate(T, Valuation(vars), text);
    if evaluated.Err? {
      return Err(evaluated.error);
    }
    var result := evaluated.value;
    result := ReplaceAll(result, T.leftEscape, "{{");
    result := ReplaceAll(result, T.rightEscape, "}}");
    return Ok(result);
  }

  // ----- the whole run -----

  /** What Generate uses besides the schema: the codecs, the variables, the orders and the disk. */
  datatype Context = Context(lib: Lib, vars: TemplateVariables, orders: nat -> TableOrders, fs: FileSystem)

  /** How a run ends, and the output tree it leaves. */
  datatype Run = Run(outcome: Outcome<GenerateError>, written: map<string, string>)

  /** The outcome of the j-th file of a run, as the loop body computes it. */
  function Stepper(ctx: Context): (nat, FileSpec) -> Result<string, FileError> {
    (j: nat, f: FileSpec) => FileOutcome(ctx.lib, ctx.vars, f, ctx.orders(j), ctx.fs)
  }

  /**
   * The file loop over the first n files, starting from the tree `out`, with `step` giving the
   * outcome of each file: the first failure stops it.
   */
  function ProcessFiles(step: (nat, FileSpec) -> Result<string, FileError>, files: seq<FileSpec>, n: nat, out: map<string, string>): Run
    requires n <= |files|
    decreases n
  {
    if n == 0 then Run(Pass, out)
    else
      var prev := ProcessFiles(step, files, n - 1, out);
      if prev.outcome.Fail? then prev
      else match step(n - 1, files[n - 1])
        case Err(e) => Run(Fail(FileFailed(files[n - 1].path, e)), prev.written)
        case Ok(c) => Run(Pass, prev.written[files[n - 1].path := c])
  }

  /** The checks Generate makes before writing: schema, then variables, then the output directory. */
  function PreCheck(lib: Lib, s: TemplateSchema, vars: TemplateVariables, varOrder: seq<string>, outputDirOk: bool): Option<GenerateError>
    requires s.variables.Some? ==> IsKeyOrder(varOrder, s.variables.value)
  {
    match Validation.ValidateSchema(lib, s, varOrder)
    case Some(e) => Some(InvalidSchema(e))
    case None =>
      match Validation.ValidateVariables(s, vars, varOrder)
      case Some(e) => Some(InvalidVariables(e))
      case None => if outputDirOk then None else Some(OutputDirFailed)
  }

  /** Generate: the checks, then the file loop. */
  function GenerateSpec(ctx: Context, s: TemplateSchema, varOrder: seq<string>, outputDirOk: bool, out: map<string, string>): Run
    requires s.variables.Some? ==> IsKeyOrder(varOrder, s.variables.value)
  {
    match PreCheck(ctx.lib, s, ctx.vars, varOrder, outputDirOk)
    case Some(e) => Run(Fail(e), out)
    case None => ProcessFiles(Stepper(ctx), s.files, |s.files|, out)
  }

  class Generator {
    var schema: TemplateSchema
    var variables: TemplateVariables
    var outputDir: string
    /** The files under outputDir, by path relative to it. */
    var output: map<string, string>

    /** NewGenerator, from the already parsed schema; nothing is written yet. */
    constructor (schema: TemplateSchema, outputDir: string, projectName: string, gitHubRepo: string)
      ensures this.schema == schema && this.outputDir == outputDir
      ensures variables == DefaultVariables(projectName, gitHubRepo)
      ensures output == map[]
    {
      this.schema := schema;
      this.outputDir := outputDir;
      variables := DefaultVariables(projectName, gitHubRepo);
      output := map[];
    }

    /** processFile: writes the file's content on success, and nothing on failure. */
    method ProcessFile(lib: Lib, f: FileSpec, j: nat, orders: nat -> TableOrders, fs: FileSystem) returns (err: Option<FileError>)
      modifies this
      ensures schema == old(schema) && variables == old(variables) && outputDir == old(outputDir)
      ensures var res := Stepper(Context(lib, variables, orders, fs))(j, f);
        && (res.Ok? ==> err == None && output == old(output)[f.path := res.value])
        && (res.Err? ==> err == Some(res.error) && output == old(output))
    {
      assert Stepper(Context(lib, variables, orders, fs))(j, f) == FileOutcome(lib, variables, f, orders(j), fs);
      if !fs.dirOk(f.path) {
        return Some(DirFailed);
      }
      var decoded := DecompressContent(lib, f.content, f.compressed);
      if decoded.Err? {
        return Some(DecompressFailed(decoded.error));
      }
      var content := decoded.value;
      if f.template {
        var rendered := RenderTemplate(variables, content, f.mappings, orders(j));
        if rendered.Err? {
          return Some(TemplateFailed(rendered.error));
        }
        content := rendered.value;
      }
      if !fs.writeOk(f.path) {
        return Some(WriteFailed);
      }
      output := output[f.path := content];
      return None;
    }

    /** The loop of Generate: the files in schema order, stopping at the first failure. */
    method ProcessAll(lib: Lib, orders: nat -> TableOrders, fs: FileSystem) returns (r: Outcome<GenerateError>)
      modifies this
      ensures schema == old(schema) && variables == old(variables) && outputDir == old(outputDir)
      ensures Run(r, output) == ProcessFiles(Stepper(Context(lib, variables, orders, fs)), schema.files, |schema.files|, old(output))
    {
      ghost var step := Stepper(Context(lib, variables, orders, fs));
      var files := schema.files;
      var i := 0;
      while i < |files|
        invariant 0 <= i <= |files|
        invariant schema == old(schema) && variables == old(variables) && outputDir == old(outputDir)
        invariant ProcessFiles(step, files, i, old(output)) == Run(Pass, output)
      {
        var err := ProcessFile(lib, files[i], i, orders, fs);
        if err.Some? {
          FailureIsFinal(step, files, i + 1, |files|, old(output));
          return Fail(FileFailed(files[i].path, err.value));
        }
        i := i + 1;
      }
      return Pass;
    }

    /** Generate: validate, create the output directory, then process the files in order. */
    method Generate(lib: Lib, varOrder: seq<string>, orders: nat -> TableOrders, fs: FileSystem, outputDirOk: bool)
      returns (r: Outcome<GenerateError>)
      requires schema.variables.Some? ==> IsKeyOrder(varOrder, schema.variables.value)
      modifies this
      ensures schema == old(schema) && variables == old(variables) && outputDir == old(outputDir)
      ensures Run(r, output) == GenerateSpec(Context(lib, variables, orders, fs), schema, varOrder, outputDirOk, old(output))
    {
      var checkError := PreCheck(lib, schema, variables, varOrder, outputDirOk);
      if checkError.Some? {
        return Fail(checkError.value);
      }
      r := ProcessAll(lib, orders, fs);
    }
  }

  // ----- properties of a run -----

  /** Once a file fails, no later file is processed: the run ends as it was. */
  lemma {:induction false} FailureIsFinal(step: (nat, FileSpec) -> Result<string, FileError>, files: seq<FileSpec>, m: nat, n: nat, out: map<string, string>)
    requires m <= n <= |files|
    requires ProcessFiles(step, files, m, out).outcome.Fail?
    ensures ProcessFiles(step, files, n, out) == ProcessFiles(step, files, m, out)
    decreases n
  {
    if n > m {
      FailureIsFinal(step, files, m, n - 1, out);
    }
  }

  /**
   * The first failing file ends the run with its error; the files before it stay written and
   * the files after it are never touched.
   */
  lemma FirstFailureStops(step: (nat, FileSpec) -> Result<string, FileError>, files: seq<FileSpec>, k: nat, out: map<string, string>)
    requires k < |files|
    requires ProcessFiles(step, files, k, out).outcome.Pass?
    requires step(k, files[k]).Err?
    ensures ProcessFiles(step, files, |files|, out)
         == Run(Fail(FileFailed(files[k].path, step(k, files[k]).error)), ProcessFiles(step, files, k, out).written)
  {
    FailureIsFinal(step, files, k + 1, |files|, out);
  }

  /** The loop passes exactly when every file succeeds. */
  lemma {:induction false} PassIffAllSucceed(step: (nat, FileSpec) -> Result<string, FileError>, files: seq<FileSpec>, n: nat, out: map<string, string>)
    requires n <= |files|
    ensures ProcessFiles(step, files, n, out).outcome.Pass? <==> forall j :: 0 <= j < n ==> step(j, files[j]).Ok?
    decreases n
  {
    if n > 0 {
      PassIffAllSucceed(step, files, n - 1, out);
      if ProcessFiles(step, files, n - 1, out).outcome.Fail? {
        FailureIsFinal(step, files, n - 1, n, out);
      }
    }
  }

  /** The paths of the first n files. */
  function Paths(files: seq<FileSpec>, n: nat): set<string>
    requires n <= |files|
  {
    set j | 0 <= j < n :: files[j].path
  }

  /**
   * A passing loop leaves the paths it wrote beside the entries of `out`, and every entry of
   * `out` that no file overwrote as it was.
   */
  lemma {:induction false} PassWritesPaths(step: (nat, FileSpec) -> Result<string, FileError>, files: seq<FileSpec>, n: nat, out: map<string, string>)
    requires n <= |files|
    requires ProcessFiles(step, files, n, out).outcome.Pass?
    ensures ProcessFiles(step, files, n, out).written.Keys == out.Keys + Paths(files, n)
    ensures forall p :: p in out && p !in Paths(files, n) ==> ProcessFiles(step, files, n, out).written[p] == out[p]
    decreases n
  {
    if n > 0 {
      PassWritesPaths(step, files, n - 1, out);
      assert Paths(files, n) == Paths(files, n - 1) + {files[n - 1].path};
    }
  }

  /** After a passing loop, each path holds the content of the last file written to it. */
  lemma {:induction false} PassWritesLast(step: (nat, FileSpec) -> Result<string, FileError>, files: seq<FileSpec>, n: nat, out: map<string, string>, j: nat)
    requires j < n <= |files|
    requires ProcessFiles(step, files, n, out).outcome.Pass?
    requires forall k :: j < k < n ==> files[k].path != files[j].path
    ensures step(j, files[j]).Ok?
    ensures files[j].path in ProcessFiles(step, files, n, out).written
    ensures ProcessFiles(step, files, n, out).written[files[j].path] == step(j, files[j]).value
    decreases n
  {
    if j < n - 1 {
      PassWritesLast(step, files, n - 1, out, j);
    }
  }

  /** A failing validation, or an output directory that cannot be made, writes nothing. */
  lemma ValidationFailureWritesNothing(ctx: Context, s: TemplateSchema, varOrder: seq<string>, outputDirOk: bool, out: map<string, string>)
    requires s.variables.Some? ==> IsKeyOrder(varOrder, s.variables.value)
    requires Validation.ValidateSchema(ctx.lib, s, varOrder).Some?
          || Validation.ValidateVariables(s, ctx.vars, varOrder).Some?
          || !outputDirOk
    ensures GenerateSpec(ctx, s, varOrder, outputDirOk, out).outcome.Fail?
    ensures GenerateSpec(ctx, s, varOrder, outputDirOk, out).written == out
  {
  }

  /** Schema validation is reported before variable validation, and both before any file. */
  lemma SchemaCheckedFirst(ctx: Context, s: TemplateSchema, varOrder: seq<string>, outputDirOk: bool, out: map<string, string>)
    requires s.variables.Some? ==> IsKeyOrder(varOrder, s.variables.value)
    requires !Validation.SchemaValid(ctx.lib, s)
    ensures GenerateSpec(ctx, s, varOrder, outputDirOk, out).outcome.Fail?
    ensures GenerateSpec(ctx, s, varOrder, outputDirOk, out).outcome.error.InvalidSchema?
  {
  }

  // ----- properties of one file -----

  /**
   * A static file is written as the decompressed stored content, mappings ignored: what
   * CompressContent stored for `c` comes back as `c` under lawful codecs.
   */
  lemma StaticFileRoundTrip(lib: Lib, vars: TemplateVariables, c: string, f: FileSpec, o: TableOrders)
    requires Lawful(lib)
    requires !f.template && Stored(f.content, f.compressed) == CompressContent(lib, c)
    ensures FileContent(lib, vars, f, o) == Ok(c)
  {
    CompressRoundTrip(lib, c);
  }

  /** The mappings of a static file have no effect on what is written. */
  lemma StaticFileIgnoresMappings(lib: Lib, vars: TemplateVariables, f: FileSpec, ms: seq<Mapping>, o: TableOrders)
    requires !f.template
    ensures FileContent(lib, vars, f.(mappings := ms), o) == FileContent(lib, vars, f, o)
    ensures FileContent(lib, vars, f, o) == match DecompressContent(lib, f.content, f.compressed)
      case Ok(c) => Ok(c)
      case Err(e) => Err(DecompressFailed(e))
  {
  }

  /**
   * A templated file is written as its mapped content with each of the nine expressions replaced
   * by its value and all other text kept, or fails with a parse error when a lone '{' precedes an
   * expression; under the hypothesis that the file to be written does not mention the words of
   * the placeholders and escape tokens (PROJECT_NAME_PLACEHOLDER, ..., ESCAPED_RIGHT_BRACE).
   */
  lemma TemplatedFileMeaning(lib: Lib, vars: TemplateVariables, f: FileSpec, o: TableOrders, c: string)
    requires f.template && DecompressContent(lib, f.content, f.compressed) == Ok(c)
    requires IsExprOrder(o.protect) && IsExprOrder(o.restore)
    requires NoTokenWords(Replacements, Rendered(vars, c, f.mappings))
    ensures FileContent(lib, vars, f, o)
         == var s := ApplyMappings(c, f.mappings);
            if BraceBeforeExpr(Escaped(Replacements, s)) then Err(TemplateFailed(ParseError))
            else Ok(Render(Replacements, Valuation(vars), s))
  {
    ProcessTemplateMeaning(vars, c, f.mappings, o.protect, o.restore);
  }

  // ----- the generator's variables and helpers -----

  /**
   * Under the generator's variables, Author and Description always pass; the schema's variables
   * pass exactly when a required ProjectName and a required GitHubRepo are given non-empty.
   */
  lemma DefaultVariablesCheck(s: TemplateSchema, projectName: string, gitHubRepo: string, order: seq<string>)
    requires s.variables.Some? && IsKeyOrder(order, s.variables.value)
    ensures var decl := s.variables.value;
      Validation.ValidateVariables(s, DefaultVariables(projectName, gitHubRepo), order) == None
      <==> ((("ProjectName" in decl && decl["ProjectName"].required) ==> projectName != "")
            && (("GitHubRepo" in decl && decl["GitHubRepo"].required) ==> gitHubRepo != ""))
  {
    var decl := s.variables.value;
    var vars := DefaultVariables(projectName, gitHubRepo);
    assert vars.author != "" && vars.description != "" by {
      assert vars.description[0] == 'A';
    }
  }

  /** strings.ReplaceAll of one character by another, position by position. */
  lemma {:induction false} ReplaceCharAt(s: string, c: char, d: char)
    ensures |ReplaceAll(s, [c], [d])| == |s|
    ensures forall i :: 0 <= i < |s| ==> ReplaceAll(s, [c], [d])[i] == if s[i] == c then d else s[i]
    decreases |s|
  {
    if |s| > 0 {
      ReplaceCharAt(s[1..], c, d);
      var rest := ReplaceAll(s[1..], [c], [d]);
      assert ReplaceAll(s, [c], [d]) == [if s[0] == c then d else s[0]] + rest by {
        if s[0] == c {
          assert HasPrefix(s, [c]);
        }
      }
    }
  }

  /** kebab: each space becomes '-' and each other character is lower-cased; same length. */
  lemma KebabAt(s: string)
    ensures |Kebab(s)| == |s|
    ensures forall i :: 0 <= i < |s| ==> Kebab(s)[i] == if s[i] == ' ' then '-' else LowerChar(s[i])
  {
    ReplaceCharAt(s, ' ', '-');
  }

  /** snake: each space becomes '_' and each other character is lower-cased; same length. */
  lemma SnakeAt(s: string)
    ensures |Snake(s)| == |s|
    ensures forall i :: 0 <= i < |s| ==> Snake(s)[i] == if s[i] == ' ' then '_' else LowerChar(s[i])
  {
    ReplaceCharAt(s, ' ', '_');
  }

  /** title changes at most the first character, and is the identity on "". */
  lemma TitleAt(s: string)
    ensures |Title(s)| == |s|
    ensures s != "" ==> Title(s)[0] == UpperChar(s[0]) && Title(s)[1..] == s[1..]
    ensures Title(Title(s)) == Title(s)
  {
  }
}
