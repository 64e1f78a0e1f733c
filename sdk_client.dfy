/**
 * The SDK client of sdk/client.go: its input checks, its cache of registered schemas (a map
 * from schema name to schema, updated in place by RegisterTemplate), the lookup of Generate,
 * and the extract-then-generate workflow on top of the extractor and the generator.
 *
 * The disk is an input (Env): which paths exist, what a schema file loads to, what a template
 * type's Extract returns for a directory (the Extraction module models it over the walk of the
 * directory), whether the temporary schema file and the output directory can be created. The temporary file holds the schema as JSON and the generator reads it back; the
 * model hands the schema over unchanged.
 */
module SdkClient {
  import opened Wrappers
  import opened Schema
  import opened Codec
  import opened SdkErrors
  import opened Templates
  import Walk
  import Extraction
  import Registry
  import Validation
  import Generation

  // ----- inputs and errors -----

  datatype GenerateOptions = GenerateOptions(
    template: string, projectName: string, gitHubRepo: string, outputDir: string, custom: map<string, string>)

  datatype ExtractOptions = ExtractOptions(sourceDir: string, templateType: string, outputDir: string)

  /** The SDK's variables; only the first three ever reach the generator. */
  datatype Variables = Variables(
    projectName: string, gitHubRepo: string, outputDir: string, author: string, description: string,
    custom: map<string, string>)

  /** Why a schema file could not be loaded: missing, unreadable, or not a schema in JSON. */
  datatype LoadError = Missing | Unreadable | Unparsable

  /** What an SDK error wraps. */
  datatype Cause =
    | NotExist(path: string)
    | LoadFailed(loadError: LoadError)
    | SchemaInvalid(schemaError: Validation.SchemaError)
    | ExtractFailed(extractError: Walk.ExtractError)
    | GenerateFailed(generateError: Generation.GenerateError)
    | TempFileFailed

  type Error = SdkError<Cause>

  /** The world the client acts on. */
  datatype Env = Env(
    lib: Lib,
    /** The iteration order of each variables map. */
    keyOrder: map<string, Variable> -> seq<string>,
    /** The iteration orders of the protection table, per file index. */
    orders: nat -> Generation.TableOrders,
    fs: Generation.FileSystem,
    /** Whether os.Stat finds a path. */
    onDisk: string -> bool,
    /** What reading and parsing a schema file gives. */
    load: string -> Result<TemplateSchema, LoadError>,
    /** What a template type's Extract returns for a source directory. */
    extract: (TemplateKind, string) -> Result<TemplateSchema, Walk.ExtractError>,
    /** Whether the temporary schema file can be created and written, and the output directory made. */
    tempFileOk: bool,
    mkdirOk: string -> bool,
    /** The template types in the global registry. */
    registered: map<string, TemplateKind>)

  /** The iteration order of a schema's variables. */
  function VarOrder(env: Env, s: TemplateSchema): seq<string> {
    if s.variables.Some? then env.keyOrder(s.variables.value) else []
  }

  /** The order given for a schema's variables enumerates them. */
  ghost predicate OrdersVariables(env: Env, s: TemplateSchema) {
    s.variables.Some? ==> IsKeyOrder(env.keyOrder(s.variables.value), s.variables.value)
  }

  /** The order given for every cached schema's variables enumerates them. */
  ghost predicate OrdersCache(env: Env, templates: map<string, TemplateSchema>) {
    forall n :: n in templates ==> OrdersVariables(env, templates[n])
  }

  /** The order given for the variables of every extracted schema enumerates them. */
  ghost predicate OrdersExtracted(env: Env) {
    forall kind: TemplateKind, dir: string :: env.extract(kind, dir).Ok? ==> OrdersVariables(env, env.extract(kind, dir).value)
  }

  // ----- the input checks -----

  const ProjectNameRequired: string := "project name is required"
  const GitHubRepoRequired: string := "github repo is required"
  const TemplateTypeRequired: string := "template type is required"
  const OutputDirRequired: string := "output directory is required"
  const SourceDirRequired: string := "source directory is required"
  const SourceDirMissing: string := "source directory does not exist"

  /** One required value: a validation error with its message when empty, else the checks after it. */
  function Require(op: string, value: string, message: string, next: Option<Error>): (r: Option<Error>)
    ensures value == "" ==> r == Some(NewValidationError(op, message, ""))
    ensures value != "" ==> r == next
  {
    if value == "" then Some(NewValidationError(op, message, "")) else next
  }

  /** ValidateGenerateOptions: the project name, then the repository, then the template. */
  function ValidateGenerateOptions(opts: GenerateOptions): (r: Option<Error>)
    ensures r.None? <==> opts.projectName != "" && opts.gitHubRepo != "" && opts.template != ""
    ensures r.Some? ==> r.value.typ == TypeValidation && r.value.operation == "Generate"
    ensures opts.projectName == "" ==> r.Some? && r.value.message == ProjectNameRequired
    ensures opts.projectName != "" && opts.gitHubRepo == "" ==> r.Some? && r.value.message == GitHubRepoRequired
  {
    Require("Generate", opts.projectName, ProjectNameRequired,
      Require("Generate", opts.gitHubRepo, GitHubRepoRequired,
        Require("Generate", opts.template, TemplateTypeRequired, None)))
  }

  /** ValidateVariables: the project name, then the repository, then the output directory. */
  function ValidateVariables(v: Variables): (r: Option<Error>)
    ensures r.None? <==> v.projectName != "" && v.gitHubRepo != "" && v.outputDir != ""
    ensures r.Some? ==> r.value.typ == TypeValidation && r.value.operation == "GenerateFromTemplate"
    ensures v.projectName == "" ==> r.Some? && r.value.message == ProjectNameRequired
    ensures v.projectName != "" && v.gitHubRepo == "" ==> r.Some? && r.value.message == GitHubRepoRequired
  {
    var op := "GenerateFromTemplate";
    Require(op, v.projectName, ProjectNameRequired,
      Require(op, v.gitHubRepo, GitHubRepoRequired,
        Require(op, v.outputDir, OutputDirRequired, None)))
  }

  /** ValidateExtractOptions: the two values, then that the source directory exists. */
  function ValidateExtractOptions(opts: ExtractOptions, onDisk: string -> bool): (r: Option<Error>)
    ensures r.None? <==> opts.sourceDir != "" && opts.templateType != "" && onDisk(opts.sourceDir)
    ensures r.Some? && r.value.typ == TypeValidation <==> opts.sourceDir == "" || opts.templateType == ""
    ensures opts.sourceDir != "" && opts.templateType != "" && !onDisk(opts.sourceDir) ==>
              r == Some(NewFileSystemError("Extract", SourceDirMissing, Some(NotExist(opts.sourceDir))))
  {
    var present := if onDisk(opts.sourceDir) then None
                   else Some(NewFileSystemError("Extract", SourceDirMissing, Some(NotExist(opts.sourceDir))));
    Require("Extract", opts.sourceDir, SourceDirRequired,
      Require("Extract", opts.templateType, TemplateTypeRequired, present))
  }

  // ----- template types -----

  datatype TemplateTypeInfo = TemplateTypeInfo(name: string, description: string, variables: map<string, Variable>)

  /** GetTemplateTypeInfo: the registered type's name, a description naming it, and its variables. */
  function GetTemplateTypeInfo(registered: map<string, TemplateKind>, templateType: string): (r: Result<TemplateTypeInfo, Error>)
    ensures r.Ok? <==> templateType in registered
    ensures r.Ok? ==> var kind := registered[templateType];
      r.value.name == kind.Name() && r.value.description == kind.Name() + " template type"
      && r.value.variables == kind.GetVariables()
    ensures r.Err? ==> r.error == NewTemplateTypeError("GetTemplateTypeInfo", templateType)
  {
    match Registry.Lookup(registered, templateType)
    case Err(_) => Err(NewTemplateTypeError("GetTemplateTypeInfo", templateType))
    case Ok(kind) => Ok(TemplateTypeInfo(kind.Name(), kind.Name() + " template type", kind.GetVariables()))
  }

  // ----- extraction and generation -----

  const ExtractFailedMessage: string := "failed to extract template from source directory"

  /**
   * Extract: the option checks, the global registry's type of that name, then that type's
   * Extract; each failure is reported as it stands, as a template-type error or wrapped in an
   * extraction error.
   */
  function Extract(env: Env, opts: ExtractOptions): (r: Result<TemplateSchema, Error>)
    ensures ValidateExtractOptions(opts, env.onDisk).Some? ==> r == Err(ValidateExtractOptions(opts, env.onDisk).value)
    ensures ValidateExtractOptions(opts, env.onDisk).None? && opts.templateType !in env.registered ==>
              r == Err(NewTemplateTypeError("Extract", opts.templateType))
    ensures ValidateExtractOptions(opts, env.onDisk).None? && opts.templateType in env.registered
            && env.extract(env.registered[opts.templateType], opts.sourceDir).Err? ==>
              r == Err(NewExtractionError("Extract", ExtractFailedMessage,
                         Some(ExtractFailed(env.extract(env.registered[opts.templateType], opts.sourceDir).error))))
    ensures r.Ok? <==> ValidateExtractOptions(opts, env.onDisk).None? && opts.templateType in env.registered
                       && env.extract(env.registered[opts.templateType], opts.sourceDir).Ok?
    ensures r.Ok? ==> env.extract(env.registered[opts.templateType], opts.sourceDir) == Ok(r.value)
  {
    match ValidateExtractOptions(opts, env.onDisk)
    case Some(e) => Err(e)
    case None =>
      match Registry.Lookup(env.registered, opts.templateType)
      case Err(_) => Err(NewTemplateTypeError("Extract", opts.templateType))
      case Ok(kind) =>
        match env.extract(kind, opts.sourceDir)
        case Err(e) => Err(NewExtractionError("Extract", ExtractFailedMessage, Some(ExtractFailed(e))))
        case Ok(s) => Ok(s)
  }

  /** How an SDK call that can generate ends, and the files it leaves under the output directory. */
  datatype SdkRun = SdkRun(outcome: Outcome<Error>, written: map<string, string>)

  /** The generator's run for these variables: only the output directory, the name and the repository reach it. */
  function GeneratorRun(env: Env, s: TemplateSchema, v: Variables): Generation.Run
    requires OrdersVariables(env, s)
  {
    var ctx := Generation.Context(env.lib, Generation.DefaultVariables(v.projectName, v.gitHubRepo), env.orders, env.fs);
    Generation.GenerateSpec(ctx, s, VarOrder(env, s), env.mkdirOk(v.outputDir), map[])
  }

  /**
   * GenerateFromTemplate: the SDK's variable check, the schema check, the temporary schema
   * file, then a Generator built from the file, the directory, the name and the repository.
   */
  function GenerateFromTemplateSpec(env: Env, s: TemplateSchema, v: Variables): SdkRun
    requires OrdersVariables(env, s)
  {
    match ValidateVariables(v)
    case Some(e) => SdkRun(Fail(e), map[])
    case None =>
      match Validation.ValidateSchema(env.lib, s, VarOrder(env, s))
      case Some(e) => SdkRun(Fail(NewSchemaError("GenerateFromTemplate", "invalid template schema", Some(SchemaInvalid(e)))), map[])
      case None =>
        if !env.tempFileOk then
          SdkRun(Fail(NewFileSystemError("GenerateFromTemplate", "failed to create temporary file", Some(TempFileFailed))), map[])
        else
          var run := GeneratorRun(env, s, v);
          match run.outcome
          case Pass => SdkRun(Pass, run.written)
          case Fail(e) =>
            SdkRun(Fail(NewGenerationError("GenerateFromTemplate", "failed to generate project", Some(GenerateFailed(e)))), run.written)
  }

  /** GenerateFromTemplate, driving a Generator object. */
  method GenerateFromTemplate(env: Env, s: TemplateSchema, v: Variables) returns (r: Outcome<Error>, written: map<string, string>)
    requires OrdersVariables(env, s)
    ensures SdkRun(r, written) == GenerateFromTemplateSpec(env, s, v)
  {
    var variableError := ValidateVariables(v);
    if variableError.Some? {
      return Fail(variableError.value), map[];
    }
    var order := VarOrder(env, s);
    var schemaError := Validation.ValidateSchema(env.lib, s, order);
    if schemaError.Some? {
      return Fail(NewSchemaError("GenerateFromTemplate", "invalid template schema", Some(SchemaInvalid(schemaError.value)))), map[];
    }
    if !env.tempFileOk {
      return Fail(NewFileSystemError("GenerateFromTemplate", "failed to create temporary file", Some(TempFileFailed))), map[];
    }
    var generator := new Generation.Generator(s, v.outputDir, v.projectName, v.gitHubRepo);
    var outcome := generator.Generate(env.lib, order, env.orders, env.fs, env.mkdirOk(v.outputDir));
    written := generator.output;
    if outcome.Fail? {
      return Fail(NewGenerationError("GenerateFromTemplate", "failed to generate project", Some(GenerateFailed(outcome.error)))), written;
    }
    return Pass, written;
  }

  /** The variables Generate builds from its options: the fixed author and the derived description. */
  function OptionVariables(opts: GenerateOptions): (v: Variables)
    ensures v.projectName == opts.projectName && v.gitHubRepo == opts.gitHubRepo && v.outputDir == opts.outputDir
    ensures v.author == Generation.DefaultAuthor && v.description == "A " + opts.projectName + " application"
  {
    Variables(opts.projectName, opts.gitHubRepo, opts.outputDir, Generation.DefaultAuthor,
              "A " + opts.projectName + " application", opts.custom)
  }

  /** Loading a schema file for `op`: it must exist, be readable and parse. */
  function LoadSchema(env: Env, op: string, path: string): (r: Result<TemplateSchema, Error>)
    ensures r.Ok? <==> env.load(path).Ok?
    ensures r.Ok? ==> r.value == env.load(path).value
    ensures r.Err? && env.load(path).error != Unparsable ==> r.error.typ == TypeFileSystem
    ensures r.Err? && env.load(path).error == Unparsable ==> r.error.typ == TypeSchema
  {
    match env.load(path)
    case Ok(s) => Ok(s)
    case Err(Missing) => Err(NewFileSystemError(op, "template file does not exist", Some(NotExist(path))))
    case Err(Unreadable) => Err(NewFileSystemError(op, "failed to read template file", Some(LoadFailed(Unreadable))))
    case Err(Unparsable) => Err(NewSchemaError(op, "failed to parse template file", Some(LoadFailed(Unparsable))))
  }

  /** A schema can be cached: it is valid and stored under its own name. */
  ghost predicate Cacheable(lib: Lib, templates: map<string, TemplateSchema>) {
    forall n :: n in templates ==> templates[n].name == n && Validation.SchemaValid(lib, templates[n])
  }

  /** What GetSchemaInfo reports about a cached schema. */
  datatype SchemaInfo = SchemaInfo(
    name: string, typ: string, version: string, description: string, variables: Option<map<string, Variable>>,
    fileCount: int, envVarCount: int)

  /** What Generate may do: the lookup by name, else by type (any cached schema of that type), else an error. */
  ghost predicate GenerateOutcome(env: Env, templates: map<string, TemplateSchema>, opts: GenerateOptions, run: SdkRun)
    requires OrdersCache(env, templates)
  {
    match ValidateGenerateOptions(opts)
    case Some(e) => run == SdkRun(Fail(e), map[])
    case None =>
      if opts.template in templates then run == GenerateFromTemplateSpec(env, templates[opts.template], OptionVariables(opts))
      else if forall k :: k in templates ==> templates[k].typ != opts.template then
        run == SdkRun(Fail(NewTemplateTypeError("Generate", opts.template)), map[])
      else exists k :: k in templates && templates[k].typ == opts.template &&
                       run == GenerateFromTemplateSpec(env, templates[k], OptionVariables(opts))
  }

  class Client {
    /** The registered schemas, by name. */
    var templates: map<string, TemplateSchema>

    /** New: an empty cache. */
    constructor ()
      ensures templates == map[]
    {
      templates := map[];
    }

    /** The lookup of Generate: the schema of that name, else the first cached schema of that type in map order. */
    method FindSchema(name: string) returns (r: Option<TemplateSchema>)
      ensures name in templates ==> r == Some(templates[name])
      ensures name !in templates ==> (r.Some? <==> exists k :: k in templates && templates[k].typ == name)
      ensures name !in templates && r.Some? ==> exists k :: k in templates && templates[k] == r.value && r.value.typ == name
    {
      if name in templates {
        return Some(templates[name]);
      }
      var remaining := templates.Keys;
      while remaining != {}
        invariant remaining <= templates.Keys
        invariant forall k :: k in templates && k !in remaining ==> templates[k].typ != name
        decreases remaining
      {
        var k :| k in remaining;
        if templates[k].typ == name {
          return Some(templates[k]);
        }
        remaining := remaining - {k};
      }
      return None;
    }

    /** Generate: the option checks, the lookup, then GenerateFromTemplate with the default author and description. */
    method Generate(env: Env, opts: GenerateOptions) returns (r: Outcome<Error>, written: map<string, string>)
      requires OrdersCache(env, templates)
      ensures GenerateOutcome(env, templates, opts, SdkRun(r, written))
    {
      var optionError := ValidateGenerateOptions(opts);
      if optionError.Some? {
        return Fail(optionError.value), map[];
      }
      var schema := FindSchema(opts.template);
      if schema.None? {
        return Fail(NewTemplateTypeError("Generate", opts.template)), map[];
      }
      r, written := GenerateFromTemplate(env, schema.value, OptionVariables(opts));
    }

    /** RegisterTemplate: load the file, validate the schema, then cache it under its name. */
    method RegisterTemplate(env: Env, path: string) returns (r: Option<Error>)
      requires env.load(path).Ok? ==> OrdersVariables(env, env.load(path).value)
      modifies this
      ensures r.None? <==> env.load(path).Ok? && Validation.SchemaValid(env.lib, env.load(path).value)
      ensures r.None? ==> templates == old(templates)[env.load(path).value.name := env.load(path).value]
      ensures r.Some? ==> templates == old(templates)
      ensures r.Some? && env.load(path).Ok? ==> r.value.typ == TypeSchema
      ensures Cacheable(env.lib, old(templates)) ==> Cacheable(env.lib, templates)
    {
      var loaded := LoadSchema(env, "RegisterTemplate", path);
      if loaded.Err? {
        return Some(loaded.error);
      }
      var s := loaded.value;
      var schemaError := Validation.ValidateSchema(env.lib, s, VarOrder(env, s));
      if schemaError.Some? {
        return Some(NewSchemaError("RegisterTemplate", "invalid template schema", Some(SchemaInvalid(schemaError.value))));
      }
      templates := templates[s.name := s];
      return None;
    }

    /** ListSchemas: every cached name exactly once, in map order. */
    method ListSchemas() returns (names: seq<string>)
      ensures forall n :: n in names <==> n in templates
      ensures Registry.Distinct(names)
      ensures |names| == |templates|
    {
      names := [];
      var remaining := templates.Keys;
      while remaining != {}
        invariant remaining <= templates.Keys
        invariant forall n :: n in names <==> n in templates && n !in remaining
        invariant Registry.Distinct(names)
        invariant |names| + |remaining| == |templates.Keys|
        decreases remaining
      {
        var n :| n in remaining;
        names := names + [n];
        remaining := remaining - {n};
      }
    }

    /** GetSchemaInfo: the cached schema's identity, description and variables, and its file and env-variable counts. */
    function GetSchemaInfo(name: string): (r: Result<SchemaInfo, Error>)
      reads this
      ensures r.Ok? <==> name in templates
      ensures r.Ok? ==> var s := templates[name];
        && r.value.name == s.name && r.value.typ == s.typ && r.value.version == s.version
        && r.value.description == s.description && r.value.variables == s.variables
        && r.value.fileCount == |s.files| && r.value.envVarCount == |s.envConfig|
      ensures r.Err? ==> r.error == NewTemplateTypeError("GetSchemaInfo", name)
    {
      if name !in templates then Err(NewTemplateTypeError("GetSchemaInfo", name))
      else
        var s := templates[name];
        Ok(SchemaInfo(s.name, s.typ, s.version, s.description, s.variables, |s.files|, |s.envConfig|))
    }

    /** GetSchemaEnvConfig: the cached schema's env metadata. */
    function GetSchemaEnvConfig(name: string): (r: Result<seq<EnvVariable>, Error>)
      reads this
      ensures r.Ok? <==> name in templates
      ensures r.Ok? ==> r.value == templates[name].envConfig && |r.value| == GetSchemaInfo(name).value.envVarCount
      ensures r.Err? ==> r.error == NewTemplateTypeError("GetSchemaEnvConfig", name)
    {
      if name !in templates then Err(NewTemplateTypeError("GetSchemaEnvConfig", name)) else Ok(templates[name].envConfig)
    }

    /** GenerateFromSchema: the cached schema of that name only, then GenerateFromTemplate. */
    method GenerateFromSchema(env: Env, name: string, v: Variables) returns (r: Outcome<Error>, written: map<string, string>)
      requires name in templates ==> OrdersVariables(env, templates[name])
      ensures name !in templates ==> r == Fail(NewTemplateTypeError("GenerateFromSchema", name)) && written == map[]
      ensures name in templates ==> SdkRun(r, written) == GenerateFromTemplateSpec(env, templates[name], v)
    {
      if name !in templates {
        return Fail(NewTemplateTypeError("GenerateFromSchema", name)), map[];
      }
      r, written := GenerateFromTemplate(env, templates[name], v);
    }
  }

  /**
   * GenerateFromFile: the variable check, the schema file, then GenerateFromTemplate. Nothing
   * is written unless the variables pass and the file loads.
   */
  method GenerateFromFile(env: Env, path: string, v: Variables) returns (r: Outcome<Error>, written: map<string, string>)
    requires env.load(path).Ok? ==> OrdersVariables(env, env.load(path).value)
    ensures ValidateVariables(v).Some? ==> r == Fail(ValidateVariables(v).value) && written == map[]
    ensures ValidateVariables(v).None? && LoadSchema(env, "GenerateFromFile", path).Err? ==>
              r == Fail(LoadSchema(env, "GenerateFromFile", path).error) && written == map[]
    ensures ValidateVariables(v).None? && LoadSchema(env, "GenerateFromFile", path).Ok? ==>
              SdkRun(r, written) == GenerateFromTemplateSpec(env, LoadSchema(env, "GenerateFromFile", path).value, v)
    ensures r.Pass? ==> ValidateVariables(v).None? && env.load(path).Ok? && Validation.SchemaValid(env.lib, env.load(path).value)
  {
    var variableError := ValidateVariables(v);
    if variableError.Some? {
      return Fail(variableError.value), map[];
    }
    var loaded := LoadSchema(env, "GenerateFromFile", path);
    if loaded.Err? {
      return Fail(loaded.error), map[];
    }
    r, written := GenerateFromTemplate(env, loaded.value, v);
  }

  /** The checks of ExtractAndGenerate, in order, then that the source directory exists. */
  function ExtractAndGenerateChecks(env: Env, sourceDir: string, templateType: string, projectName: string,
                                    gitHubRepo: string, outputDir: string): (r: Option<Error>)
    ensures r.None? <==> sourceDir != "" && templateType != "" && projectName != "" && gitHubRepo != "" && outputDir != ""
                         && env.onDisk(sourceDir)
    ensures r.Some? ==> r.value.operation == "ExtractAndGenerate"
    ensures sourceDir != "" && templateType != "" && projectName != "" && gitHubRepo != "" && outputDir != "" && r.Some? ==>
              r.value.typ == TypeFileSystem
    ensures sourceDir == "" ==> r == Some(NewValidationError("ExtractAndGenerate", SourceDirRequired, ""))
    ensures sourceDir != "" && templateType == "" ==> r == Some(NewValidationError("ExtractAndGenerate", TemplateTypeRequired, ""))
    ensures sourceDir != "" && templateType != "" && projectName == "" ==>
              r == Some(NewValidationError("ExtractAndGenerate", ProjectNameRequired, ""))
    ensures sourceDir != "" && templateType != "" && projectName != "" && gitHubRepo == "" ==>
              r == Some(NewValidationError("ExtractAndGenerate", GitHubRepoRequired, ""))
    ensures sourceDir != "" && templateType != "" && projectName != "" && gitHubRepo != "" && outputDir == "" ==>
              r == Some(NewValidationError("ExtractAndGenerate", OutputDirRequired, ""))
    ensures sourceDir != "" && templateType != "" && projectName != "" && gitHubRepo != "" && outputDir != ""
            && !env.onDisk(sourceDir) ==>
              r == Some(NewFileSystemError("ExtractAndGenerate", SourceDirMissing, Some(NotExist(sourceDir))))
  {
    var op := "ExtractAndGenerate";
    var onDisk := if env.onDisk(sourceDir) then None
                  else Some(NewFileSystemError(op, SourceDirMissing, Some(NotExist(sourceDir))));
    Require(op, sourceDir, SourceDirRequired,
      Require(op, templateType, TemplateTypeRequired,
        Require(op, projectName, ProjectNameRequired,
          Require(op, gitHubRepo, GitHubRepoRequired,
            Require(op, outputDir, OutputDirRequired, onDisk)))))
  }

  /** The variables ExtractAndGenerate passes on: those Generate passes for the same values and no custom ones. */
  function WorkflowVariables(projectName: string, gitHubRepo: string, outputDir: string): (v: Variables)
    ensures v == OptionVariables(GenerateOptions("", projectName, gitHubRepo, outputDir, map[]))
    ensures v.author == Generation.DefaultAuthor && v.description == "A " + projectName + " application"
  {
    Variables(projectName, gitHubRepo, outputDir, Generation.DefaultAuthor, "A " + projectName + " application", map[])
  }

  /**
   * ExtractAndGenerate: the checks, Extract, then GenerateFromTemplate with the fixed author and
   * the derived description. A failed check or extraction is returned as it is, with nothing
   * written.
   */
  method ExtractAndGenerate(env: Env, sourceDir: string, templateType: string, projectName: string,
                            gitHubRepo: string, outputDir: string) returns (r: Outcome<Error>, written: map<string, string>)
    requires OrdersExtracted(env)
    ensures var checks := ExtractAndGenerateChecks(env, sourceDir, templateType, projectName, gitHubRepo, outputDir);
      checks.Some? ==> r == Fail(checks.value) && written == map[]
    ensures var checks := ExtractAndGenerateChecks(env, sourceDir, templateType, projectName, gitHubRepo, outputDir);
      var extracted := Extract(env, ExtractOptions(sourceDir, templateType, ""));
      && (checks.None? && extracted.Err? ==> r == Fail(extracted.error) && written == map[])
      && (checks.None? && extracted.Ok? ==>
            && OrdersVariables(env, extracted.value)
            && SdkRun(r, written) == GenerateFromTemplateSpec(env, extracted.value, WorkflowVariables(projectName, gitHubRepo, outputDir)))
    ensures r.Pass? ==> ExtractAndGenerateChecks(env, sourceDir, templateType, projectName, gitHubRepo, outputDir).None?
                        && Extract(env, ExtractOptions(sourceDir, templateType, "")).Ok?
  {
    var checkError := ExtractAndGenerateChecks(env, sourceDir, templateType, projectName, gitHubRepo, outputDir);
    if checkError.Some? {
      return Fail(checkError.value), map[];
    }
    var extracted := Extract(env, ExtractOptions(sourceDir, templateType, ""));
    if extracted.Err? {
      return Fail(extracted.error), map[];
    }
    r, written := GenerateFromTemplate(env, extracted.value, WorkflowVariables(projectName, gitHubRepo, outputDir));
  }

  // ----- properties -----

  /** The SDK's author, description and custom values never change what is generated. */
  lemma OnlyThreeValuesReachGenerator(env: Env, s: TemplateSchema, v: Variables, author: string, description: string,
                                      custom: map<string, string>)
    requires OrdersVariables(env, s)
    ensures GenerateFromTemplateSpec(env, s, v.(author := author, description := description, custom := custom))
         == GenerateFromTemplateSpec(env, s, v)
  {
  }

  /**
   * A failed variable or schema check ends the call before anything is written, with a
   * validation or schema error.
   */
  lemma FailedChecksWriteNothing(env: Env, s: TemplateSchema, v: Variables)
    requires OrdersVariables(env, s)
    requires ValidateVariables(v).Some? || !Validation.SchemaValid(env.lib, s)
    ensures GenerateFromTemplateSpec(env, s, v).outcome.Fail?
    ensures GenerateFromTemplateSpec(env, s, v).written == map[]
    ensures GenerateFromTemplateSpec(env, s, v).outcome.error.typ in {TypeValidation, TypeSchema}
  {
  }

  /**
   * Once the checks pass and the temporary file is written, the call does what the generator
   * does with the default author and description: the same files, and a generation error
   * exactly when the generator fails.
   */
  lemma GenerateFromTemplateIsGeneratorRun(env: Env, s: TemplateSchema, v: Variables)
    requires OrdersVariables(env, s)
    requires ValidateVariables(v).None? && Validation.SchemaValid(env.lib, s) && env.tempFileOk
    ensures var run := GenerateFromTemplateSpec(env, s, v);
      var gen := Generation.GenerateSpec(
        Generation.Context(env.lib, Generation.DefaultVariables(v.projectName, v.gitHubRepo), env.orders, env.fs),
        s, VarOrder(env, s), env.mkdirOk(v.outputDir), map[]);
      && run.written == gen.written
      && (run.outcome.Pass? <==> gen.outcome.Pass?)
      && (run.outcome.Fail? ==> run.outcome.error.typ == TypeGeneration && Unwrap(run.outcome.error) == Some(GenerateFailed(gen.outcome.error)))
  {
  }

  /** Generate finds a schema by its name before it looks at types. */
  lemma GenerateByNameFirst(env: Env, templates: map<string, TemplateSchema>, opts: GenerateOptions, run: SdkRun)
    requires OrdersCache(env, templates)
    requires ValidateGenerateOptions(opts).None? && opts.template in templates
    requires GenerateOutcome(env, templates, opts, run)
    ensures run == GenerateFromTemplateSpec(env, templates[opts.template], OptionVariables(opts))
  {
  }

  /** Without a cached schema of that name or type, Generate fails with a template-type error and writes nothing. */
  lemma GenerateUnknownTemplate(env: Env, templates: map<string, TemplateSchema>, opts: GenerateOptions, run: SdkRun)
    requires OrdersCache(env, templates)
    requires ValidateGenerateOptions(opts).None?
    requires forall k :: k in templates ==> k != opts.template && templates[k].typ != opts.template
    requires GenerateOutcome(env, templates, opts, run)
    ensures run == SdkRun(Fail(NewTemplateTypeError("Generate", opts.template)), map[])
  {
  }

  /**
   * With the registry as package init leaves it, "fullstack" cannot be extracted: Extract fails
   * with a template-type error once the options pass.
   */
  lemma FullstackNotExtractable(env: Env, sourceDir: string, outputDir: string)
    requires env.registered == Registry.InitialTemplates()
    requires sourceDir != "" && env.onDisk(sourceDir)
    ensures Extract(env, ExtractOptions(sourceDir, "fullstack", outputDir))
         == Err(NewTemplateTypeError("Extract", "fullstack"))
  {
    Registry.InitialTemplatesContents();
  }
}
