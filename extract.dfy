/**
 * The Extract method shared by the three template types (internal/templates/frontend.go,
 * go_api.go and fullstack.go): a fold over the directory walk that appends one FileSpec per kept
 * file, then the env metadata and the schema hash. The walk, the file reads and the stat of
 * `.env.example` are inputs.
 */
module Extraction {
  import opened Wrappers
  import opened Text
  import opened Schema
  import opened Codec
  import opened EnvParser
  import opened Templates
  import opened Walk
  import Validation

  /** The FileSpec built for one kept file. */
  function MakeFileSpec(kind: TemplateKind, lib: Lib, relPath: string, size: int, content: string): (f: FileSpec)
    ensures f.path == relPath && f.size == size && f.hash == ContentHash(lib, content)
    ensures f.template == kind.ShouldTemplate(relPath)
    ensures f.mappings == if f.template then kind.GetMappings(relPath) else []
    ensures !kind.Compresses() ==> f.content == content && !f.compressed
    ensures kind.Compresses() ==> Stored(f.content, f.compressed) == CompressContent(lib, content)
  {
    var stored := if kind.Compresses() then CompressContent(lib, content) else Stored(content, false);
    var isTemplate := kind.ShouldTemplate(relPath);
    FileSpec(relPath, isTemplate, stored.content, size, ContentHash(lib, content), stored.compressed,
             if isTemplate then kind.GetMappings(relPath) else [])
  }

  /** The kind's skip rule and FileSpec builder, as the values the walk callback uses. */
  function Skipper(kind: TemplateKind): string -> bool {
    path => kind.ShouldSkip(path)
  }

  function FileBuilder(kind: TemplateKind, lib: Lib): (string, int, string) -> FileSpec {
    (relPath, size, content) => MakeFileSpec(kind, lib, relPath, size, content)
  }

  // ----- Extract -----

  /** The schema before the walk: the fixed identity of the type. */
  function InitialSchema(kind: TemplateKind): TemplateSchema {
    TemplateSchema(kind.SchemaName(), kind.Name(), Version, kind.SchemaDescription(), Some(kind.GetVariables()),
                   [], map["post_generate" := kind.PostGenerate()], [], "")
  }

  /** The env metadata: the parse of a readable root `.env.example`, for the types that read it. */
  function EnvConfigOf(kind: TemplateKind, envExample: Option<string>): seq<EnvVariable> {
    if kind.ParsesEnvExample() && envExample.Some? then Parse(ClassifyAll(Lines(envExample.value))) else []
  }

  /** The schema once the walk has produced its files: env metadata, then the hash. */
  function Assemble(kind: TemplateKind, lib: Lib, files: seq<FileSpec>, envExample: Option<string>): TemplateSchema {
    var s := InitialSchema(kind).(files := files, envConfig := EnvConfigOf(kind, envExample));
    s.(hash := lib.sha256Hex(HashPreimage(s)))
  }

  /** What Extract returns, as a function of the walk and the env file. */
  function ExtractSpec(kind: TemplateKind, lib: Lib, walk: seq<WalkEntry>, envExample: Option<string>): Result<TemplateSchema, ExtractError> {
    match WalkFold(Skipper(kind), FileBuilder(kind, lib), walk)
    case Err(e) => Err(e)
    case Ok(files) => Ok(Assemble(kind, lib, files, envExample))
  }

  /** The `.env.example` step of Extract: parsed when present and readable, except by go-api. */
  method ReadEnvConfig(kind: TemplateKind, envExample: Option<string>) returns (envVars: seq<EnvVariable>)
    ensures envVars == EnvConfigOf(kind, envExample)
  {
    envVars := [];
    if kind.ParsesEnvExample() && envExample.Some? {
      envVars := ParseEnvExample(envExample.value);
    }
  }

  /**
   * Extract: the walk callback appends one FileSpec per kept file; then `.env.example` is parsed
   * when present and readable (not by go-api), and the schema hash is computed last.
   */
  method Extract(kind: TemplateKind, lib: Lib, walk: seq<WalkEntry>, envExample: Option<string>)
    returns (r: Result<TemplateSchema, ExtractError>)
    ensures r == ExtractSpec(kind, lib, walk, envExample)
  {
    var walked := WalkFiles(Skipper(kind), FileBuilder(kind, lib), walk);
    if walked.Err? {
      return Err(walked.error);
    }
    var envVars := ReadEnvConfig(kind, envExample);
    var schema := InitialSchema(kind).(files := walked.value, envConfig := envVars);
    var hash := CalculateSchemaHash(lib, schema);
    schema := schema.(hash := hash);
    return Ok(schema);
  }

  // ----- properties of an extracted schema -----

  /**
   * The identity of an extracted schema is fixed by its type: name, type, version "1.0.0", the
   * type's variables and post-generate hook, and the files of the walk.
   */
  lemma AssembledIdentity(kind: TemplateKind, lib: Lib, files: seq<FileSpec>, envExample: Option<string>)
    ensures var s := Assemble(kind, lib, files, envExample);
      && s.name == kind.SchemaName() && s.typ == kind.Name() && s.version == "1.0.0"
      && s.variables == Some(kind.GetVariables())
      && s.hooks == map["post_generate" := kind.PostGenerate()]
      && s.files == files
      && s.envConfig == EnvConfigOf(kind, envExample)
  {
  }

  /**
   * go-api never sets env metadata; the other types take it from a readable `.env.example`, and
   * a missing one leaves it empty.
   */
  lemma EnvConfigMeaning(kind: TemplateKind, envExample: Option<string>)
    ensures kind == GoApi ==> EnvConfigOf(kind, envExample) == []
    ensures kind != GoApi && envExample.Some? ==> EnvConfigOf(kind, envExample) == Parse(ClassifyAll(Lines(envExample.value)))
    ensures envExample.None? ==> EnvConfigOf(kind, envExample) == []
  {
  }

  /** The hash of an extracted schema covers name, type, version and the files' paths and hashes. */
  lemma AssembledHash(kind: TemplateKind, lib: Lib, files: seq<FileSpec>, envExample: Option<string>)
    ensures var s := Assemble(kind, lib, files, envExample);
      s.hash == lib.sha256Hex(s.name + s.typ + s.version + FilesDigest(files))
  {
  }

  /**
   * The hash each extracted FileSpec carries is the hash of the original bytes, so under lawful
   * codecs it passes the integrity check whether or not the content was compressed.
   */
  lemma ExtractedHashChecks(kind: TemplateKind, lib: Lib, relPath: string, size: int, content: string)
    requires Lawful(lib)
    ensures Validation.ValidateFileHash(lib, MakeFileSpec(kind, lib, relPath, size, content)) == None
  {
    CompressRoundTrip(lib, content);
  }

  /**
   * An empty file is extracted with empty content, which schema validation then rejects: such a
   * schema cannot be generated from.
   */
  lemma EmptyFileRejected(kind: TemplateKind, lib: Lib, relPath: string, size: int, index: nat)
    requires relPath != ""
    ensures Validation.ValidateFileSpec(lib, MakeFileSpec(kind, lib, relPath, size, ""), index)
            == Some(Validation.FileWithoutContent(relPath))
  {
  }
}
