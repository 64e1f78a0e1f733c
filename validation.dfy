/**
 * Schema validation of internal/core/validation.go: the structural checks in their fixed
 * order, the per-file integrity check and the required-variable check. Go ranges over the
 * `Variables` map in an unspecified order; the model takes that order as an input
 * (Schema.IsKeyOrder) and shows which outcomes do not depend on it.
 */
module Validation {
  import opened Wrappers
  import opened Schema
  import opened Codec

  /** The first violated invariant, as the error messages of ValidateSchema name it. */
  datatype SchemaError =
    | NameRequired
    | TypeRequired
    | VersionRequired
    | VariablesRequired
    | VariableWithoutType(name: string)
    | NoFiles
    | FileWithoutPath(index: nat)
    | FileWithoutContent(path: string)
    | DecompressFailed(path: string, cause: DecodeError)
    | HashMismatch(path: string, expected: string, got: string)

  /** validateBasicFields: name, then type, then version. */
  function ValidateBasicFields(s: TemplateSchema): (r: Option<SchemaError>)
    ensures r == None <==> s.name != "" && s.typ != "" && s.version != ""
    ensures r.Some? ==> r.value in {NameRequired, TypeRequired, VersionRequired}
  {
    if s.name == "" then Some(NameRequired)
    else if s.typ == "" then Some(TypeRequired)
    else if s.version == "" then Some(VersionRequired)
    else None
  }

  /** The first variable, in iteration order `order`, declared without a type. */
  function FirstUntyped(order: seq<string>, vars: map<string, Variable>): (r: Option<string>)
    requires forall i :: 0 <= i < |order| ==> order[i] in vars
    ensures r.None? <==> forall i :: 0 <= i < |order| ==> vars[order[i]].typ != ""
    ensures r.Some? ==> r.value in order && vars[r.value].typ == ""
    decreases |order|
  {
    if |order| == 0 then None
    else if vars[order[0]].typ == "" then Some(order[0])
    else FirstUntyped(order[1..], vars)
  }

  /** validateSchemaVariables: a nil map fails; otherwise the first untyped variable fails. */
  function ValidateSchemaVariables(s: TemplateSchema, order: seq<string>): (r: Option<SchemaError>)
    requires s.variables.Some? ==> IsKeyOrder(order, s.variables.value)
    ensures s.variables.None? ==> r == Some(VariablesRequired)
    ensures s.variables.Some? ==>
              (r.None? <==> forall n :: n in s.variables.value ==> s.variables.value[n].typ != "")
    ensures r.Some? && r.value.VariableWithoutType? ==>
              s.variables.Some? && r.value.name in s.variables.value && s.variables.value[r.value.name].typ == ""
  {
    match s.variables
    case None => Some(VariablesRequired)
    case Some(vars) =>
      match FirstUntyped(order, vars)
      case None => None
      case Some(n) => Some(VariableWithoutType(n))
  }

  /** validateFileHash: an empty hash is not checked; otherwise the original bytes must hash to it. */
  function ValidateFileHash(lib: Lib, f: FileSpec): (r: Option<SchemaError>)
    ensures f.hash == "" ==> r == None
    ensures r.Some? ==> r.value.DecompressFailed? || r.value.HashMismatch?
    ensures r == None <==>
              f.hash == "" ||
              (DecompressContent(lib, f.content, f.compressed).Ok? &&
               ContentHash(lib, DecompressContent(lib, f.content, f.compressed).value) == f.hash)
  {
    if f.hash == "" then None
    else match DecompressContent(lib, f.content, f.compressed)
      case Err(cause) => Some(DecompressFailed(f.path, cause))
      case Ok(content) =>
        var calculated := ContentHash(lib, content);
        if f.hash != calculated then Some(HashMismatch(f.path, f.hash, calculated)) else None
  }

  /** validateFileSpec: path, then content, then the hash. */
  function ValidateFileSpec(lib: Lib, f: FileSpec, index: nat): (r: Option<SchemaError>)
    ensures f.path == "" ==> r == Some(FileWithoutPath(index))
    ensures f.path != "" && f.content == "" ==> r == Some(FileWithoutContent(f.path))
    ensures r == None <==> f.path != "" && f.content != "" && ValidateFileHash(lib, f) == None
  {
    if f.path == "" then Some(FileWithoutPath(index))
    else if f.content == "" then Some(FileWithoutContent(f.path))
    else ValidateFileHash(lib, f)
  }

  /** Whether one file passes every per-file check. */
  predicate FileValid(lib: Lib, f: FileSpec) {
    f.path != "" && f.content != "" && ValidateFileHash(lib, f) == None
  }

  /** The files from index `from` on, checked in index order; the first failure is reported. */
  function ValidateFilesFrom(lib: Lib, files: seq<FileSpec>, from: nat): (r: Option<SchemaError>)
    requires from <= |files|
    ensures r == None <==> forall i :: from <= i < |files| ==> FileValid(lib, files[i])
    ensures r.Some? ==> exists k :: from <= k < |files| && ValidateFileSpec(lib, files[k], k) == r &&
                                   forall j :: from <= j < k ==> FileValid(lib, files[j])
    decreases |files| - from
  {
    if from == |files| then None
    else match ValidateFileSpec(lib, files[from], from)
      case Some(e) => Some(e)
      case None => ValidateFilesFrom(lib, files, from + 1)
  }

  /** validateSchemaFiles: at least one file, then every file in index order. */
  function ValidateSchemaFiles(lib: Lib, files: seq<FileSpec>): (r: Option<SchemaError>)
    ensures |files| == 0 ==> r == Some(NoFiles)
    ensures r == None <==> |files| > 0 && forall i :: 0 <= i < |files| ==> FileValid(lib, files[i])
  {
    if |files| == 0 then Some(NoFiles) else ValidateFilesFrom(lib, files, 0)
  }

  /** Every invariant a schema must satisfy, stated without an order of checking. */
  ghost predicate SchemaValid(lib: Lib, s: TemplateSchema) {
    && s.name != "" && s.typ != "" && s.version != ""
    && s.variables.Some? && (forall n :: n in s.variables.value ==> s.variables.value[n].typ != "")
    && |s.files| > 0 && (forall i :: 0 <= i < |s.files| ==> FileValid(lib, s.files[i]))
  }

  /**
   * ValidateSchema: basic fields, then variables, then files; the first violation only. It
   * passes exactly on valid schemas, so whether it passes does not depend on `order`.
   */
  function ValidateSchema(lib: Lib, s: TemplateSchema, order: seq<string>): (r: Option<SchemaError>)
    requires s.variables.Some? ==> IsKeyOrder(order, s.variables.value)
    ensures r == None <==> SchemaValid(lib, s)
    ensures ValidateBasicFields(s).Some? ==> r == ValidateBasicFields(s)
    ensures ValidateBasicFields(s).None? && s.variables.None? ==> r == Some(VariablesRequired)
    ensures ValidateBasicFields(s).None? && ValidateSchemaVariables(s, order).Some? ==> r == ValidateSchemaVariables(s, order)
    ensures ValidateBasicFields(s).None? && ValidateSchemaVariables(s, order).None? ==> r == ValidateSchemaFiles(lib, s.files)
  {
    match ValidateBasicFields(s)
    case Some(e) => Some(e)
    case None =>
      match ValidateSchemaVariables(s, order)
      case Some(e) => Some(e)
      case None => ValidateSchemaFiles(lib, s.files)
  }

  /** A schema missing its name reports exactly that, whatever else is wrong with it. */
  lemma MissingNameWins(lib: Lib, s: TemplateSchema, order: seq<string>)
    requires s.variables.Some? ==> IsKeyOrder(order, s.variables.value)
    requires s.name == ""
    ensures ValidateSchema(lib, s, order) == Some(NameRequired)
  {
  }

  /**
   * A file whose stored content no longer hashes to its recorded hash is reported by path,
   * with both hashes: an edited content without an updated hash is caught.
   */
  lemma HashMismatchDetected(lib: Lib, f: FileSpec, index: nat)
    requires f.path != "" && f.content != "" && f.hash != "" && !f.compressed
    requires ContentHash(lib, f.content) != f.hash
    ensures ValidateFileSpec(lib, f, index) == Some(HashMismatch(f.path, f.hash, ContentHash(lib, f.content)))
  {
  }

  /** The error reported for a variable name, when the variable is required and unbound. */
  datatype VariableError = ProjectNameRequired | GitHubRepoRequired | AuthorRequired | DescriptionRequired

  /**
   * The check one declared variable must pass: only the four well-known names are checked.
   * ProjectName and GitHubRepo ignore the default; Author and Description accept it.
   */
  function CheckVariable(name: string, v: Variable, vars: TemplateVariables): (r: Option<VariableError>)
    ensures !v.required ==> r == None
    ensures name !in {"ProjectName", "GitHubRepo", "Author", "Description"} ==> r == None
  {
    if !v.required then None
    else if name == "ProjectName" then (if vars.projectName == "" then Some(ProjectNameRequired) else None)
    else if name == "GitHubRepo" then (if vars.gitHubRepo == "" then Some(GitHubRepoRequired) else None)
    else if name == "Author" then (if vars.author == "" && v.default == "" then Some(AuthorRequired) else None)
    else if name == "Description" then (if vars.description == "" && v.default == "" then Some(DescriptionRequired) else None)
    else None
  }

  /** Whether the bound values satisfy one declared variable, stated as a rule per name. */
  predicate VariableBound(name: string, v: Variable, vars: TemplateVariables) {
    v.required ==>
      (name == "ProjectName" ==> vars.projectName != "") &&
      (name == "GitHubRepo" ==> vars.gitHubRepo != "") &&
      (name == "Author" ==> vars.author != "" || v.default != "") &&
      (name == "Description" ==> vars.description != "" || v.default != "")
  }

  lemma {:induction false} CheckVariableBound(name: string, v: Variable, vars: TemplateVariables)
    ensures CheckVariable(name, v, vars) == None <==> VariableBound(name, v, vars)
  {
  }

  /** The variables in iteration order `order`, checked in turn; the first failure is reported. */
  function CheckVariablesIn(order: seq<string>, decl: map<string, Variable>, vars: TemplateVariables): (r: Option<VariableError>)
    requires forall i :: 0 <= i < |order| ==> order[i] in decl
    ensures r == None <==> forall i :: 0 <= i < |order| ==> VariableBound(order[i], decl[order[i]], vars)
    ensures r.Some? ==> exists i :: 0 <= i < |order| && CheckVariable(order[i], decl[order[i]], vars) == r
    decreases |order|
  {
    if |order| == 0 then None
    else
      CheckVariableBound(order[0], decl[order[0]], vars);
      match CheckVariable(order[0], decl[order[0]], vars)
      case Some(e) => Some(e)
      case None => CheckVariablesIn(order[1..], decl, vars)
  }

  /**
   * ValidateVariables: every required well-known variable is bound. Ranging over a nil map
   * checks nothing. Whether it passes does not depend on the iteration order.
   */
  function ValidateVariables(s: TemplateSchema, vars: TemplateVariables, order: seq<string>): (r: Option<VariableError>)
    requires s.variables.Some? ==> IsKeyOrder(order, s.variables.value)
    ensures s.variables.None? ==> r == None
    ensures s.variables.Some? ==>
              (r == None <==> forall n :: n in s.variables.value ==> VariableBound(n, s.variables.value[n], vars))
  {
    match s.variables
    case None => None
    case Some(decl) =>
      var r := CheckVariablesIn(order, decl, vars);
      assert r == None <==> forall n :: n in decl ==> VariableBound(n, decl[n], vars) by {
        if r == None {
          forall n | n in decl ensures VariableBound(n, decl[n], vars) {
            var i :| 0 <= i < |order| && order[i] == n;
          }
        }
      }
      r
  }

  /** A required ProjectName fails on an empty value even when it declares a default. */
  lemma ProjectNameIgnoresDefault(s: TemplateSchema, vars: TemplateVariables, order: seq<string>)
    requires s.variables.Some? && IsKeyOrder(order, s.variables.value)
    requires "ProjectName" in s.variables.value && s.variables.value["ProjectName"].required
    requires s.variables.value["ProjectName"].default != ""
    requires vars.projectName == ""
    ensures ValidateVariables(s, vars, order).Some?
  {
    assert !VariableBound("ProjectName", s.variables.value["ProjectName"], vars);
  }

  /** Required variables other than the four well-known ones never fail the check. */
  lemma CustomVariablesUnchecked(s: TemplateSchema, vars: TemplateVariables, order: seq<string>, name: string, v: Variable)
    requires s.variables.Some? && IsKeyOrder(order, s.variables.value)
    requires IsKeyOrder(order + [name], s.variables.value[name := v])
    requires name !in s.variables.value && name !in {"ProjectName", "GitHubRepo", "Author", "Description"}
    ensures (ValidateVariables(s.(variables := Some(s.variables.value[name := v])), vars, order + [name]) == None)
         <==> (ValidateVariables(s, vars, order) == None)
  {
    var m := s.variables.value;
    var m' := m[name := v];
    assert name != "ProjectName" && name != "GitHubRepo" && name != "Author" && name != "Description";
    assert VariableBound(name, v, vars);
    if forall n :: n in m ==> VariableBound(n, m[n], vars) {
      forall n | n in m' ensures VariableBound(n, m'[n], vars) {
        if n != name {
          assert m'[n] == m[n];
        }
      }
    }
    if forall n :: n in m' ==> VariableBound(n, m'[n], vars) {
      forall n | n in m ensures VariableBound(n, m[n], vars) {
        assert n != name && n in m' && m'[n] == m[n];
      }
    }
  }
}
