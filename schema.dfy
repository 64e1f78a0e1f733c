/** The schema datatypes of internal/core/types.go, plus the env-file metadata they carry. */
module Schema {
  import opened Wrappers

  /** A declared template variable. */
  datatype Variable = Variable(typ: string, required: bool, default: string, description: string)

  /** A literal find/replace pair applied to a templated file before evaluation. */
  datatype Mapping = Mapping(find: string, replace: string)

  /** One file of the template; `content` is base64(gzip(original)) when `compressed`. */
  datatype FileSpec = FileSpec(
    path: string,
    template: bool,
    content: string,
    size: int,
    hash: string,
    compressed: bool,
    mappings: seq<Mapping>)

  /** One assignment of a `.env.example` file with the comment that describes it. */
  datatype EnvVariable = EnvVariable(name: string, description: string, example: string)

  /** The extracted template; `variables` is None for a schema whose variables map is nil. */
  datatype TemplateSchema = TemplateSchema(
    name: string,
    typ: string,
    version: string,
    description: string,
    variables: Option<map<string, Variable>>,
    files: seq<FileSpec>,
    hooks: map<string, seq<string>>,
    envConfig: seq<EnvVariable>,
    hash: string)

  /** The values bound at generation time. */
  datatype TemplateVariables = TemplateVariables(
    projectName: string, gitHubRepo: string, author: string, description: string)

  /**
   * One possible iteration order of a Go map: every key exactly once. Go leaves the order
   * unspecified, so the model takes it as an input.
   */
  ghost predicate IsKeyOrder<V>(order: seq<string>, m: map<string, V>) {
    && (forall k :: k in m <==> k in order)
    && (forall i, j :: 0 <= i < j < |order| ==> order[i] != order[j])
  }
}
