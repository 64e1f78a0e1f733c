/**
 * The three template types of internal/templates: which walk paths are skipped, which files are
 * templated, the literal mappings of each templated file, the declared variables and the fixed
 * identity of the schema each type extracts. Paths use '/' as the separator.
 */
module Templates {
  import opened Wrappers
  import opened Text
  import opened Schema
  import Validation

  /** The template types; the source's TemplateType interface as a closed datatype. */
  datatype TemplateKind = Frontend | GoApi | Fullstack {
    function Name(): string {
      match this
      case Frontend => "frontend"
      case GoApi => "go-api"
      case Fullstack => "fullstack"
    }

    function SchemaName(): string {
      match this
      case Frontend => "frontend-react-template"
      case GoApi => "go-api-template"
      case Fullstack => "fullstack-template"
    }

    function SchemaDescription(): string {
      match this
      case Frontend => "React TypeScript frontend template with Tailwind CSS"
      case GoApi => "Go REST API template with Gin and PostgreSQL"
      case Fullstack => "Fullstack template with Go API backend and React frontend"
    }

    /** The commands run after generation, under the single key "post_generate". */
    function PostGenerate(): seq<string> {
      match this
      case Frontend => ["npm install"]
      case GoApi => ["go mod tidy", "go build"]
      case Fullstack => ["go mod tidy", "cd frontend && npm install"]
    }

    /** Only the frontend type stores content through CompressContent. */
    predicate Compresses() {
      this == Frontend
    }

    /** The go-api type never looks at `.env.example`. */
    predicate ParsesEnvExample() {
      this != GoApi
    }

    /** Consulted with the full walk path of each non-directory. */
    predicate ShouldSkip(path: string) {
      match this
      case Frontend => FrontendShouldSkip(path)
      case GoApi => GoApiShouldSkip(path)
      case Fullstack => FullstackShouldSkip(path)
    }

    /** Consulted with the path relative to the extracted directory. */
    predicate ShouldTemplate(relPath: string) {
      match this
      case Frontend => FrontendShouldTemplate(relPath)
      case GoApi => GoApiShouldTemplate(relPath)
      case Fullstack => FullstackShouldTemplate(relPath)
    }

    function GetMappings(relPath: string): seq<Mapping> {
      match this
      case Frontend => FrontendMappings(relPath)
      case GoApi => GoApiMappings(relPath)
      case Fullstack => FullstackMappings(relPath)
    }

    /** The default of the Description variable differs per type. */
    function DefaultDescription(): string {
      match this
      case Frontend => "A React TypeScript application"
      case GoApi => "A Go REST API application"
      case Fullstack => "A fullstack application with Go API and React frontend"
    }

    function ProjectNameDescription(): string {
      match this
      case Frontend => "Name of the project"
      case GoApi => "Name of the API project"
      case Fullstack => "Name of the fullstack project"
    }

    function GetVariables(): map<string, Variable> {
      VariablesWith(ProjectNameDescription(), DefaultDescription())
    }
  }

  /** The four variables every type declares; only two of the texts differ between types. */
  function VariablesWith(projectNameDescription: string, defaultDescription: string): map<string, Variable> {
    map[
      "ProjectName" := Variable("string", true, "", projectNameDescription),
      "GitHubRepo" := Variable("string", true, "", "GitHub repository (e.g., username/repo-name)"),
      "Author" := Variable("string", false, "Developer", "Project author name"),
      "Description" := Variable("string", false, defaultDescription, "Project description")
    ]
  }

  const Version: string := "1.0.0"

  /** The env file the frontend and fullstack types read from the root of the extracted directory. */
  const EnvExample: string := ".env.example"

  // ----- shouldSkipCommon -----

  /** A skip directory matches as "/d/" inside the path, "/d" at its end or "d/" at its start. */
  predicate MatchesSkipDir(path: string, d: string) {
    Contains(path, "/" + d + "/") || HasSuffix(path, "/" + d) || HasPrefix(path, d + "/")
  }

  /** The loop over the skip directories. */
  predicate AnySkipDir(path: string, dirs: seq<string>)
    decreases |dirs|
  {
    |dirs| > 0 && (MatchesSkipDir(path, dirs[0]) || AnySkipDir(path, dirs[1..]))
  }

  /** shouldSkipCommon, rule by rule in the source's order. */
  predicate ShouldSkipCommon(path: string, skipDirs: seq<string>) {
    if Contains(path, ".github") then false
    else if Contains(path, ".git") && !Contains(path, ".github") then true
    else
      var baseName := Base(path);
      if HasPrefix(baseName, ".") && baseName != ".github" && !Contains(path, ".github") then true
      else if AnySkipDir(path, skipDirs) then true
      else HasSuffix(baseName, ".log")
  }

  /** `d` occupies a whole component of `path` at index i: slashes or the path's ends around it. */
  predicate ComponentAt(path: string, d: string, i: int) {
    && OccursAt(path, d, i)
    && (i == 0 || path[i - 1] == '/')
    && (i + |d| == |path| || path[i + |d|] == '/')
  }

  /** A "/d/" occurrence at j is the component d at j + 1. */
  lemma InnerComponent(path: string, d: string, j: int)
    requires OccursAt(path, "/" + d + "/", j)
    ensures ComponentAt(path, d, j + 1) && path != d
  {
    var inner := "/" + d + "/";
    var w := path[j..j + |inner|];
    assert w[0] == '/' && w[|d| + 1] == '/';
    assert inner[1..1 + |d|] == d;
    var v := path[j + 1..j + 1 + |d|];
    assert forall k :: 0 <= k < |d| ==> v[k] == w[1 + k];
  }

  /** The component d at i, away from both ends of the path, is a "/d/" occurrence at i - 1. */
  lemma ComponentInner(path: string, d: string, i: int)
    requires ComponentAt(path, d, i) && i > 0 && i + |d| < |path|
    ensures OccursAt(path, "/" + d + "/", i - 1)
  {
    assert path[i - 1..i + |d| + 1] == [path[i - 1]] + path[i..i + |d|] + [path[i + |d|]];
  }

  /** Each of the three spellings of a match places d as a component. */
  lemma MatchIsComponent(path: string, d: string)
    requires MatchesSkipDir(path, d)
    ensures path != d && exists i :: ComponentAt(path, d, i)
  {
    var inner := "/" + d + "/";
    ContainsIff(path, inner);
    if Contains(path, inner) {
      var j :| OccursAt(path, inner, j);
      InnerComponent(path, d, j);
    } else if HasSuffix(path, "/" + d) {
      var i := |path| - |d|;
      assert path[i..] == path[i - 1..][1..];
      assert ComponentAt(path, d, i);
    } else {
      assert path[..|d|] == path[..|d| + 1][..|d|];
      assert ComponentAt(path, d, 0);
    }
  }

  /** A component other than the whole path is spelled in one of the three ways. */
  lemma ComponentIsMatch(path: string, d: string, i: int)
    requires ComponentAt(path, d, i) && path != d
    ensures MatchesSkipDir(path, d)
  {
    if i > 0 && i + |d| < |path| {
      ComponentInner(path, d, i);
      ContainsIff(path, "/" + d + "/");
    } else if i > 0 {
      assert path[i - 1..] == [path[i - 1]] + path[i..i + |d|];
    } else {
      assert path[..|d| + 1] == path[i..i + |d|] + [path[i + |d|]];
    }
  }

  /**
   * A skip directory matches exactly when it is a whole component of the path and not the
   * whole path: a bare `d`, or `d` inside a longer name, does not match.
   */
  lemma MatchesSkipDirIff(path: string, d: string)
    ensures MatchesSkipDir(path, d) <==> path != d && exists i :: ComponentAt(path, d, i)
  {
    if MatchesSkipDir(path, d) {
      MatchIsComponent(path, d);
    }
    if path != d && exists i :: ComponentAt(path, d, i) {
      var i :| ComponentAt(path, d, i);
      ComponentIsMatch(path, d, i);
    }
  }

  /** The skip-directory loop finds a match exactly when some listed directory matches. */
  lemma {:induction false} AnySkipDirIff(path: string, dirs: seq<string>)
    ensures AnySkipDir(path, dirs) <==> exists k :: 0 <= k < |dirs| && MatchesSkipDir(path, dirs[k])
    decreases |dirs|
  {
    if |dirs| > 0 {
      AnySkipDirIff(path, dirs[1..]);
      if k :| 0 <= k < |dirs| && MatchesSkipDir(path, dirs[k]) {
        if k > 0 {
          assert dirs[1..][k - 1] == dirs[k];
        }
      }
    }
  }

  /**
   * The common rules as one condition: a path mentioning ".github" is always kept; any other path
   * is skipped when it mentions ".git", when its base name is hidden, when a skip directory is a
   * component of it, or when its base name ends in ".log".
   */
  lemma ShouldSkipCommonIff(path: string, skipDirs: seq<string>)
    ensures ShouldSkipCommon(path, skipDirs) <==>
      && !Contains(path, ".github")
      && (|| Contains(path, ".git")
          || HasPrefix(Base(path), ".")
          || (exists k :: 0 <= k < |skipDirs| && MatchesSkipDir(path, skipDirs[k]))
          || HasSuffix(Base(path), ".log"))
  {
    AnySkipDirIff(path, skipDirs);
    var b := Base(path);
    if b == ".github" && !Contains(path, ".github") {
      // The base name is a piece of the path, so the path would mention ".github".
      var p := DropTrailingSlashes(path);
      var a := AfterLastSlash(p);
      assert path[a..a + |b|] == p[a..] == b;
      assert OccursAt(path, ".github", a);
      ContainsIff(path, ".github");
    }
  }

  /** Only the base name is checked for a leading '.': a plain file in a hidden directory passes. */
  lemma HiddenDirectoryNotHidden(dir: string, name: string)
    requires '/' !in name && name != "" && name[0] != '.'
    ensures !HasPrefix(Base(dir + "/" + name), ".")
  {
    BaseJoin(dir, name);
  }

  // ----- frontend -----

  const FrontendSkipDirs: seq<string> := ["node_modules", "dist", "build", "coverage"]

  predicate FrontendShouldSkip(path: string) {
    ShouldSkipCommon(path, FrontendSkipDirs)
  }

  /** A hidden file in a path not mentioning ".github" is skipped by the common rules. */
  lemma HiddenFileSkipped(dir: string, name: string, skipDirs: seq<string>)
    requires '/' !in name && name != "" && name[0] == '.'
    requires !Contains(dir + "/" + name, ".github")
    ensures ShouldSkipCommon(dir + "/" + name, skipDirs)
  {
    BaseJoin(dir, name);
    assert name[..1] == [name[0]];
    ShouldSkipCommonIff(dir + "/" + name, skipDirs);
  }

  /** A `.env.example` file is hidden, so the frontend walk drops it from the files. */
  lemma FrontendDropsEnvExample(dir: string)
    requires !Contains(dir + "/" + EnvExample, ".github")
    ensures FrontendShouldSkip(dir + "/" + EnvExample)
  {
    HiddenFileSkipped(dir, EnvExample, FrontendSkipDirs);
  }

  /**
   * ShouldSkip sees the full walk path, so extracting from inside a directory named "build"
   * skips every file.
   */
  lemma FrontendSkipsUnderBuildDir(parent: string, rest: string)
    requires !Contains(parent + "/build/" + rest, ".github")
    ensures FrontendShouldSkip(parent + "/build/" + rest)
  {
    var path := parent + "/build/" + rest;
    assert path[|parent|..|parent| + 7] == "/build/";
    assert OccursAt(path, "/" + "build" + "/", |parent|);
    ContainsIff(path, "/" + "build" + "/");
    assert MatchesSkipDir(path, FrontendSkipDirs[2]);
    AnySkipDirIff(path, FrontendSkipDirs);
  }

  const FrontendTemplated: seq<string> := ["package.json", "README.md", "src/config/app.ts", "index.html"]

  predicate FrontendShouldTemplate(relPath: string) {
    relPath in FrontendTemplated
  }

  const FrontendPackageJsonMappings: seq<Mapping> :=
    [ Mapping("\"frontend-template\"", "\"{{.ProjectName}}\""),
      Mapping("\"Your Name\"", "\"{{.Author}}\"") ]

  const FrontendAppConfigMappings: seq<Mapping> :=
    [ Mapping("'Frontend Template'", "'{{.ProjectName}}'"),
      Mapping("'Your Name'", "'{{.Author}}'") ]

  const FrontendReadmeMappings: seq<Mapping> :=
    [ Mapping("# Frontend Template", "# {{.ProjectName}}"),
      Mapping("https://github.com/your-username/frontend-template", "https://github.com/{{.GitHubRepo}}") ]

  const FrontendIndexHtmlMappings: seq<Mapping> :=
    [ Mapping("<title>Frontend Template</title>", "<title>{{.ProjectName}}</title>") ]

  function FrontendMappings(relPath: string): seq<Mapping> {
    if relPath == "package.json" then FrontendPackageJsonMappings
    else if relPath == "src/config/app.ts" then FrontendAppConfigMappings
    else if relPath == "README.md" then FrontendReadmeMappings
    else if relPath == "index.html" then FrontendIndexHtmlMappings
    else []
  }

  // ----- go-api -----

  const GoApiSkipPatterns: seq<string> := [".git", ".DS_Store", "vendor", "bin", "tmp", "*.log", ".env", "coverage.out"]

  /** The loop over plain substring patterns. */
  predicate ContainsAny(path: string, patterns: seq<string>)
    decreases |patterns|
  {
    |patterns| > 0 && (Contains(path, patterns[0]) || ContainsAny(path, patterns[1..]))
  }

  predicate GoApiShouldSkip(path: string) {
    ContainsAny(path, GoApiSkipPatterns)
  }

  /** The go-api rule is a plain substring test, with no globbing of "*.log". */
  lemma {:induction false} ContainsAnyIff(path: string, patterns: seq<string>)
    ensures ContainsAny(path, patterns) <==> exists k, i :: 0 <= k < |patterns| && OccursAt(path, patterns[k], i)
    decreases |patterns|
  {
    if |patterns| > 0 {
      ContainsAnyIff(path, patterns[1..]);
      ContainsIff(path, patterns[0]);
      if k, i :| 0 <= k < |patterns| && OccursAt(path, patterns[k], i) {
        if k > 0 {
          assert OccursAt(path, patterns[1..][k - 1], i);
        }
      }
      if ContainsAny(path, patterns[1..]) {
        var k, i :| 0 <= k < |patterns[1..]| && OccursAt(path, patterns[1..][k], i);
        assert OccursAt(path, patterns[k + 1], i);
      }
    }
  }

  /** Any path with "bin" anywhere in it is skipped by go-api, such as "cabinet.go". */
  lemma GoApiSkipsBinAnywhere(before: string, after: string)
    ensures GoApiShouldSkip(before + "bin" + after)
  {
    var path := before + "bin" + after;
    assert path[|before|..|before| + 3] == "bin";
    assert OccursAt(path, GoApiSkipPatterns[3], |before|);
    ContainsAnyIff(path, GoApiSkipPatterns);
  }

  const GoApiTemplated: seq<string> :=
    ["go.mod", "README.md", "docker-compose.yml", "cmd/api/main.go", "internal/shared/config/config.go", "Makefile"]

  predicate GoApiShouldTemplate(relPath: string) {
    relPath in GoApiTemplated || HasSuffix(relPath, ".go")
  }

  const GoApiGoModMappings: seq<Mapping> :=
    [ Mapping("module github.com/acheevo/api-template", "module github.com/{{.GitHubRepo}}") ]

  const GoApiMainMappings: seq<Mapping> :=
    [ Mapping("\"github.com/acheevo/api-template/", "\"github.com/{{.GitHubRepo}}/") ]

  const GoApiReadmeMappings: seq<Mapping> :=
    [ Mapping("# Go API Template", "# {{.ProjectName}}"),
      Mapping("git clone https://github.com/acheevo/api-template.git", "git clone https://github.com/{{.GitHubRepo}}.git"),
      Mapping("cd api-template", "cd {{.ProjectName | kebab}}") ]

  const GoApiComposeMappings: seq<Mapping> :=
    [ Mapping("api-template", "{{.ProjectName | kebab}}") ]

  const GoApiConfigMappings: seq<Mapping> :=
    [ Mapping("ServiceName    string `envconfig:\"SERVICE_NAME\" default:\"api-template\"`",
              "ServiceName    string `envconfig:\"SERVICE_NAME\" default:\"{{.ProjectName | kebab}}\"`"),
      Mapping("DBName            string `envconfig:\"DB_NAME\" default:\"api_template\"`",
              "DBName            string `envconfig:\"DB_NAME\" default:\"{{.ProjectName | lower}}\"`") ]

  const GoApiMakefileMappings: seq<Mapping> :=
    [ Mapping("docker build -t api-template .", "docker build -t {{.ProjectName | kebab}} ."),
      Mapping("docker rmi api-template", "docker rmi {{.ProjectName | kebab}}") ]

  const GoApiImportsMappings: seq<Mapping> :=
    [ Mapping("\"github.com/acheevo/api-template/", "\"github.com/{{.GitHubRepo}}/") ]

  function GoApiMappings(relPath: string): seq<Mapping> {
    if relPath == "go.mod" then GoApiGoModMappings
    else if relPath == "cmd/api/main.go" then GoApiMainMappings
    else if relPath == "README.md" then GoApiReadmeMappings
    else if relPath == "docker-compose.yml" then GoApiComposeMappings
    else if relPath == "internal/shared/config/config.go" then GoApiConfigMappings
    else if relPath == "Makefile" then GoApiMakefileMappings
    else if HasSuffix(relPath, ".go") then GoApiImportsMappings
    else []
  }

  // ----- fullstack -----

  const ImportantDotfiles: seq<string> := [".dockerignore", ".gitignore", ".golangci.yml", ".golangci.yaml", ".env.example"]

  const FullstackSkipDirs: seq<string> := ["vendor", "bin", "tmp", "coverage", "dist", "build"]

  /** The fullstack rules in the source's order; the first that applies decides. */
  predicate FullstackShouldSkip(path: string) {
    var baseName := Base(path);
    if Contains(path, "node_modules") then true
    else if baseName == "api" && !HasSuffix(path, ".go") then true
    else if baseName in ImportantDotfiles then false
    else if Contains(path, ".claude") then false
    else ShouldSkipCommon(path, FullstackSkipDirs)
  }

  /**
   * node_modules beats every carve-out; a base name "api" is always skipped (such a path can
   * never end in ".go"); important dotfiles and anything under ".claude" are kept; everything
   * else falls to the common rules.
   */
  lemma FullstackSkipRules(path: string)
    ensures Contains(path, "node_modules") ==> FullstackShouldSkip(path)
    ensures Base(path) == "api" ==> FullstackShouldSkip(path)
    ensures !Contains(path, "node_modules") && Base(path) in ImportantDotfiles ==> !FullstackShouldSkip(path)
    ensures !Contains(path, "node_modules") && Base(path) != "api" && Contains(path, ".claude") ==> !FullstackShouldSkip(path)
    ensures (!Contains(path, "node_modules") && Base(path) != "api" && Base(path) !in ImportantDotfiles &&
             !Contains(path, ".claude")) ==> FullstackShouldSkip(path) == ShouldSkipCommon(path, FullstackSkipDirs)
  {
    if Base(path) == "api" {
      if |path| > 0 {
        BaseLastChar(path);
      }
    }
  }

  /** The important dotfiles are kept by fullstack though the common rules alone would skip them. */
  lemma ImportantDotfileShape(k: nat)
    requires k < |ImportantDotfiles|
    ensures var name := ImportantDotfiles[k]; '/' !in name && name != "" && name[0] == '.' && name != "api"
  {
    if k == 0 {} else if k == 1 {} else if k == 2 {} else if k == 3 {} else {}
  }

  lemma FullstackKeepsDotfiles(dir: string, k: nat)
    requires k < |ImportantDotfiles|
    requires !Contains(dir + "/" + ImportantDotfiles[k], "node_modules")
    requires !Contains(dir + "/" + ImportantDotfiles[k], ".github")
    ensures !FullstackShouldSkip(dir + "/" + ImportantDotfiles[k])
    ensures ShouldSkipCommon(dir + "/" + ImportantDotfiles[k], FullstackSkipDirs)
  {
    var name := ImportantDotfiles[k];
    ImportantDotfileShape(k);
    BaseJoin(dir, name);
    HiddenFileSkipped(dir, name, FullstackSkipDirs);
  }


  const FullstackTemplated: seq<string> :=
    [ "go.mod", "README.md", "docker-compose.yml", "cmd/api/main.go", "internal/shared/config/config.go",
      "Makefile", "frontend/package.json", "frontend/index.html", "frontend/src/config/app.ts" ]

  predicate FullstackShouldTemplate(relPath: string) {
    relPath in FullstackTemplated || HasSuffix(relPath, ".go")
  }

  const FullstackGoModMappings: seq<Mapping> :=
    [ Mapping("module github.com/acheevo/fullstack-template", "module github.com/{{.GitHubRepo}}") ]

  const FullstackMainMappings: seq<Mapping> :=
    [ Mapping("\"github.com/acheevo/fullstack-template/", "\"github.com/{{.GitHubRepo}}/") ]

  const FullstackReadmeMappings: seq<Mapping> :=
    [ Mapping("# Fullstack Template", "# {{.ProjectName}}"),
      Mapping("# Go + React Fullstack Template", "# {{.ProjectName}}"),
      Mapping("git clone https://github.com/acheevo/fullstack-template.git", "git clone https://github.com/{{.GitHubRepo}}.git"),
      Mapping("cd fullstack-template", "cd {{.ProjectName | kebab}}") ]

  const FullstackComposeMappings: seq<Mapping> :=
    [ Mapping("fullstack-template", "{{.ProjectName | kebab}}"),
      Mapping("fullstack_template", "{{.ProjectName | snake}}") ]

  const FullstackConfigMappings: seq<Mapping> :=
    [ Mapping("ServiceName    string `envconfig:\"SERVICE_NAME\" default:\"fullstack-template\"`",
              "ServiceName    string `envconfig:\"SERVICE_NAME\" default:\"{{.ProjectName | kebab}}\"`"),
      Mapping("DBName            string `envconfig:\"DB_NAME\" default:\"fullstack_template\"`",
              "DBName            string `envconfig:\"DB_NAME\" default:\"{{.ProjectName | snake}}\"`") ]

  const FullstackMakefileMappings: seq<Mapping> :=
    [ Mapping("docker build -t fullstack-template", "docker build -t {{.ProjectName | kebab}}"),
      Mapping("docker rmi fullstack-template", "docker rmi {{.ProjectName | kebab}}") ]

  const FullstackPackageJsonMappings: seq<Mapping> :=
    [ Mapping("\"name\": \"fullstack-template\"", "\"name\": \"{{.ProjectName | kebab}}\""),
      Mapping("\"description\": \"Fullstack template\"", "\"description\": \"{{.Description}}\"") ]

  const FullstackIndexHtmlMappings: seq<Mapping> :=
    [ Mapping("<title>Fullstack Template</title>", "<title>{{.ProjectName}}</title>") ]

  const FullstackAppConfigMappings: seq<Mapping> :=
    [ Mapping("APP_NAME: 'Fullstack Template'", "APP_NAME: '{{.ProjectName}}'") ]

  const FullstackImportsMappings: seq<Mapping> :=
    [ Mapping("\"github.com/acheevo/fullstack-template/", "\"github.com/{{.GitHubRepo}}/") ]

  function FullstackMappings(relPath: string): seq<Mapping> {
    if relPath == "go.mod" then FullstackGoModMappings
    else if relPath == "cmd/api/main.go" then FullstackMainMappings
    else if relPath == "README.md" then FullstackReadmeMappings
    else if relPath == "docker-compose.yml" then FullstackComposeMappings
    else if relPath == "internal/shared/config/config.go" then FullstackConfigMappings
    else if relPath == "Makefile" then FullstackMakefileMappings
    else if relPath == "frontend/package.json" then FullstackPackageJsonMappings
    else if relPath == "frontend/index.html" then FullstackIndexHtmlMappings
    else if relPath == "frontend/src/config/app.ts" then FullstackAppConfigMappings
    else if HasSuffix(relPath, ".go") then FullstackImportsMappings
    else []
  }

  // ----- properties shared by the three types -----

  /**
   * A file gets mappings exactly when it is templated, and every mapping has a non-empty find
   * string (an empty one would insert its replacement between every pair of bytes).
   */
  lemma MappingsIffTemplated(kind: TemplateKind, relPath: string)
    ensures kind.GetMappings(relPath) != [] <==> kind.ShouldTemplate(relPath)
    ensures forall m :: m in kind.GetMappings(relPath) ==> m.find != ""
  {
    match kind
    case Frontend => FrontendMappingsIff(relPath);
    case GoApi => GoApiMappingsIff(relPath);
    case Fullstack => FullstackMappingsIff(relPath);
  }

  lemma FrontendMappingsIff(relPath: string)
    ensures FrontendMappings(relPath) != [] <==> FrontendShouldTemplate(relPath)
    ensures forall m :: m in FrontendMappings(relPath) ==> m.find != ""
  {
  }

  lemma GoApiMappingsIff(relPath: string)
    ensures GoApiMappings(relPath) != [] <==> GoApiShouldTemplate(relPath)
    ensures forall m :: m in GoApiMappings(relPath) ==> m.find != ""
  {
  }

  lemma FullstackMappingsIff(relPath: string)
    ensures FullstackMappings(relPath) != [] <==> FullstackShouldTemplate(relPath)
    ensures forall m :: m in FullstackMappings(relPath) ==> m.find != ""
  {
  }

  /**
   * Every type declares the same four string variables: ProjectName and GitHubRepo required
   * with no default, Author optional with default "Developer", Description optional with a
   * non-empty default.
   */
  lemma DeclaredVariables(kind: TemplateKind)
    ensures kind.GetVariables().Keys == {"ProjectName", "GitHubRepo", "Author", "Description"}
    ensures forall n :: n in kind.GetVariables() ==> kind.GetVariables()[n].typ == "string"
    ensures kind.GetVariables()["ProjectName"].required && kind.GetVariables()["GitHubRepo"].required
    ensures !kind.GetVariables()["Author"].required && kind.GetVariables()["Author"].default == "Developer"
    ensures !kind.GetVariables()["Description"].required && kind.GetVariables()["Description"].default != ""
  {
    VariablesWithShape(kind.ProjectNameDescription(), kind.DefaultDescription());
    match kind
    case Frontend => assert |Frontend.DefaultDescription()| > 0;
    case GoApi => assert |GoApi.DefaultDescription()| > 0;
    case Fullstack => assert |Fullstack.DefaultDescription()| > 0;
  }

  /** The shared declarations, with the two per-type texts left open. */
  lemma VariablesWithShape(pd: string, dd: string)
    ensures VariablesWith(pd, dd).Keys == {"ProjectName", "GitHubRepo", "Author", "Description"}
    ensures forall n :: n in VariablesWith(pd, dd) ==> VariablesWith(pd, dd)[n].typ == "string"
    ensures VariablesWith(pd, dd)["ProjectName"].required && VariablesWith(pd, dd)["GitHubRepo"].required
    ensures !VariablesWith(pd, dd)["Author"].required && VariablesWith(pd, dd)["Author"].default == "Developer"
    ensures !VariablesWith(pd, dd)["Description"].required && VariablesWith(pd, dd)["Description"].default == dd
  {
    assert "ProjectName"[0] != "GitHubRepo"[0] && "ProjectName"[0] != "Author"[0] && "ProjectName"[0] != "Description"[0];
    assert "GitHubRepo"[0] != "Author"[0] && "GitHubRepo"[0] != "Description"[0] && "Author"[0] != "Description"[0];
  }

  /**
   * Against its own declarations, variable validation passes exactly when the project name and
   * the repository are given; Author and Description always fall back to their defaults.
   */
  lemma DeclaredVariablesDemand(kind: TemplateKind, s: TemplateSchema, vars: TemplateVariables, order: seq<string>)
    requires s.variables == Some(kind.GetVariables()) && IsKeyOrder(order, kind.GetVariables())
    ensures Validation.ValidateSchemaVariables(s, order) == None
    ensures Validation.ValidateVariables(s, vars, order) == None <==> vars.projectName != "" && vars.gitHubRepo != ""
  {
    var decl := kind.GetVariables();
    DeclaredVariables(kind);
    assert forall i :: 0 <= i < |order| ==> decl[order[i]].typ != "";
    if vars.projectName != "" && vars.gitHubRepo != "" {
      forall n | n in decl ensures Validation.VariableBound(n, decl[n], vars) {
      }
    } else if vars.projectName == "" {
      assert !Validation.VariableBound("ProjectName", decl["ProjectName"], vars);
    } else {
      assert !Validation.VariableBound("GitHubRepo", decl["GitHubRepo"], vars);
    }
  }
}
