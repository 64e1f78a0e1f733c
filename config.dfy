/**
 * The reference-project configuration of internal/config/discovery.go: a map from template type
 * to the directory of a reference project, with defaults, a fallback when the file cannot be
 * used, and the resolution of a relative path against the working directory. Paths use '/'.
 * The environment, the home directory, the working directory and the config file's state are
 * inputs.
 */
module Config {
  import opened Wrappers

  datatype ReferenceProject = ReferenceProject(path: string, description: string, version: string)

  const FrontendPath: string := "../frontend-template"
  const FrontendDescription: string := "React + TypeScript + Vite frontend template"
  const GoApiPath: string := "../api-template"
  const GoApiDescription: string := "Go API with Gin + PostgreSQL + Clean Architecture"

  /** The references of DefaultReferenceConfig. */
  function DefaultReferences(): map<string, ReferenceProject> {
    map["frontend" := ReferenceProject(FrontendPath, FrontendDescription, ""),
        "go-api" := ReferenceProject(GoApiPath, GoApiDescription, "")]
  }

  // ----- paths -----

  /** filepath.IsAbs with '/' as the separator. */
  predicate IsAbs(path: string) {
    |path| > 0 && path[0] == '/'
  }

  /** filepath.Join of two elements: empty elements are dropped, the others joined by '/'. */
  function Join(dir: string, elem: string): (r: string)
    ensures dir == "" ==> r == elem
    ensures elem == "" ==> r == dir
    ensures dir != "" && elem != "" ==> |r| == |dir| + 1 + |elem| && r[..|dir|] == dir && r[|dir|] == '/' && r[|dir| + 1..] == elem
  {
    if dir == "" then elem else if elem == "" then dir else dir + "/" + elem
  }

  /** A path joined onto an absolute directory is absolute. */
  lemma JoinAbsolute(dir: string, elem: string)
    requires IsAbs(dir)
    ensures IsAbs(Join(dir, elem))
  {
  }

  const ConfigDirName: string := "template-engine"
  const ConfigFileName: string := "references.json"
  const FallbackConfigPath: string := ".template-engine.json"

  /**
   * getConfigPath: under $XDG_CONFIG_HOME when it is set and non-empty, else under
   * <home>/.config, else (no home directory) the fallback file in the working directory.
   */
  function ConfigPath(xdgConfigHome: string, home: Option<string>): (r: string)
    ensures xdgConfigHome != "" ==> r == Join(Join(xdgConfigHome, ConfigDirName), ConfigFileName)
    ensures xdgConfigHome == "" && home.Some? ==> r == Join(Join(Join(home.value, ".config"), ConfigDirName), ConfigFileName)
    ensures xdgConfigHome == "" && home.None? ==> r == FallbackConfigPath
  {
    if xdgConfigHome != "" then Join(Join(xdgConfigHome, ConfigDirName), ConfigFileName)
    else match home
      case None => FallbackConfigPath
      case Some(h) => Join(Join(Join(h, ".config"), ConfigDirName), ConfigFileName)
  }

  /** With $XDG_CONFIG_HOME set, the config file is "<xdg>/template-engine/references.json", whatever the home directory. */
  lemma ConfigPathUnderXdg(xdgConfigHome: string, home: Option<string>, otherHome: Option<string>)
    requires xdgConfigHome != ""
    ensures ConfigPath(xdgConfigHome, home) == xdgConfigHome + "/" + ConfigDirName + "/" + ConfigFileName
    ensures ConfigPath(xdgConfigHome, home) == ConfigPath(xdgConfigHome, otherHome)
  {
    assert Join(xdgConfigHome, ConfigDirName) == xdgConfigHome + "/" + ConfigDirName;
  }

  // ----- loading -----

  /** The config file at the config path: absent, unreadable, not JSON of a config, or parsed (References may be nil). */
  datatype ConfigFile = Absent | Unreadable | Malformed | Parsed(references: Option<map<string, ReferenceProject>>)

  /** What LoadConfig returns, and whether it tries to save the defaults first. */
  datatype Loaded = Loaded(references: Option<map<string, ReferenceProject>>, savesDefault: bool)

  /** LoadConfig: the parsed file, or the defaults whenever the file cannot be used; never an error. */
  function LoadConfig(file: ConfigFile): (r: Loaded)
    ensures r.savesDefault <==> file == Absent
    ensures file.Parsed? ==> r.references == file.references
    ensures !file.Parsed? ==> r.references == Some(DefaultReferences())
  {
    match file
    case Absent => Loaded(Some(DefaultReferences()), true)
    case Unreadable => Loaded(Some(DefaultReferences()), false)
    case Malformed => Loaded(Some(DefaultReferences()), false)
    case Parsed(refs) => Loaded(refs, false)
  }

  /** The references a nil-able map holds. */
  function Entries(references: Option<map<string, ReferenceProject>>): map<string, ReferenceProject> {
    if references.Some? then references.value else map[]
  }

  /** Storing under a key adds one entry exactly when the key is new. */
  lemma {:induction false} StoreCount(m: map<string, ReferenceProject>, k: string, v: ReferenceProject)
    ensures |m[k := v]| == if k in m then |m| else |m| + 1
  {
    if k in m {
      assert m[k := v].Keys == m.Keys;
    } else {
      assert m[k := v].Keys == m.Keys + {k};
    }
  }

  const UnknownTypePrefix: string := "unknown template type: "
  const WorkingDirPrefix: string := "failed to get working directory: "

  /**
   * GetReferencePath with `wd` the outcome of os.Getwd: the stored path if absolute, else the
   * path joined onto the working directory.
   */
  function ReferencePath(references: Option<map<string, ReferenceProject>>, templateType: string, wd: Result<string, string>)
    : (r: Result<string, string>)
    ensures templateType !in Entries(references) ==> r == Err(UnknownTypePrefix + templateType)
    ensures templateType in Entries(references) ==>
              var p := Entries(references)[templateType].path;
              && (IsAbs(p) ==> r == Ok(p))
              && (!IsAbs(p) && wd.Ok? ==> r == Ok(Join(wd.value, p)))
              && (!IsAbs(p) && wd.Err? ==> r == Err(WorkingDirPrefix + wd.error))
  {
    var refs := Entries(references);
    if templateType !in refs then Err(UnknownTypePrefix + templateType)
    else
      var p := refs[templateType].path;
      if IsAbs(p) then Ok(p)
      else match wd
        case Err(e) => Err(WorkingDirPrefix + e)
        case Ok(dir) => Ok(Join(dir, p))
  }

  /** From an absolute working directory, every configured type resolves to an absolute path. */
  lemma ReferencePathAbsolute(references: Option<map<string, ReferenceProject>>, templateType: string, wd: string)
    requires templateType in Entries(references) && IsAbs(wd)
    ensures ReferencePath(references, templateType, Ok(wd)).Ok?
    ensures IsAbs(ReferencePath(references, templateType, Ok(wd)).value)
  {
    if !IsAbs(Entries(references)[templateType].path) {
      JoinAbsolute(wd, Entries(references)[templateType].path);
    }
  }

  /**
   * The defaults: "frontend" and "go-api", each with a non-empty relative path and description
   * and no version; resolved from the working directory they are joined onto it.
   */
  lemma DefaultReferencesContents(wd: string)
    ensures DefaultReferences().Keys == {"frontend", "go-api"}
    ensures forall t :: t in DefaultReferences() ==>
              var ref := DefaultReferences()[t];
              ref.path != "" && ref.description != "" && ref.version == "" && !IsAbs(ref.path)
    ensures ReferencePath(Some(DefaultReferences()), "frontend", Ok(wd)) == Ok(Join(wd, FrontendPath))
    ensures ReferencePath(Some(DefaultReferences()), "go-api", Ok(wd)) == Ok(Join(wd, GoApiPath))
  {
    assert FrontendPath[0] == '.' && GoApiPath[0] == '.';
    assert "frontend" != "go-api" by { assert "frontend"[0] != "go-api"[0]; }
  }

  class ReferenceConfig {
    /** The References map; None is Go's nil map. */
    var references: Option<map<string, ReferenceProject>>

    /** A config holding the given references (as LoadConfig returns it). */
    constructor (references: Option<map<string, ReferenceProject>>)
      ensures this.references == references
    {
      this.references := references;
    }

    /** GetReferencePath of this config. */
    function GetReferencePath(templateType: string, wd: Result<string, string>): (r: Result<string, string>)
      reads this
      ensures r == ReferencePath(references, templateType, wd)
    {
      ReferencePath(references, templateType, wd)
    }

    /** AddReference: create the map if nil, then store the type's path and description with no version. */
    method AddReference(templateType: string, path: string, description: string)
      modifies this
      ensures references == Some(Entries(old(references))[templateType := ReferenceProject(path, description, "")])
      ensures |Entries(references)| == if templateType in Entries(old(references)) then |Entries(old(references))| else |Entries(old(references))| + 1
    {
      var refs := map[];
      if references.Some? {
        refs := references.value;
      }
      StoreCount(refs, templateType, ReferenceProject(path, description, ""));
      references := Some(refs[templateType := ReferenceProject(path, description, "")]);
    }

    /** ListTemplateTypes: every configured type exactly once, in map order. */
    method ListTemplateTypes() returns (types: seq<string>)
      ensures forall t :: t in types <==> t in Entries(references)
      ensures forall i, j :: 0 <= i < j < |types| ==> types[i] != types[j]
      ensures |types| == |Entries(references)|
    {
      types := [];
      var remaining := Entries(references).Keys;
      while remaining != {}
        invariant remaining <= Entries(references).Keys
        invariant forall t :: t in types <==> t in Entries(references) && t !in remaining
        invariant forall i, j :: 0 <= i < j < |types| ==> types[i] != types[j]
        invariant |types| + |remaining| == |Entries(references).Keys|
        decreases remaining
      {
        var t :| t in remaining;
        types := types + [t];
        remaining := remaining - {t};
      }
    }
  }

  /** DefaultReferenceConfig. */
  method NewDefaultConfig() returns (c: ReferenceConfig)
    ensures fresh(c) && c.references == Some(DefaultReferences())
  {
    c := new ReferenceConfig(Some(DefaultReferences()));
  }

  /** Adding a reference and reading it back: the new path resolves, every other type is unchanged. */
  lemma AddThenResolve(references: Option<map<string, ReferenceProject>>, t: string, path: string, description: string,
                       other: string, wd: Result<string, string>)
    requires other != t
    ensures var added := Some(Entries(references)[t := ReferenceProject(path, description, "")]);
      && ReferencePath(added, t, wd) == ReferencePath(Some(map[t := ReferenceProject(path, description, "")]), t, wd)
      && ReferencePath(added, other, wd) == ReferencePath(references, other, wd)
  {
  }
}
