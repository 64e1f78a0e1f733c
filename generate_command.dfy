/**
 * The `generate` command of internal/generate/run.go: the argument loop of Run, the two required
 * flags, and the checks generate() makes on the disk before it builds a Generator. Which paths
 * exist is an input.
 */
module GenerateCommand {
  import opened Wrappers
  import opened CommandLine

  const DefaultOutputDir: string := "./"

  /** What Run hands to generate(): the template file, the output directory and the two values. */
  datatype GenerateRequest = GenerateRequest(templateFile: string, outputDir: string, projectName: string, gitHubRepo: string)

  datatype RunError =
    | Usage
    | Flag(flagError: FlagError)
    | ProjectNameRequired
    | GitHubRepoRequired
    | TemplateMissing(templateFile: string)
    | OutputExists(outputDir: string)

  /** The values the flags of `generate` set. */
  datatype GenerateFlags = GenerateFlags(projectName: string, gitHubRepo: string, outputDir: string)

  predicate IsGenerateFlag(arg: string) {
    arg == "--project-name" || arg == "--github-repo" || arg == "--output-dir"
  }

  function StoreGenerateFlag(st: GenerateFlags, flag: string, value: string): GenerateFlags {
    if flag == "--project-name" then st.(projectName := value)
    else if flag == "--github-repo" then st.(gitHubRepo := value)
    else st.(outputDir := value)
  }

  function ParseGenerateFlags(args: seq<string>): Result<GenerateFlags, FlagError> {
    ParseFrom(IsGenerateFlag, StoreGenerateFlag, args, 1, GenerateFlags("", "", DefaultOutputDir))
  }

  /** The checks after the loop: the project name first, then the repository. */
  function RequireValues(templateFile: string, st: GenerateFlags): (r: Result<GenerateRequest, RunError>)
    ensures st.projectName == "" ==> r == Err(ProjectNameRequired)
    ensures st.projectName != "" && st.gitHubRepo == "" ==> r == Err(GitHubRepoRequired)
    ensures r.Ok? <==> st.projectName != "" && st.gitHubRepo != ""
    ensures r.Ok? ==> r.value == GenerateRequest(templateFile, st.outputDir, st.projectName, st.gitHubRepo)
  {
    if st.projectName == "" then Err(ProjectNameRequired)
    else if st.gitHubRepo == "" then Err(GitHubRepoRequired)
    else Ok(GenerateRequest(templateFile, st.outputDir, st.projectName, st.gitHubRepo))
  }

  /** What Run does with its arguments (those after the command name). */
  function RunSpec(args: seq<string>): Result<GenerateRequest, RunError> {
    if |args| == 0 then Err(Usage)
    else match ParseGenerateFlags(args)
      case Err(e) => Err(Flag(e))
      case Ok(st) => RequireValues(args[0], st)
  }

  /** Run: the template file first, then the three flags, each with a value. */
  method Run(args: seq<string>) returns (r: Result<GenerateRequest, RunError>)
    ensures r == RunSpec(args)
  {
    if |args| == 0 {
      return Err(Usage);
    }
    var templateFile := args[0];
    var outputDir := DefaultOutputDir;
    var projectName := "";
    var gitHubRepo := "";
    var i := 1;
    while i < |args|
      invariant 1 <= i <= |args|
      invariant ParseGenerateFlags(args)
             == ParseFrom(IsGenerateFlag, StoreGenerateFlag, args, i, GenerateFlags(projectName, gitHubRepo, outputDir))
    {
      var arg := args[i];
      if arg == "--project-name" {
        if i + 1 >= |args| {
          return Err(Flag(MissingValue(arg)));
        }
        projectName := args[i + 1];
        i := i + 1;
      } else if arg == "--github-repo" {
        if i + 1 >= |args| {
          return Err(Flag(MissingValue(arg)));
        }
        gitHubRepo := args[i + 1];
        i := i + 1;
      } else if arg == "--output-dir" {
        if i + 1 >= |args| {
          return Err(Flag(MissingValue(arg)));
        }
        outputDir := args[i + 1];
        i := i + 1;
      } else {
        return Err(Flag(UnknownFlag(arg)));
      }
      i := i + 1;
    }
    if projectName == "" {
      return Err(ProjectNameRequired);
    }
    if gitHubRepo == "" {
      return Err(GitHubRepoRequired);
    }
    return Ok(GenerateRequest(templateFile, outputDir, projectName, gitHubRepo));
  }

  /**
   * The checks generate() makes before building a Generator: the template file must exist, then
   * the output directory must not.
   */
  function PathChecks(req: GenerateRequest, onDisk: string -> bool): (r: Option<RunError>)
    ensures r == None <==> onDisk(req.templateFile) && !onDisk(req.outputDir)
    ensures !onDisk(req.templateFile) ==> r == Some(TemplateMissing(req.templateFile))
    ensures onDisk(req.templateFile) && onDisk(req.outputDir) ==> r == Some(OutputExists(req.outputDir))
  {
    if !onDisk(req.templateFile) then Some(TemplateMissing(req.templateFile))
    else if onDisk(req.outputDir) then Some(OutputExists(req.outputDir))
    else None
  }

  /** Both flags given: the request carries them, with the default output directory unless set. */
  lemma BothValuesGiven(templateFile: string, name: string, repo: string)
    requires name != "" && repo != ""
    ensures RunSpec([templateFile, "--project-name", name, "--github-repo", repo])
         == Ok(GenerateRequest(templateFile, DefaultOutputDir, name, repo))
  {
    var start := GenerateFlags("", "", DefaultOutputDir);
    LastOccurrenceWins(IsGenerateFlag, StoreGenerateFlag, [templateFile], 1, start, "--project-name", name);
    var named := [templateFile] + ["--project-name", name];
    LastOccurrenceWins(IsGenerateFlag, StoreGenerateFlag, named, 1, start, "--github-repo", repo);
    assert named + ["--github-repo", repo] == [templateFile, "--project-name", name, "--github-repo", repo];
  }

  /** A missing project name is reported even when the repository is missing too. */
  lemma ProjectNameReportedFirst(templateFile: string)
    ensures RunSpec([templateFile]) == Err(ProjectNameRequired)
  {
  }

  /**
   * Without `--output-dir` the request names "./", the working directory, which exists; so
   * generate() always stops with "output directory already exists" unless the flag is given.
   */
  lemma DefaultOutputDirAlwaysExists(args: seq<string>, onDisk: string -> bool)
    requires RunSpec(args).Ok? && onDisk(args[0]) && onDisk(DefaultOutputDir)
    requires forall j :: 1 <= j < |args| ==> args[j] != "--output-dir"
    ensures PathChecks(RunSpec(args).value, onDisk) == Some(OutputExists(DefaultOutputDir))
  {
    KeepsOutputDir(args, 1, GenerateFlags("", "", DefaultOutputDir));
  }

  /** The loop only changes the output directory at an `--output-dir` flag. */
  lemma {:induction false} KeepsOutputDir(args: seq<string>, i: nat, st: GenerateFlags)
    requires forall j :: 1 <= j < |args| ==> args[j] != "--output-dir"
    requires i >= 1
    requires ParseFrom(IsGenerateFlag, StoreGenerateFlag, args, i, st).Ok?
    ensures ParseFrom(IsGenerateFlag, StoreGenerateFlag, args, i, st).value.outputDir == st.outputDir
    decreases |args| - i
  {
    if i < |args| {
      KeepsOutputDir(args, i + 2, StoreGenerateFlag(st, args[i], args[i + 1]));
    }
  }
}
