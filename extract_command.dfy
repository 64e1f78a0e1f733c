/**
 * The `extract` command of internal/extract/run.go: the argument loop of Run, the type check of
 * RunWithParams, and the two counters of the summary it prints. The registered type names shown
 * in the missing-type message are an input, since the registry lists them in map order.
 */
module ExtractCommand {
  import opened Wrappers
  import opened Schema
  import opened CommandLine

  const DefaultOutputFile: string := "template.json"

  /** What Run hands to the extraction: the source directory, the output file and the type. */
  datatype ExtractRequest = ExtractRequest(sourceDir: string, outputFile: string, templateType: string)

  datatype RunError = Usage | Flag(flagError: FlagError) | TypeRequired(available: seq<string>)

  /** The values the flags of `extract` set. */
  datatype ExtractFlags = ExtractFlags(outputFile: string, templateType: string)

  predicate IsExtractFlag(arg: string) {
    arg == "-o" || arg == "--output" || arg == "--type"
  }

  function StoreExtractFlag(st: ExtractFlags, flag: string, value: string): ExtractFlags {
    if flag == "--type" then st.(templateType := value) else st.(outputFile := value)
  }

  /** The argument loop of Run, from index 1, as the shared flag-loop function. */
  function ParseExtractFlags(args: seq<string>): Result<ExtractFlags, FlagError> {
    ParseFrom(IsExtractFlag, StoreExtractFlag, args, 1, ExtractFlags(DefaultOutputFile, ""))
  }

  /** RunWithParams: an empty type is refused before anything is extracted. */
  function RunWithParams(sourceDir: string, outputFile: string, templateType: string, registered: seq<string>)
    : (r: Result<ExtractRequest, RunError>)
    ensures r.Err? <==> templateType == ""
    ensures r.Err? ==> r.error == TypeRequired(registered)
    ensures r.Ok? ==> r.value == ExtractRequest(sourceDir, outputFile, templateType)
  {
    if templateType == "" then Err(TypeRequired(registered)) else Ok(ExtractRequest(sourceDir, outputFile, templateType))
  }

  /** What Run does with its arguments (those after the command name). */
  function RunSpec(args: seq<string>, registered: seq<string>): Result<ExtractRequest, RunError> {
    if |args| == 0 then Err(Usage)
    else match ParseExtractFlags(args)
      case Err(e) => Err(Flag(e))
      case Ok(st) => RunWithParams(args[0], st.outputFile, st.templateType, registered)
  }

  /** Run: the source directory first, then `-o`/`--output` and `--type`, each with a value. */
  method Run(args: seq<string>, registered: seq<string>) returns (r: Result<ExtractRequest, RunError>)
    ensures r == RunSpec(args, registered)
  {
    if |args| == 0 {
      return Err(Usage);
    }
    var sourceDir := args[0];
    var outputFile := DefaultOutputFile;
    var templateType := "";
    var i := 1;
    while i < |args|
      invariant 1 <= i <= |args|
      invariant ParseExtractFlags(args) == ParseFrom(IsExtractFlag, StoreExtractFlag, args, i, ExtractFlags(outputFile, templateType))
    {
      var arg := args[i];
      if arg == "-o" || arg == "--output" {
        if i + 1 >= |args| {
          return Err(Flag(MissingValue(arg)));
        }
        outputFile := args[i + 1];
        i := i + 1;
      } else if arg == "--type" {
        if i + 1 >= |args| {
          return Err(Flag(MissingValue(arg)));
        }
        templateType := args[i + 1];
        i := i + 1;
      } else {
        return Err(Flag(UnknownFlag(arg)));
      }
      i := i + 1;
    }
    r := RunWithParams(sourceDir, outputFile, templateType, registered);
  }

  /** With only a source directory, the output file is the default and the missing type is refused. */
  lemma SourceDirOnly(sourceDir: string, registered: seq<string>)
    ensures RunSpec([sourceDir], registered) == Err(TypeRequired(registered))
  {
  }

  /** `--type` given at the end of a list that parses sets the type, and the request goes through. */
  lemma TypeFlagSetsType(args: seq<string>, t: string, registered: seq<string>)
    requires |args| > 0 && ParseExtractFlags(args).Ok? && t != ""
    ensures RunSpec(args + ["--type", t], registered)
         == Ok(ExtractRequest(args[0], ParseExtractFlags(args).value.outputFile, t))
  {
    LastOccurrenceWins(IsExtractFlag, StoreExtractFlag, args, 1, ExtractFlags(DefaultOutputFile, ""), "--type", t);
  }

  // ----- the summary counters -----

  /** The number of templated files. */
  function Templated(files: seq<FileSpec>): nat
    decreases |files|
  {
    if |files| == 0 then 0 else Templated(files[..|files| - 1]) + if files[|files| - 1].template then 1 else 0
  }

  /** countTemplatedFiles. */
  method CountTemplatedFiles(files: seq<FileSpec>) returns (count: int)
    ensures count == Templated(files)
  {
    count := 0;
    var i := 0;
    while i < |files|
      invariant 0 <= i <= |files|
      invariant count == Templated(files[..i])
    {
      assert files[..i + 1][..i] == files[..i];
      if files[i].template {
        count := count + 1;
      }
      i := i + 1;
    }
    assert files[..i] == files;
  }

  /** The count is at most the number of files, zero exactly when none is templated and full exactly when all are. */
  lemma {:induction false} TemplatedBounds(files: seq<FileSpec>)
    ensures Templated(files) <= |files|
    ensures Templated(files) == 0 <==> forall j :: 0 <= j < |files| ==> !files[j].template
    ensures Templated(files) == |files| <==> forall j :: 0 <= j < |files| ==> files[j].template
    decreases |files|
  {
    if |files| > 0 {
      var init := files[..|files| - 1];
      TemplatedBounds(init);
      assert forall j :: 0 <= j < |init| ==> init[j] == files[j];
    }
  }

  /** The two's complement wrap-around of Go's int64 arithmetic. */
  function Wrap64(x: int): (r: int)
    ensures -0x8000_0000_0000_0000 <= r < 0x8000_0000_0000_0000
    ensures (r - x) % 0x1_0000_0000_0000_0000 == 0
  {
    (x + 0x8000_0000_0000_0000) % 0x1_0000_0000_0000_0000 - 0x8000_0000_0000_0000
  }

  /** The exact sum of the sizes. */
  function SizeSum(files: seq<FileSpec>): int
    decreases |files|
  {
    if |files| == 0 then 0 else SizeSum(files[..|files| - 1]) + files[|files| - 1].size
  }

  /** Wrapping after every addition is the same as wrapping the exact sum once. */
  lemma WrapAdd(a: int, b: int)
    ensures Wrap64(Wrap64(a) + b) == Wrap64(a + b)
  {
    var k := (Wrap64(a) - a) / 0x1_0000_0000_0000_0000;
    assert Wrap64(a) == a + k * 0x1_0000_0000_0000_0000;
    ShiftWrap(a + b, k);
  }

  /** Adding a multiple of 2^64 does not change the wrapped value. */
  lemma ShiftWrap(x: int, k: int)
    ensures Wrap64(x + k * 0x1_0000_0000_0000_0000) == Wrap64(x)
  {
    var y := x + 0x8000_0000_0000_0000;
    var q, r := y / 0x1_0000_0000_0000_0000, y % 0x1_0000_0000_0000_0000;
    assert y + k * 0x1_0000_0000_0000_0000 == (q + k) * 0x1_0000_0000_0000_0000 + r;
  }

  /** calculateTotalSize: the sum of the sizes in int64, which wraps around on overflow. */
  method CalculateTotalSize(files: seq<FileSpec>) returns (total: int)
    ensures total == Wrap64(SizeSum(files))
  {
    total := 0;
    var i := 0;
    while i < |files|
      invariant 0 <= i <= |files|
      invariant total == Wrap64(SizeSum(files[..i]))
    {
      assert files[..i + 1][..i] == files[..i];
      WrapAdd(SizeSum(files[..i]), files[i].size);
      total := Wrap64(total + files[i].size);
      i := i + 1;
    }
    assert files[..i] == files;
  }

  /** Without overflow the total is the exact sum, and it is never negative for non-negative sizes. */
  lemma {:induction false} SizeSumBounds(files: seq<FileSpec>)
    requires forall j :: 0 <= j < |files| ==> files[j].size >= 0
    ensures SizeSum(files) >= 0
    ensures SizeSum(files) < 0x8000_0000_0000_0000 ==> Wrap64(SizeSum(files)) == SizeSum(files)
    decreases |files|
  {
    if |files| > 0 {
      var init := files[..|files| - 1];
      assert forall j :: 0 <= j < |init| ==> init[j] == files[j];
      SizeSumBounds(init);
    }
  }
}
