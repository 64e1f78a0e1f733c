/**
 * The directory walk of the three Extract methods of internal/templates as a fold over its
 * callbacks, and the schema hash they share (calculateSchemaHash). Nothing here depends on the
 * template type: the type supplies the skip rule and the FileSpec builder.
 */
module Walk {
  import opened Wrappers
  import opened Schema
  import opened Codec

  /**
   * One callback of the walk, in walk order: a visited entry with its full path, its path
   * relative to the extracted directory, whether it is a directory, the size the walk reports and
   * the bytes a read returns (None when the read fails); or an error the walk passes in.
   */
  datatype WalkEntry =
    | Visit(path: string, relPath: string, isDir: bool, size: int, content: Option<string>)
    | WalkError(path: string)

  datatype ExtractError = WalkFailed(path: string) | ReadFailed(path: string)

  /** The entries that become files: visited non-directories that the skip rule keeps. */
  predicate Kept(skip: string -> bool, e: WalkEntry) {
    e.Visit? && !e.isDir && !skip(e.path)
  }

  /** Prefix the files already collected to the result of the rest of the walk. */
  function PrependFiles(files: seq<FileSpec>, rest: Result<seq<FileSpec>, ExtractError>): Result<seq<FileSpec>, ExtractError> {
    match rest
    case Ok(more) => Ok(files + more)
    case Err(e) => Err(e)
  }

  /**
   * The walk callback as a recursive fold: any walk error aborts, directories and skipped paths
   * are passed over, a failed read of a kept file aborts, and every other entry adds its FileSpec.
   */
  function WalkFold(skip: string -> bool, build: (string, int, string) -> FileSpec, walk: seq<WalkEntry>)
    : Result<seq<FileSpec>, ExtractError>
    decreases |walk|
  {
    if |walk| == 0 then Ok([])
    else
      var rest := WalkFold(skip, build, walk[1..]);
      match walk[0]
      case WalkError(p) => Err(WalkFailed(p))
      case Visit(path, relPath, isDir, size, content) =>
        if isDir || skip(path) then rest
        else match content
          case None => Err(ReadFailed(path))
          case Some(c) => PrependFiles([build(relPath, size, c)], rest)
  }

  /** The kept entries of a walk, in walk order. */
  function KeptEntries(skip: string -> bool, walk: seq<WalkEntry>): seq<WalkEntry>
    decreases |walk|
  {
    if |walk| == 0 then []
    else (if Kept(skip, walk[0]) then [walk[0]] else []) + KeptEntries(skip, walk[1..])
  }

  /** One entry the walk gets past: not an error, and readable if kept. */
  predicate Passable(skip: string -> bool, e: WalkEntry) {
    e.Visit? && (Kept(skip, e) ==> e.content.Some?)
  }

  /** A walk the extraction gets through: no walk error and every kept file readable. */
  predicate Readable(skip: string -> bool, walk: seq<WalkEntry>) {
    forall j :: 0 <= j < |walk| ==> Passable(skip, walk[j])
  }

  /** The walk succeeds exactly when it is readable. */
  lemma {:induction false} WalkFoldSucceeds(skip: string -> bool, build: (string, int, string) -> FileSpec, walk: seq<WalkEntry>)
    ensures WalkFold(skip, build, walk).Ok? <==> Readable(skip, walk)
    decreases |walk|
  {
    if |walk| > 0 {
      WalkFoldSucceeds(skip, build, walk[1..]);
      assert forall j :: 0 < j < |walk| ==> walk[1..][j - 1] == walk[j];
    }
  }

  /** files[j] is the FileSpec built from the j-th kept entry, for every j. */
  predicate BuiltFrom(build: (string, int, string) -> FileSpec, kept: seq<WalkEntry>, files: seq<FileSpec>) {
    && |files| == |kept|
    && forall j :: 0 <= j < |kept| ==>
         (kept[j].Visit? && kept[j].content.Some? &&
          files[j] == build(kept[j].relPath, kept[j].size, kept[j].content.value))
  }

  /** A successful walk yields one FileSpec per kept entry, in walk order, built from that entry. */
  lemma {:induction false} WalkFoldOnePerKeptEntry(skip: string -> bool, build: (string, int, string) -> FileSpec, walk: seq<WalkEntry>)
    requires WalkFold(skip, build, walk).Ok?
    ensures BuiltFrom(build, KeptEntries(skip, walk), WalkFold(skip, build, walk).value)
    decreases |walk|
  {
    if |walk| > 0 {
      var e, tail := walk[0], walk[1..];
      assert e.Visit?;
      var more, keptMore := WalkFold(skip, build, tail), KeptEntries(skip, tail);
      if Kept(skip, e) {
        var f := build(e.relPath, e.size, e.content.value);
        assert WalkFold(skip, build, walk) == PrependFiles([f], more);
        WalkFoldOnePerKeptEntry(skip, build, tail);
        var files, kept := [f] + more.value, [e] + keptMore;
        assert KeptEntries(skip, walk) == kept;
        forall j | 0 < j < |kept|
          ensures kept[j].Visit? && kept[j].content.Some?
          ensures files[j] == build(kept[j].relPath, kept[j].size, kept[j].content.value)
        {
          assert kept[j] == keptMore[j - 1] && files[j] == more.value[j - 1];
        }
      } else {
        assert WalkFold(skip, build, walk) == more;
        assert KeptEntries(skip, walk) == keptMore;
        WalkFoldOnePerKeptEntry(skip, build, tail);
      }
    }
  }

  /**
   * filepath.Walk with the Extract callback: every entry in walk order, stopping at the first
   * error the walk passes in or the first failed read of a kept file.
   */
  method WalkFiles(skip: string -> bool, build: (string, int, string) -> FileSpec, walk: seq<WalkEntry>)
    returns (r: Result<seq<FileSpec>, ExtractError>)
    ensures r == WalkFold(skip, build, walk)
  {
    var files: seq<FileSpec> := [];
    var i := 0;
    assert walk == walk[0..];
    assert WalkFold(skip, build, walk).Ok? ==> [] + WalkFold(skip, build, walk).value == WalkFold(skip, build, walk).value;
    while i < |walk|
      invariant 0 <= i <= |walk|
      invariant WalkFold(skip, build, walk) == PrependFiles(files, WalkFold(skip, build, walk[i..]))
    {
      assert walk[i..][1..] == walk[i + 1..];
      match walk[i] {
        case WalkError(p) =>
          return Err(WalkFailed(p));
        case Visit(path, relPath, isDir, size, content) =>
          if !(isDir || skip(path)) {
            if content.None? {
              return Err(ReadFailed(path));
            }
            var fileSpec := build(relPath, size, content.value);
            ghost var rest := WalkFold(skip, build, walk[i + 1..]);
            assert rest.Ok? ==> files + ([fileSpec] + rest.value) == (files + [fileSpec]) + rest.value;
            files := files + [fileSpec];
          }
      }
      i := i + 1;
    }
    assert files + [] == files;
    return Ok(files);
  }

  // ----- the schema hash -----

  /** The bytes calculateSchemaHash writes for the files: each path followed by its hash. */
  function FilesDigest(files: seq<FileSpec>): string
    decreases |files|
  {
    if |files| == 0 then "" else FilesDigest(files[..|files| - 1]) + files[|files| - 1].path + files[|files| - 1].hash
  }

  /** The preimage of the schema hash: name, type and version, then every path and hash. */
  function HashPreimage(s: TemplateSchema): string {
    s.name + s.typ + s.version + FilesDigest(s.files)
  }

  /** calculateSchemaHash: the builder loop, then SHA-256. */
  method CalculateSchemaHash(lib: Lib, s: TemplateSchema) returns (h: string)
    ensures h == lib.sha256Hex(HashPreimage(s))
  {
    var content := s.name + s.typ + s.version;
    var i := 0;
    while i < |s.files|
      invariant 0 <= i <= |s.files|
      invariant content == s.name + s.typ + s.version + FilesDigest(s.files[..i])
    {
      assert s.files[..i + 1][..i] == s.files[..i];
      content := content + s.files[i].path;
      content := content + s.files[i].hash;
      i := i + 1;
    }
    assert s.files[..i] == s.files;
    h := lib.sha256Hex(content);
  }

  /** The file digest reads only paths and hashes. */
  lemma {:induction false} FilesDigestReadsPathsAndHashes(a: seq<FileSpec>, b: seq<FileSpec>)
    requires |a| == |b| && forall j :: 0 <= j < |a| ==> a[j].path == b[j].path && a[j].hash == b[j].hash
    ensures FilesDigest(a) == FilesDigest(b)
    decreases |a|
  {
    if |a| > 0 {
      FilesDigestReadsPathsAndHashes(a[..|a| - 1], b[..|b| - 1]);
    }
  }

  /**
   * The schema hash depends on name, type, version and each file's path and hash only: content,
   * compression, templating, mappings, description, variables, hooks and env metadata do not
   * change it.
   */
  lemma SchemaHashIgnoresContent(s: TemplateSchema, t: TemplateSchema)
    requires s.name == t.name && s.typ == t.typ && s.version == t.version && |s.files| == |t.files|
    requires forall j :: 0 <= j < |s.files| ==> s.files[j].path == t.files[j].path && s.files[j].hash == t.files[j].hash
    ensures HashPreimage(s) == HashPreimage(t)
  {
    FilesDigestReadsPathsAndHashes(s.files, t.files);
  }
}
