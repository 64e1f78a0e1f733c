# template-engine, modelled in Dafny

This project models the core of the template engine in two phases.

- **Extraction** walks a project directory and produces a *schema*. The schema holds one entry (FileSpec) per kept file: its relative path, its content (gzip and base64 when that is shorter), a SHA-256 hash of the original bytes, a flag for templated files, and literal find/replace mappings. Three template types (frontend, go-api, fullstack) each decide:
  - which walk paths are skipped;
  - which files are templated;
  - which mappings a templated file carries;
  - which variables the schema declares.

  The frontend and fullstack types also read the variables documented in a root `.env.example`.
- **Generation** validates a schema and the project's variables, then writes every file in schema order.
  - A static file is written as its decompressed content.
  - A templated file goes through a string pipeline: its mappings, then protection of nine known template expressions behind placeholder tokens, then escaping of every other `{{` and `}}`, then restoration of the placeholders, then evaluation by the template engine, then unescaping.

Around these sit:
- a registry of template types;
- the `extract` and `generate` command lines;
- an SDK client with a cache of registered schemas and the errors it reports;
- the reference-project configuration.

Go's map iteration order is an explicit input wherever the code ranges over a map. The model proves which results do not depend on it.

The central result is `PipelineTheorem.ProcessTemplateMeaning`, together with `Generation.TemplatedFileMeaning`. It assumes that the file to be written does not mention any of the eleven words that the placeholders and escape tokens carry: PROJECT_NAME_PLACEHOLDER, GITHUB_REPO_PLACEHOLDER, AUTHOR_PLACEHOLDER, DESCRIPTION_PLACEHOLDER, PROJECT_NAME_KEBAB_PLACEHOLDER, PROJECT_NAME_SNAKE_PLACEHOLDER, PROJECT_NAME_UPPER_PLACEHOLDER, PROJECT_NAME_LOWER_PLACEHOLDER, PROJECT_NAME_TITLE_PLACEHOLDER, ESCAPED_LEFT_BRACE and ESCAPED_RIGHT_BRACE. Text and values with `_` are covered (a snake-cased name such as `my_app`, Go's `for _, v := range`, `DB_HOST`). Under that assumption, the pipeline writes the mapped text with each of the nine exactly-spelled expressions replaced by its value and every other character kept. The one exception is a lone `{` standing right before an expression (`{{{.ProjectName}}`): there the template engine reports a parse error. The orders in which Go visits the protection table do not matter.

Library calls are fields of a `Codec.Lib` value and are left uninterpreted:
- gzip (RFC 1952);
- base64 with the standard alphabet (section 4 of RFC 4648);
- SHA-256 (FIPS 180-4).

Round-trip lemmas require only `Codec.Lawful(lib)`, which says that decoding inverts encoding. The disk is also an input:
- the walk is a sequence of entries;
- existence is a predicate;
- the output tree is a map from relative path to content.

## Model

| member | source | states |
|---|---|---|
| Codec.CompressContent | internal/core/compression.go:16-43 | content under the 1024-byte threshold is stored verbatim with the flag false; a compressed result is base64(gzip(content)) and strictly shorter than the content; an uncompressed result is the content itself |
| Codec.DecompressContent | internal/core/compression.go:46-69 | with the flag false it is the identity; with the flag true, malformed base64 gives MalformedBase64, malformed gzip gives MalformedGzip, otherwise the gunzipped decoded bytes |
| Codec.CompressRoundTrip | internal/core/compression.go:16-69 | under lawful codecs, decompressing whatever CompressContent stored gives back the original content, whether or not it was compressed |
| Validation.ValidateBasicFields | internal/core/validation.go:23-37 | passes exactly when name, type and version are all non-empty; otherwise reports one of the three missing-field errors |
| Validation.FirstUntyped | internal/core/validation.go:45-49 | finds nothing exactly when every variable in the iteration order has a type; a name it reports is a variable declared without a type |
| Validation.ValidateSchemaVariables | internal/core/validation.go:40-52 | a nil map fails with VariablesRequired; a present map passes exactly when every variable has a type, whatever the iteration order, and a reported name is an untyped variable |
| Validation.ValidateFileHash | internal/core/validation.go:83-104 | an empty hash is not checked; otherwise it passes exactly when the content decompresses and the SHA-256 hex of the decompressed bytes equals the hash; any failure is a decompression error or a mismatch |
| Validation.ValidateFileSpec | internal/core/validation.go:70-80 | an empty path reports the file's index, an empty content reports its path, and the file passes exactly when both are set and the hash check passes |
| Validation.ValidateFilesFrom | internal/core/validation.go:60-64 | passes exactly when every file from the index on is valid; a failure is the error of the first invalid file, all files before it being valid |
| Validation.ValidateSchemaFiles | internal/core/validation.go:55-67 | an empty file list fails with NoFiles; otherwise it passes exactly when every file is valid |
| Validation.ValidateSchema | internal/core/validation.go:10-20 | passes exactly on schemas satisfying every invariant (so independently of map order); a basic-field error is reported first, then a nil variables map or an untyped variable, then the files' first error |
| Validation.MissingNameWins | internal/core/validation.go:10-26 | a schema without a name reports exactly NameRequired, whatever else is wrong with it |
| Validation.HashMismatchDetected | internal/core/validation.go:97-101 | an uncompressed file whose content does not hash to its recorded hash is reported as a mismatch naming its path and both hashes |
| Validation.CheckVariable | internal/core/validation.go:109-127 | a variable that is not required, or not one of the four well-known names, never fails |
| Validation.CheckVariableBound | internal/core/validation.go:109-127 | the per-variable check passes exactly when: ProjectName and GitHubRepo have non-empty values when required, ignoring any default; Author and Description have a non-empty value or default when required |
| Validation.CheckVariablesIn | internal/core/validation.go:108-129 | the loop passes exactly when every variable in the order is bound, and a failure is the error of one of them |
| Validation.ValidateVariables | internal/core/validation.go:107-132 | a nil map passes; otherwise the check passes exactly when every declared variable is bound, independently of the iteration order |
| Validation.ProjectNameIgnoresDefault | internal/core/validation.go:111-114 | a required ProjectName with a non-empty default still fails on an empty value |
| Validation.CustomVariablesUnchecked | internal/core/validation.go:110-127 | adding a required variable with any name other than the four well-known ones does not change whether the variables pass |
| Text.ContainsIff | internal/templates/common.go:16-23 | strings.Contains holds exactly when the substring occurs at some index |
| Text.ReplaceAllAbsent | internal/generate/generator.go:128 | a replace-all of a non-empty string that does not occur leaves the text unchanged |
| Text.ReplaceAllStep | internal/generate/generator.go:128 | where no occurrence starts, strings.ReplaceAll copies one character and goes on with the rest |
| Text.ReplaceAllCopies | internal/generate/generator.go:128 | a prefix in which no occurrence starts is copied unchanged in front of the replacement of the rest |
| Text.ReplaceAllSkip | internal/generate/generator.go:128 | a prefix in which no occurrence starts is copied and the scan continues after it |
| Text.ReplaceAllFront | internal/generate/generator.go:128 | an occurrence at the front is replaced and the scan resumes right after it, so replacements never overlap |
| Text.TrimSpace | internal/envparser/parser.go:18 | the result is a slice of the input outside which every character is a space and which, if non-empty, starts and ends with a non-space |
| Text.TrimSpaceKeeps | internal/envparser/parser.go:18 | trimming only removes characters: every character of the result occurs in the input |
| Text.Base | internal/templates/common.go:25 | the base name is never empty, and a non-empty path without '/' is its own base |
| Text.BaseJoin | internal/templates/common.go:25 | the base of a directory joined with a plain file name is that name |
| Text.IndexOf | internal/envparser/parser.go:37 | the first index of the character, so it does not occur before it; the length exactly when it does not occur |
| Expressions.KeyAt | internal/generate/generator.go:132-142 | reports an expression only when its spelling starts the text, and nothing only when no spelling starts it |
| Expressions.ReplacementsWellFormed | internal/generate/generator.go:132-150 | the nine spellings are "{{." followed by text without '{' and no '_', none is a prefix of another; the nine placeholders and two escape tokens are eleven distinct tokens of the "__WORD_WORD__" shape |
| Expressions.PlaceholdersDistinct | internal/generate/generator.go:133-141 | different expressions have different placeholders |
| Expressions.PlaceholderNotEscape | internal/generate/generator.go:133-150 | no placeholder is one of the two escape tokens |
| Expressions.KeyShape | internal/generate/generator.go:133-141 | each of the nine spellings is "{{." followed by text without '{' and has no underscore |
| Expressions.EscapesDistinct | internal/generate/generator.go:149-150 | the two escape tokens differ, so unescaping one never yields the other brace |
| Atoms.TokenizeSound | internal/generate/generator.go:132-146 | the left-to-right scan for the nine spellings spells the text back exactly, never splits a spelling, and emits a character atom only where no spelling starts |
| Atoms.RenderIsOutput | internal/generate/generator.go:157-167 | what the scanned atoms stand for is the reference rendering: each spelling replaced by its value, everything else kept |
| ProtectStage.ProtectMeaning | internal/generate/generator.go:144-146 | the protection loop replaces exactly the spellings found by the scan with their placeholders, in whatever order the table is visited |
| ProtectStage.ProtectOrderIndependent | internal/generate/generator.go:144-146 | any two iteration orders of the protection table give the same protected text |
| EscapeStage.EscapeStep | internal/generate/generator.go:149-150 | an escaping pass over protected text pairs neighbouring braces from the left into one escape token each, never touching a placeholder |
| EscapeStage.PairOutput | internal/generate/generator.go:149-150 | escaping keeps what the text finally stands for, since each token stands for the brace pair it replaced |
| EscapeStage.PairNoAdjacent | internal/generate/generator.go:149-150 | after an escaping pass no two braces of that kind stand next to each other |
| EscapeStage.PairClean | internal/generate/generator.go:149-150 | escaping introduces no expression spelling |
| EscapeStage.PairKeepsApart | internal/generate/generator.go:149-150 | escaping one kind of brace creates no neighbouring pair of the other kind |
| EscapeStage.PairNoNewBrace | internal/generate/generator.go:149-150 | escaping never puts a lone '{' in front of an expression that was not already there |
| RestoreStage.CleanStart | internal/generate/generator.go:153-155 | atoms whose meaning does not contain a token's word cannot spell text that continues that token after its first one or two underscores |
| RestoreStage.RestoreMeaning | internal/generate/generator.go:153-155 | on escaped text that mentions no token word the restoration loop turns every placeholder back into its spelling and nothing else, in whatever order the table is visited |
| EvaluateStage.EvalMeaning | internal/generate/generator.go:157-167 | evaluating restored text fails with a parse error exactly when a lone '{' precedes a spelling, and otherwise replaces each spelling by its value |
| EvaluateStage.UnescapeStep | internal/generate/generator.go:171-172 | on text that mentions no token word, an unescaping pass turns each escape token back into its brace pair and changes nothing else |
| EvaluateStage.UnescOutput | internal/generate/generator.go:171-172 | unescaping keeps what the text stands for |
| PipelineTheorem.FrontHalf | internal/generate/generator.go:144-150 | protecting then escaping any text gives the flattening of atoms that still render to the reference output, with no spelling and no two adjacent '{' |
| PipelineTheorem.MiddleHalf | internal/generate/generator.go:152-167 | restoring then evaluating such atoms, when they mention no token word, fails exactly when a lone '{' precedes an expression, and otherwise yields the expanded atoms |
| PipelineTheorem.BackHalf | internal/generate/generator.go:169-172 | unescaping the evaluated text gives what the atoms stand for, when that mentions no token word |
| PipelineTheorem.TransformMeaning | internal/generate/generator.go:144-172 | for any well-formed table and any visiting orders, when the reference rendering mentions no token word: a parse error exactly when a lone '{' precedes an expression, otherwise the reference rendering |
| PipelineTheorem.ProcessTemplateMeaning | internal/generate/generator.go:126-172 | the same for the generator's own table, when the file to be written mentions none of the eleven token words: the mapped content with each of the nine expressions replaced by its value, or the parse error |
| PipelineTheorem.TransformSucceeds | internal/generate/generator.go:144-172 | without a lone '{' before a spelling, and when the reference rendering mentions no token word, the pipeline succeeds with the reference rendering |
| PipelineTheorem.TransformBraceFails | internal/generate/generator.go:149-160 | "{" immediately followed by one of the nine spellings makes the template engine fail, whatever the values, when the text mentions no token word |
| PipelineTheorem.TransformPlainText | internal/generate/generator.go:144-172 | text without '{' that mentions no token word comes out of the pipeline unchanged, whatever the values |
| Sentinels.CapitalUnderscoreFree | internal/generate/generator.go:133-150 | each token word has an underscore right after a capital letter, so text in which no '_' follows a capital letter (such as `my_app` or `for _, v := range`) mentions none of them |
| Sentinels.NoUnderscoreNoTokenWords | internal/generate/generator.go:133-150 | each token word contains '_', so text without '_' mentions none of them |
| Generation.DefaultVariables | internal/generate/generator.go:37-43 | the generator binds the given name and repository, the author "Developer" and the description "A <name> application" |
| Generation.MapContent | internal/generate/generator.go:126-129 | the mapping loop applies each mapping's replace-all in declared order, each to the previous result |
| Generation.ProtectLoop | internal/generate/generator.go:144-146 | the protection loop computes the protection of the text for the visiting order given |
| Generation.RestoreLoop | internal/generate/generator.go:152-155 | the restoration loop computes the restoration of the text for the visiting order given |
| Generation.RenderTemplate | internal/generate/generator.go:119-172 | processTemplatedFile after decompression computes the whole pipeline: mappings, protection, both escapes, restoration, evaluation and both unescapes |
| Generation.Generator.constructor | internal/generate/generator.go:25-71 | a new generator holds the schema and output directory, the default variables, and an empty output tree |
| Generation.Generator.ProcessFile | internal/generate/generator.go:101-116 | a file whose parent and content succeed is written under its path and nothing else changes; on failure the tree is unchanged |
| Generation.Generator.ProcessAll | internal/generate/generator.go:90-95 | the file loop ends exactly as the schema-order fold that stops at the first failing file |
| Generation.Generator.Generate | internal/generate/generator.go:74-98 | Generate is the schema check, the variable check, the output directory, then the file loop, with the tree they leave |
| Generation.FailureIsFinal | internal/generate/generator.go:91-94 | once a file has failed, processing more files changes neither the outcome nor the tree |
| Generation.FirstFailureStops | internal/generate/generator.go:91-94 | the first failing file ends the run with its path and error, earlier files stay written and later files are never touched |
| Generation.PassIffAllSucceed | internal/generate/generator.go:90-97 | the file loop passes exactly when every file succeeds |
| Generation.PassWritesPaths | internal/generate/generator.go:90-97 | a passing loop writes exactly the schema's paths beside what was there, and leaves every other entry as it was |
| Generation.PassWritesLast | internal/generate/generator.go:90-97 | after a passing loop each path holds the content of the last file written to it |
| Generation.ValidationFailureWritesNothing | internal/generate/generator.go:75-88 | a failing schema check, variable check or output directory fails the run and writes nothing |
| Generation.SchemaCheckedFirst | internal/generate/generator.go:75-83 | an invalid schema is reported as such, before variables are checked |
| Generation.StaticFileRoundTrip | internal/generate/generator.go:189-206 | a static file stored by CompressContent is written as the original content under lawful codecs |
| Generation.StaticFileIgnoresMappings | internal/generate/generator.go:109-115 | a static file's mappings have no effect; it is written as its decompressed content or fails with the decoding error |
| Generation.TemplatedFileMeaning | internal/generate/generator.go:119-172 | a templated file is written as its mapped content with the nine expressions replaced by their values, or fails with a parse error, when the file to be written mentions none of the eleven token words |
| Generation.DefaultVariablesCheck | internal/generate/generator.go:37-43 | with the generator's variables, Author and Description always pass; the variables pass exactly when a required ProjectName and a required GitHubRepo are given |
| Generation.KebabAt | internal/generate/generator.go:47-49 | kebab keeps the length, turns each space into '-' and lower-cases every other character |
| Generation.SnakeAt | internal/generate/generator.go:50-52 | snake keeps the length, turns each space into '_' and lower-cases every other character |
| Generation.TitleAt | internal/generate/generator.go:55-62 | title keeps the length, upper-cases only the first character, is the identity on "" and is idempotent |
| Templates.MatchesSkipDirIff | internal/templates/common.go:33-39 | a skip directory matches exactly when it is a whole component of the path other than the whole path; a bare name or a name inside a longer one does not match |
| Templates.AnySkipDirIff | internal/templates/common.go:33-39 | the loop over skip directories matches exactly when some listed directory matches |
| Templates.ShouldSkipCommonIff | internal/templates/common.go:14-47 | a path mentioning ".github" is kept; any other is skipped exactly when it mentions ".git", its base name starts with '.', a skip directory is one of its components, or its base name ends in ".log" |
| Templates.HiddenDirectoryNotHidden | internal/templates/common.go:25-30 | only the base name is checked for a leading '.', so a plain file inside a hidden directory is not hidden |
| Templates.HiddenFileSkipped | internal/templates/common.go:28-30 | a file whose name starts with '.' is skipped when the path does not mention ".github" |
| Templates.FrontendDropsEnvExample | internal/templates/frontend.go:182-190 | the frontend walk skips `.env.example` itself, as a hidden file |
| Templates.FrontendSkipsUnderBuildDir | internal/templates/frontend.go:43 | since the skip rule sees the full walk path, every file under a directory named "build" is skipped, including the extracted directory itself |
| Templates.ContainsAnyIff | internal/templates/go_api.go:194-213 | the go-api skip rule holds exactly when one of its patterns occurs as a plain substring, with no globbing |
| Templates.GoApiSkipsBinAnywhere | internal/templates/go_api.go:194-213 | any path containing "bin", such as "cabinet.go", is skipped by go-api |
| Templates.FullstackSkipRules | internal/templates/fullstack.go:223-265 | "node_modules" anywhere skips; base name "api" skips; important dotfiles are kept; anything under ".claude" is kept; everything else follows the common rules |
| Templates.FullstackKeepsDotfiles | internal/templates/fullstack.go:237-249 | each important dotfile is kept by fullstack although the common rules alone would skip it |
| Templates.MappingsIffTemplated | internal/templates/frontend.go:109-179 | for every type, a file gets mappings exactly when it is templated, and every mapping has a non-empty find string |
| Templates.FrontendMappingsIff | internal/templates/frontend.go:109-179 | the frontend tables give mappings exactly to the four templated files, each with a non-empty find string |
| Templates.GoApiMappingsIff | internal/templates/go_api.go:90-191 | the go-api tables give mappings exactly to the six listed files and other `.go` files, each with a non-empty find string |
| Templates.FullstackMappingsIff | internal/templates/fullstack.go:101-220 | the fullstack tables give mappings exactly to the nine listed files and other `.go` files, each with a non-empty find string |
| Templates.DeclaredVariables | internal/templates/frontend.go:136-161 | every type declares the same four string variables: ProjectName and GitHubRepo required, Author optional with default "Developer", Description optional with a non-empty default |
| Templates.DeclaredVariablesDemand | internal/core/validation.go:107-132 | against a type's own declarations, schema variables are valid and the variables pass exactly when the project name and repository are non-empty |
| Walk.WalkFoldSucceeds | internal/templates/frontend.go:37-91 | the walk succeeds exactly when no walk error occurs and every kept file is readable |
| Walk.WalkFoldOnePerKeptEntry | internal/templates/frontend.go:37-88 | a successful walk yields exactly one FileSpec per visited, non-directory, non-skipped entry, in walk order, built from that entry |
| Walk.WalkFiles | internal/templates/go_api.go:35-81 | the walk callback stops at the first walk error or failed read and otherwise collects the kept files' FileSpecs, as the fold does |
| Walk.CalculateSchemaHash | internal/templates/frontend.go:193-207 | the schema hash is SHA-256 of name, type and version followed by each file's path and hash |
| Walk.FilesDigestReadsPathsAndHashes | internal/templates/frontend.go:200-203 | the per-file part of the hash preimage depends only on each file's path and hash |
| Walk.SchemaHashIgnoresContent | internal/templates/fullstack.go:268-282 | two schemas agreeing on name, type, version and each file's path and hash have the same hash preimage, whatever their contents, mappings or metadata |
| Extraction.MakeFileSpec | internal/templates/frontend.go:58-84 | a FileSpec carries the relative path, the size and the hash of the original bytes; it is templated per the type with mappings only then; frontend content comes from CompressContent, the others are stored raw |
| Extraction.ReadEnvConfig | internal/templates/frontend.go:93-100 | env metadata is the parse of a readable root `.env.example`, except for go-api |
| Extraction.Extract | internal/templates/fullstack.go:23-98 | Extract is the walk fold, then the env metadata, then the schema hash over the result |
| Extraction.AssembledIdentity | internal/templates/go_api.go:23-33 | an extracted schema has the type's name, type, version "1.0.0", variables and post-generate hook, and the walk's files |
| Extraction.EnvConfigMeaning | internal/templates/go_api.go:22-87 | go-api never sets env metadata; the other types parse a readable `.env.example`, and a missing one leaves it empty |
| Extraction.AssembledHash | internal/templates/frontend.go:102-103 | an extracted schema's hash covers its name, type, version and its files' paths and hashes |
| Extraction.ExtractedHashChecks | internal/templates/frontend.go:58-67 | an extracted file passes the integrity check under lawful codecs, compressed or not |
| Extraction.EmptyFileRejected | internal/core/validation.go:75-77 | an empty file is extracted with empty content, which schema validation then rejects by path |
| EnvParser.Lines | internal/envparser/parser.go:13-17 | empty content has no lines, and no line contains a newline |
| EnvParser.ClassifyMeaning | internal/envparser/parser.go:18-51 | a trimmed line is blank, a comment (text after '#', trimmed), an assignment split at the first '=' with both sides trimmed, or other; the kinds partition the lines |
| EnvParser.ParseEnvExample | internal/envparser/parser.go:11-55 | the scan loop emits what the line-by-line specification emits for the lines of the content |
| EnvParser.ScanStep | internal/envparser/parser.go:21-51 | a blank line or assignment clears the pending description; a non-empty comment replaces it; a bare '#' or other line leaves it; an assignment emits one variable with it |
| EnvParser.ParseOnePerAssignment | internal/envparser/parser.go:36-51 | one variable per assignment line, in input order, carrying the description pending when that line was read |
| EnvParser.PendingIsLatestComment | internal/envparser/parser.go:21-33 | the pending description is the latest non-empty comment since the last blank line or emitted variable, and "" when there is none |
| EnvParser.NoAssignmentsNoVariables | internal/envparser/parser.go:36-54 | lines without an assignment, such as empty content or comments only, yield no variables |
| Registry.Lookup | internal/core/registry.go:25-31 | a lookup succeeds exactly for registered names and returns the stored type; otherwise "template type not found: <name>" |
| Registry.TemplateRegistry.constructor | internal/core/registry.go:13-17 | a new registry is empty |
| Registry.TemplateRegistry.Register | internal/core/registry.go:20-22 | the type is stored under its name, replacing an earlier one, and every type stays stored under its own name |
| Registry.TemplateRegistry.Get | internal/core/registry.go:25-31 | Get answers the lookup of the current map |
| Registry.TemplateRegistry.List | internal/core/registry.go:34-40 | every registered name exactly once |
| Registry.InitGlobalRegistry | internal/templates/init.go:8-17 | package init leaves a fresh registry holding frontend and go-api |
| Registry.LookupAfterRegister | internal/core/registry.go:20-31 | after Register the new type is found under its name and every other lookup is unchanged |
| Registry.RegisterIdempotent | internal/core/registry.go:20-22 | registering the same type twice is the same as once |
| Registry.InitialTemplatesContents | internal/templates/init.go:8-17 | after init exactly "frontend" and "go-api" are registered, each under its own name, and "fullstack" is not found |
| CommandLine.LastOccurrenceWins | internal/extract/run.go:33-50 | a flag given again at the end overrides what the earlier arguments set |
| CommandLine.TrailingFlagMissingValue | internal/generate/run.go:21-44 | a known flag in last position is a missing-value error naming it |
| CommandLine.UnknownFlagRejected | internal/extract/run.go:47-48 | an unknown argument where a flag is expected is an error naming it, whatever follows |
| CommandLine.ParseAppend | internal/extract/run.go:33-50 | arguments appended after a list the loop gets through are read from the state it ended in; the loop never stops between a flag and its value |
| ExtractCommand.RunWithParams | internal/extract/run.go:11-19 | an empty type is refused, listing the registered types, before anything is extracted; otherwise the request goes through |
| ExtractCommand.Run | internal/extract/run.go:21-53 | the argument loop computes the flag-loop specification: usage error without arguments, defaults "template.json" and "" |
| ExtractCommand.SourceDirOnly | internal/extract/run.go:24-30 | a source directory alone is refused for the missing type |
| ExtractCommand.TypeFlagSetsType | internal/extract/run.go:41-46 | a trailing `--type` sets the type and the request goes through with the source directory and output file |
| ExtractCommand.CountTemplatedFiles | internal/extract/run.go:98-106 | the counter is the number of templated files |
| ExtractCommand.TemplatedBounds | internal/extract/run.go:98-106 | the count is at most the number of files, zero exactly when none is templated and full exactly when all are |
| ExtractCommand.CalculateTotalSize | internal/extract/run.go:108-114 | the total is the sum of the sizes in int64, wrapping around on overflow |
| ExtractCommand.Wrap64 | internal/extract/run.go:110-112 | the int64 result lies in the int64 range and is congruent to the exact value modulo 2^64 |
| ExtractCommand.WrapAdd | internal/extract/run.go:110-112 | wrapping after each addition equals wrapping the exact sum once |
| ExtractCommand.SizeSumBounds | internal/extract/run.go:108-114 | with non-negative sizes the sum is non-negative and, below 2^63, the total is the exact sum |
| GenerateCommand.RequireValues | internal/generate/run.go:46-52 | a missing project name is reported first, then a missing repository; the request goes through exactly when both are given |
| GenerateCommand.Run | internal/generate/run.go:8-60 | the argument loop computes the flag-loop specification: usage error without arguments, output directory "./" by default |
| GenerateCommand.PathChecks | internal/generate/run.go:62-71 | generation proceeds exactly when the template file exists and the output directory does not; a missing template file is reported first, and an existing output directory otherwise stops it with "output directory already exists" |
| GenerateCommand.BothValuesGiven | internal/generate/run.go:21-59 | with both flags the request carries them and the default output directory |
| GenerateCommand.ProjectNameReportedFirst | internal/generate/run.go:46-48 | with neither value given, the project name is the one reported |
| GenerateCommand.DefaultOutputDirAlwaysExists | internal/generate/run.go:16-71 | without `--output-dir` the output directory is "./", which exists, so generation always stops with "output directory already exists" |
| SdkErrors.TypeNamesDistinct | sdk/errors.go:8-15 | the six error categories have six different names |
| SdkErrors.ErrorTextShape | sdk/errors.go:26-31 | Error() starts with "<type> error in <op>: <msg>"; details add " (<details>)", and without details the text is exactly that head |
| SdkErrors.ConstructorsKeepFields | sdk/errors.go:33-95 | each constructor sets its own category and keeps operation and message; only validation carries details; Unwrap returns the wrapped error |
| SdkErrors.TemplateTypeErrorText | sdk/errors.go:68-75 | the template-type error says "unknown template type: <t>" and ends with the ListTemplates hint |
| SdkClient.Require | sdk/client.go:402-413 | one required value: a validation error with its message when empty, otherwise the checks after it |
| SdkClient.ValidateGenerateOptions | sdk/client.go:402-413 | passes exactly when name, repository and template are set; failures are validation errors of Generate, the name reported before the repository |
| SdkClient.ValidateVariables | sdk/client.go:431-442 | passes exactly when name, repository and output directory are set; failures are validation errors, the name reported before the repository |
| SdkClient.ValidateExtractOptions | sdk/client.go:416-428 | passes exactly when source directory and type are set and the directory exists; a missing value is a validation error and a missing directory a filesystem error |
| SdkClient.GetTemplateTypeInfo | sdk/client.go:198-209 | succeeds exactly for registered types, with the type's name, "<name> template type" and its variables; otherwise a template-type error |
| SdkClient.Extract | sdk/client.go:88-105 | an option error is returned as it is; an unregistered type gives the template-type error of Extract; a failing extraction is wrapped in an extraction error; it succeeds exactly when the options pass, the type is registered and its Extract succeeds, and then returns that schema |
| SdkClient.GenerateFromTemplate | sdk/client.go:108-149 | the variable check, the schema check, the temporary file, then a generator run with the output directory, name and repository |
| SdkClient.OptionVariables | sdk/client.go:68-82 | Generate passes the name, repository and output directory on, with author "Developer" and description "A <name> application" |
| SdkClient.LoadSchema | sdk/client.go:160-174 | loading succeeds exactly when the file loads; a missing or unreadable file is a filesystem error and an unparsable one a schema error |
| SdkClient.Client.constructor | sdk/client.go:20-26 | a new client has an empty cache |
| SdkClient.Client.FindSchema | sdk/client.go:52-63 | the schema of that name if cached; otherwise some cached schema of that type exactly when one exists |
| SdkClient.Client.Generate | sdk/client.go:47-85 | the option checks, then by name, else by type, else a template-type error, then GenerateFromTemplate with the default author and description |
| SdkClient.Client.RegisterTemplate | sdk/client.go:159-186 | succeeds exactly for a loadable valid schema, which is cached under its name; on failure the cache is unchanged; the cache stays valid and keyed by name |
| SdkClient.Client.ListSchemas | sdk/client.go:234-240 | every cached name exactly once |
| SdkClient.Client.GetSchemaInfo | sdk/client.go:243-258 | for a cached name the schema's name, type, version, description and variables, with FileCount the number of files and EnvVarCount the number of env variables; otherwise a template-type error |
| SdkClient.Client.GetSchemaEnvConfig | sdk/client.go:261-267 | for a cached name its env metadata, as many entries as GetSchemaInfo counts; otherwise a template-type error |
| SdkClient.Client.GenerateFromSchema | sdk/client.go:270-276 | only a schema cached under that name is used; otherwise a template-type error and nothing written |
| SdkClient.GenerateFromFile | sdk/client.go:376-399 | a variable error or a load error is returned with nothing written; otherwise the call is GenerateFromTemplate on the loaded schema, so it passes only for valid variables and a loaded valid schema |
| SdkClient.ExtractAndGenerateChecks | sdk/client.go:327-346 | passes exactly when the five values are set and the source directory exists; the first failing check in the order source, type, name, repository, output directory, then the missing source directory, gives its own error |
| SdkClient.ExtractAndGenerate | sdk/client.go:323-372 | a failed check or extraction is returned as it is with nothing written; otherwise the extracted schema goes through GenerateFromTemplate with the variables Generate would build; it passes only when the checks and the extraction pass |
| SdkClient.WorkflowVariables | sdk/client.go:358-364 | the variables ExtractAndGenerate passes on are those Generate builds from the same name, repository and output directory with no custom values: author "Developer" and description "A <name> application" |
| SdkClient.OnlyThreeValuesReachGenerator | sdk/client.go:138-139 | the SDK's author, description and custom values never change the outcome or the files written |
| SdkClient.FailedChecksWriteNothing | sdk/client.go:109-115 | a failed variable or schema check fails with a validation or schema error and writes nothing |
| SdkClient.GenerateFromTemplateIsGeneratorRun | sdk/client.go:117-149 | once the checks and the temporary file pass, the call writes what the generator writes and fails exactly when it fails, wrapping its error |
| SdkClient.GenerateByNameFirst | sdk/client.go:53-54 | a schema cached under the requested name is used before any lookup by type |
| SdkClient.GenerateUnknownTemplate | sdk/client.go:64-66 | with no cached schema of that name or type, Generate fails with a template-type error and writes nothing |
| SdkClient.FullstackNotExtractable | sdk/client.go:93-97 | with the registry as init leaves it, extracting "fullstack" fails with a template-type error |
| Config.Join | internal/config/discovery.go:100 | empty elements are dropped; otherwise the directory, '/', then the element |
| Config.JoinAbsolute | internal/config/discovery.go:100 | a path joined onto an absolute directory is absolute |
| Config.ConfigPath | internal/config/discovery.go:128-140 | under $XDG_CONFIG_HOME when set, else under <home>/.config, else the file ".template-engine.json" in the working directory |
| Config.ConfigPathUnderXdg | internal/config/discovery.go:130-139 | with $XDG_CONFIG_HOME set the path is "<xdg>/template-engine/references.json", whatever the home directory |
| Config.LoadConfig | internal/config/discovery.go:39-64 | never fails: a parsed file is used as is, and a missing, unreadable or unparsable file gives the defaults; only a missing file triggers a save |
| Config.StoreCount | internal/config/discovery.go:121-124 | storing under a key adds an entry exactly when the key is new |
| Config.ReferencePath | internal/config/discovery.go:88-104 | an unknown type fails naming it; an absolute path is returned unchanged; a relative one is joined onto the working directory, or fails when that is unavailable |
| Config.ReferencePathAbsolute | internal/config/discovery.go:94-103 | from an absolute working directory every configured type resolves to an absolute path |
| Config.DefaultReferencesContents | internal/config/discovery.go:23-36 | the defaults are exactly frontend and go-api, each with a non-empty relative path and description and no version |
| Config.ReferenceConfig.constructor | internal/config/discovery.go:11-13 | a config holds the references it is given |
| Config.ReferenceConfig.GetReferencePath | internal/config/discovery.go:88-104 | the method answers the resolution of its current references |
| Config.ReferenceConfig.AddReference | internal/config/discovery.go:116-125 | a nil map is created; the type is stored with the path, the description and an empty version; the count grows exactly when the type is new |
| Config.ReferenceConfig.ListTemplateTypes | internal/config/discovery.go:107-113 | every configured type exactly once |
| Config.NewDefaultConfig | internal/config/discovery.go:23-36 | a fresh config holding the default references |
| Config.AddThenResolve | internal/config/discovery.go:116-125 | after AddReference the new path resolves and every other type resolves as before |

## Left out

- Filesystem effects are not modelled: `filepath.Walk`, reads, `os.Create`/`MkdirAll`/`Stat`/`Getwd` and writes. The walk is a sequence of entries, existence a predicate, the output tree a map, and which directories and files can be created an input.
- gzip, base64 and SHA-256 are uninterpreted library functions. Only the round trip of the two codecs is assumed, and only where a lemma requires `Lawful`.
- Go's `text/template` is modelled only for what reaches it in this engine: the nine exact spellings evaluate to their values, and any other action is a parse error. Execution errors on other input are not modelled.
- PipelineTheorem.ProcessTemplateMeaning: holds only when the file to be written mentions none of the eleven token words (PROJECT_NAME_PLACEHOLDER, ..., ESCAPED_RIGHT_BRACE). Text or a value that mentions one can be misread by the restoration and unescaping passes. An Author of `__ESCAPED_LEFT_BRACE__` is written as `{{`, and content `}}_ESCAPED_LEFT_BRACE_}}` is written as `__ESCAPED_RIGHT_BRACE_{{_ESCAPED_RIGHT_BRACE__`. What the pipeline does then is not characterised. The same hypothesis is on TransformMeaning, TransformSucceeds, TransformBraceFails, TransformPlainText, MiddleHalf, BackHalf, RestoreStage.RestoreMeaning and EvaluateStage.UnescapeStep.
- Generation.TemplatedFileMeaning: the same hypothesis, for the same reason.
- ASCII case mapping stands in for Unicode `strings.ToUpper`/`ToLower`/`unicode.ToUpper`. Text is one `char` per byte.
- Text.TrimSpace: trims only the six ASCII space characters (tab, newline, vertical tab, form feed, carriage return, space); Go's `strings.TrimSpace` also trims the multi-byte Unicode spaces (U+0085, U+00A0, U+2000 and the others), which a one-`char`-per-byte text does not represent.
- `bufio.Scanner`'s 64 KiB line limit is not modelled.
- Paths use '/' as the separator. `filepath.Join` is modelled without `Clean`: in Config.Join, and in the generator's output tree, which is keyed by each FileSpec's raw path, so "./x" and "x" are two keys in the model but one file on disk. `filepath.Rel` is an input of each walk entry, so its errors are not modelled.
- Go map iteration order is an input everywhere. Which variable error is reported, the order of List, ListSchemas and ListTemplateTypes, and which schema Generate picks among several of one type are left unspecified.
- `encoding/json` is not modelled: schema files load to a `Result` given by the environment, and the configuration file is a `ConfigFile` value. The JSON round trip through the SDK's temporary file is taken as the identity.
- NewGenerator's read and parse errors are not modelled: the generator is built from an already parsed schema.
- Any failure creating, marshalling or writing the SDK's temporary file is one `TempFileFailed` cause. NewGenerator's "failed to create generator" error cannot arise in the model.
- Per file, a failure to create the parent directory and a failure to create or write the file are separate inputs. A failed write leaves the tree unchanged.
- The frontend Extract's CompressContent error (a gzip write error) cannot arise in the model.
- `os.Stat` errors other than "does not exist" are not distinguished: a path either exists or does not.
- `formatSize`, `PrintSummary` and all printed output are not modelled, and neither is `cmd/*` (the cobra wiring and prompts).
- `cmd/generate.go:28` calls a `generate.RunWithParams` that does not exist in `internal/generate/run.go`. The model follows `run.go`.
- Code and tests disagree in two places, and the model follows the code:
  - the go-api Extract never reads `.env.example` (Extraction.EnvConfigMeaning), though `internal/templates/templates_test.go:141-161` expects five variables;
  - fullstack is not registered (Registry.InitialTemplatesContents, SdkClient.FullstackNotExtractable), though `sdk/client_test.go:383` expects it.
- The rest of the `extract` command is not modelled. That covers `extract()` beyond RunWithParams (its stat, the registry lookup and saving the JSON) and the printed summary. The summary's two counters are modelled.
- The following SDK members are one-line delegations, covered by the members they call:
  - ListTemplateTypes, ExtractSchema, ExtractAndGenerateFromType and RegisterSchema;
  - Validate, which is ValidateSchema.
- The unused `context.Context` parameters are not modelled.
- SaveConfig is not modelled. Only whether LoadConfig tries to save the defaults is.
- SdkClient: the underlying `error` of an SDK error is modelled as a `Cause` value naming what failed, not the exact wrapped Go error.
- What a template type's Extract returns for a directory is an input of the SDK's environment; the Extraction module models that Extract over the directory's walk.
- Templates.DeclaredVariables states the shared shape of the four declarations. The per-type description texts are given in Templates.TemplateKind rather than stated as a property.
