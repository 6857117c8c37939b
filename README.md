# merge-openapi-spec-action: a Dafny model of the merger

This project models `src/merger.ts`. That file is the core of a GitHub Action that
merges several OpenAPI documents into one YAML file. The model covers five steps:

- **Pattern resolution (`findFiles`).** A comma-separated list of paths and glob
  patterns becomes an order-stable list of distinct files. Each segment is trimmed.
  A segment naming an existing regular file is taken literally. Any other segment is
  expanded by the glob engine.
- **`countPaths`.** It counts the keys of a document's `paths`.
- **The intermediate JSON path.** A trailing `.yaml` or `.yml` of the output path is
  replaced by `.json`. Any other name gets `.json` appended, so `out.json` becomes
  `out.json.json`.
- **`mergeSpecs`.**
  - An empty list is refused.
  - One file is loaded and re-saved as YAML.
  - Several files are joined by `npx @redocly/cli join` into the intermediate JSON
    file, which is then re-saved as YAML.
  - Every failure of the join step is folded into one error that names the command.
- **`mergeOpenAPISpecs`.** It resolves the patterns, adds up the path counts of the
  inputs, merges them, reloads the output and counts its paths.

The filesystem is a `FileSystem` object. Its one field maps the path of every existing
regular file to its text, and methods that write files update it in place.

The libraries are opaque total functions carried in an `Env` value. These are the glob
engine, `JSON.parse`, `yaml.load`, `yaml.dump` and the `execSync` subprocess. From the
subprocess the model sees only the files it leaves behind and whether it failed.

A successful run returns a `MergeResult`: the reloaded spec, the sum of the inputs'
path counts before the merge and the path count of the merged output after it.

A loaded document is a general JSON/YAML `Value`, not an `OpenAPISpec`, because the
code only casts what the parser returns. `countPaths` follows JavaScript exactly on
every value:

- on `undefined` or `null` it raises a `TypeError`;
- `Object.keys(x || {})` counts one key per UTF-16 code unit of a string, one per
  array element and one per object field, and 0 for booleans and numbers.

Each method is proved against a function of the state before the call. That function
gives the outcome and the files afterwards:

| method | specification function |
|---|---|
| `FindFiles` | `Found` |
| `MergeSpecs` | `MergeSpecsEffect` |
| `MergeOpenAPISpecs` | `Run` |

The lemmas state the properties of these functions. Whether the text `yaml.dump` writes
for a spec reads back as that spec, through the parser `loadSpec` picks for the path, is
the predicate `Reloads(codec, path, spec)` about that one spec. The save-then-load lemmas
state that reloading gives the spec exactly when `Reloads` holds. No axiom asserts
`Reloads`; `SingleFileRoundTrip` takes it as a hypothesis for the one spec involved.

Modules, in dependency order:

| module | contents |
|---|---|
| `Wrappers` | `Option`, `Result` |
| `Text` | JavaScript `split`, `join`, `trim`, `endsWith`, `includes` |
| `Sequences` | deduplication through a `Set` |
| `Errors` | the thrown errors and their messages |
| `OpenApi` | documents, truthiness, `countPaths` |
| `Effects` | filesystem, parsers, subprocess, `loadSpec`/`saveSpec` |
| `Resolver` | `findFiles` |
| `MergeEngine` | JSON path, command, `mergeSpecs` |
| `Orchestrator` | `mergeOpenAPISpecs` |

## Model

| member | source | states |
|---|---|---|
| Text.IsWhitespace | src/merger.ts:22 | The characters `String.prototype.trim` removes (ECMAScript WhiteSpace and LineTerminator), a predicate whose meaning is its definition; TrimStart, TrimEnd and Trim are stated in terms of it |
| Text.TrimStart | src/merger.ts:22 | The result is a suffix of the input that does not start with whitespace, and what was removed is all whitespace |
| Text.TrimEnd | src/merger.ts:22 | The result is a prefix of the input that does not end with whitespace, and what was removed is all whitespace |
| Text.Trim | src/merger.ts:22 | A trimmed segment neither starts nor ends with ECMAScript whitespace |
| Text.TrimRemovesOnlyWhitespace | src/merger.ts:22 | The trimmed segment is the infix of the original between an all-whitespace prefix and an all-whitespace suffix |
| Text.TrimIdempotent | src/merger.ts:22 | Trimming a trimmed segment changes nothing |
| Text.WhitespaceFrame | src/merger.ts:22 | A prefix of a suffix of s, each dropping only whitespace, lies in s between an all-whitespace prefix and an all-whitespace suffix |
| Text.Split | src/merger.ts:22 | Splitting at ',' yields at least one piece, and no piece contains a comma |
| Text.JoinSplit | src/merger.ts:22 | Rejoining the pieces with the separator gives back the pattern string, so splitting loses no character |
| Text.SplitJoin | src/merger.ts:91 | Splitting a join of separator-free pieces gives back the pieces in order |
| Text.JoinWith | src/merger.ts:91 | `files.join(' ')`; no contract of its own: JoinSplit and SplitJoin show it is the inverse of Split |
| Text.ContainsInfix | src/merger.ts:113 | A string built as prefix + t + suffix contains t |
| Text.EndsWith | src/merger.ts:50 | `endsWith`, a predicate whose meaning is its definition: the last characters are the suffix; JsonPathCases and LoadSpec use it |
| Sequences.Dedup | src/merger.ts:44 | `[...new Set(xs)]` has no duplicates, only elements of `xs`, and is no longer than `xs` |
| Sequences.DedupMembers | src/merger.ts:44 | An element survives deduplication if and only if it was in the input |
| Sequences.DedupKeepsFirstOccurrenceOrder | src/merger.ts:44 | The kept elements appear in the order of their first occurrence in the input |
| Sequences.DedupOfDistinct | src/merger.ts:44 | A duplicate-free list is unchanged by deduplication |
| Sequences.DedupIdempotent | src/merger.ts:44 | Deduplicating twice is the same as deduplicating once |
| Errors.MergeFailureMessageNamesCommand | src/merger.ts:112-114 | A merge failure's message starts with "Failed to merge files using redocly join. Command: " followed by the command, and so contains the command |
| Errors.Message | src/merger.ts:74-150 | Each thrown message names what it is about: "No files found" ends with the patterns, the merged-spec failure ends with the output path, a parse failure is the parser's own message, and a merge failure starts with the preamble and the command |
| OpenApi.IsOpenApiSpec | src/merger.ts:8-12 | The `OpenAPISpec` interface, a predicate whose meaning is its definition: an object with a string `openapi` field and, if present, an object `paths` field; CountPathsOfSpec is stated for such documents |
| OpenApi.MergeResult | src/merger.ts:14-18 | The `MergeResult` record of spec, pathCountBefore and pathCountAfter, a datatype whose meaning is its definition; SuccessAccounting, PathCountBeforeIsSum and SingleFileRoundTrip state what its fields hold |
| OpenApi.Utf16Length | src/merger.ts:119 | A string's UTF-16 length is at least and at most twice its code-point count, and equals that count exactly when every code point is in the BMP |
| OpenApi.KeyCount | src/merger.ts:119 | The key count of `v`, falling back to `{}` when it is falsy, is 0 for a falsy value, the field count for an object, the element count for an array, and nonzero exactly for a non-empty string |
| OpenApi.PathsOf | src/merger.ts:119 | Reading `.paths` throws exactly on undefined and null, gives the field when an object has one, and gives undefined otherwise |
| OpenApi.Truthy | src/merger.ts:149 | undefined and null are falsy, and every array and object, even an empty one, is truthy |
| OpenApi.CountPaths | src/merger.ts:118-120 | countPaths fails exactly on undefined and null, and succeeds on every truthy document |
| OpenApi.CountPathsOfSpec | src/merger.ts:118-120 | On an OpenAPISpec-shaped document, countPaths is the number of keys of `paths`, and 0 when `paths` is absent |
| OpenApi.CountPathsExamples | src/__tests__/merger.test.ts:107-127 | Three paths count 3; a spec without `paths` counts 0; an empty `paths` counts 0 |
| Effects.LoadSpec | src/merger.ts:47-55 | A missing file is a read error. A `.json` path loads exactly when JSON.parse accepts its text, any other path exactly when yaml.load does, and the only errors are read and parse errors |
| Effects.ParserFor | src/merger.ts:50-54 | JSON.parse for a `.json` path, yaml.load otherwise; no contract of its own, characterised through LoadSpec and SaveThenLoad |
| Effects.Saved | src/merger.ts:57-70 | After saveSpec, the saved path exists and every other file is unchanged |
| Effects.SaveThenLoad | src/merger.ts:57-70 | Loading a path right after saving a spec to it gives back that spec if and only if the serialiser's text for the spec reads back through that path's parser; every other path loads as before |
| Effects.FileSystem.WriteFile | src/merger.ts:69 | writeFile replaces or creates exactly the one file |
| Effects.FileSystem.ExecSync | src/merger.ts:99-102 | Running the command leaves the files the subprocess leaves and reports its failure |
| Effects.SaveSpec | src/merger.ts:57-70 | The files after saveSpec are `Saved` of the files before |
| Resolver.Segments | src/merger.ts:22 | There is one trimmed segment per comma-separated piece |
| Resolver.Expand | src/merger.ts:26-40 | One segment's contribution; no contract of its own, characterised by ExpandLiteralOrGlob |
| Resolver.ExpandLiteralOrGlob | src/merger.ts:26-40 | A segment naming an existing regular file contributes exactly itself, whatever the glob engine returns; any other segment contributes its glob matches |
| Resolver.Gathered | src/merger.ts:21-41 | The `allFiles` array after the loop; no contract of its own, characterised by GatheredMembers |
| Resolver.GatheredMembers | src/merger.ts:24-41 | A path is gathered before deduplication exactly when some segment contributes it: the segment itself if it is a regular file, else one of its glob matches |
| Resolver.Found | src/merger.ts:20-45 | The result of findFiles has no duplicates and holds only paths gathered from the segments |
| Resolver.FoundMembers | src/merger.ts:20-45 | A path is returned by findFiles if and only if some segment contributes it |
| Resolver.FoundEmpty | src/merger.ts:37-44 | findFiles returns the empty list exactly when no segment is an existing file and no segment's glob matches anything; that case is a result, not an error |
| Resolver.FindFiles | src/merger.ts:20-45 | The loop, with its `continue` past the glob for literal files, returns `Found` of the files, and the result has no duplicates |
| Resolver.FoundKeepsFirstSeenOrder | src/merger.ts:21-44 | The returned paths keep the order of their first occurrence in the concatenated per-segment results |
| Resolver.SegmentsWithoutComma | src/merger.ts:22 | A pattern string without a comma is one segment, the trimmed string |
| Resolver.SingleLiteralPath | src/merger.ts:26-32 | A single existing file is returned alone and the glob engine is not consulted |
| Resolver.GatheredSingle | src/merger.ts:24-41 | A single segment gathers exactly its own contribution |
| MergeEngine.JsonPath | src/merger.ts:85 | The intermediate path always ends in `.json` |
| MergeEngine.StripYamlExtension | src/merger.ts:85 | The regex removal leaves a prefix of the output path: `.yaml` is removed when the path ends with it, otherwise `.yml` when it ends with that, and otherwise nothing is removed |
| MergeEngine.JsonPathCases | src/merger.ts:85 | `x.yaml` and `x.yml` become `x.json`; any name ending in neither gets `.json` appended |
| MergeEngine.JsonPathYamlExamples | src/merger.ts:85 | `a.yaml` and `a.yml` both become `a.json` |
| MergeEngine.JsonPathOfJsonOutput | src/merger.ts:85 | `out.json` becomes `out.json.json` |
| MergeEngine.JsonPathIsCaseSensitive | src/merger.ts:85 | `A.YAML` is not rewritten; it becomes `A.YAML.json` |
| MergeEngine.NoYamlExtension | src/merger.ts:85 | A name with neither 'y' nor '.' four characters from its end just gets `.json` appended |
| MergeEngine.JsonPathIsNotOutput | src/merger.ts:85 | The intermediate path never equals the output path |
| MergeEngine.Command | src/merger.ts:91 | The command starts with `npx @redocly/cli join `, ends with `-o "<jsonPath>"`, and between them holds the input files joined with spaces |
| MergeEngine.CommandListsFilesInOrder | src/merger.ts:91 | The command starts with `npx @redocly/cli join ` and ends with `-o "<jsonPath>"`. For file names without spaces, the part between lists the input files in order |
| MergeEngine.MergeSpecsEffect | src/merger.ts:72-116 | mergeSpecs succeeds only with at least one input and the output file present; it never fails with `NoFilesFound` or `MergedSpecEmpty`; with several inputs, every failure is MergeFailed carrying the join command |
| MergeEngine.MergeSpecs | src/merger.ts:72-116 | mergeSpecs returns and leaves behind what `MergeSpecsEffect` says for the files before the call |
| MergeEngine.MergeNothingFails | src/merger.ts:73-75 | An empty list fails with "No files to merge" and touches no file |
| MergeEngine.SingleFilePassThrough | src/merger.ts:77-82 | With one file: the outcome does not depend on the join tool, and only the output path may be new. A load error passes through unchanged. Success means the input spec is saved to the output, and the output reloads as the input spec if and only if the serialiser's text for it reads back |
| MergeEngine.MultiFileFailureNamesCommand | src/merger.ts:91-115 | With several files, every failure is one MergeFailed error. It carries the command, which ends with `-o "<jsonPath>"`, and its message contains the command |
| MergeEngine.MultiFileOutputIsJoinedSpec | src/merger.ts:99-108 | With several files, success means the join did not fail, its JSON output loaded and was saved to the output, and the JSON file is kept; the output reloads as the joined spec if and only if the serialiser's text for it reads back |
| MergeEngine.MergeSpecsErrors | src/merger.ts:72-116 | The possible errors by input count: NoFilesToMerge for none, a read or parse error that writes nothing for one, MergeFailed for several; never NoFilesFound |
| Orchestrator.FileCount | src/merger.ts:136-137 | Loading and counting one file fails only with a read, parse or `.paths` TypeError |
| Orchestrator.CountAll | src/merger.ts:134-138 | The counting loop fails only with a read, parse or `.paths` TypeError of some input |
| Orchestrator.CountAllIsSum | src/merger.ts:134-138 | When every file loads and counts, the total is the sum of the per-file counts in order |
| Orchestrator.CountAllOkEach | src/merger.ts:134-138 | A successful total means every file loaded and counted |
| Orchestrator.Counts | src/merger.ts:134-138 | The per-file counts, one per file, each the count of its file when that file loads and counts |
| Orchestrator.CountAllSum | src/merger.ts:134-138 | A successful total is exactly the sum of the per-file counts in order, and every file counted |
| Orchestrator.CountAllFirstError | src/merger.ts:134-138 | The total fails with the error of the first file that does not load or count |
| Orchestrator.CountAllErrorPersists | src/merger.ts:134-138 | Once a prefix of the files fails, the loop ends with that error |
| Orchestrator.CountPathsBefore | src/merger.ts:134-138 | The counting loop returns `CountAll` of the files: the running total, or the first error |
| Orchestrator.Reload | src/merger.ts:148-158 | Reloading the output writes nothing |
| Orchestrator.MergeThenReload | src/merger.ts:145-158 | Merging and reloading return and leave behind what `MergeAndReload` says |
| Orchestrator.MergeAndReload | src/merger.ts:145-158 | After counting, a success has reloaded the output as a truthy spec, keeps the count before, and counts the reloaded spec's paths after; a failure is never no-files-found |
| Orchestrator.MergeOpenAPISpecs | src/merger.ts:122-159 | mergeOpenAPISpecs returns and leaves behind what `Run` says for the files before the call |
| Orchestrator.Run | src/merger.ts:122-159 | A no-files-found failure leaves every file as it was; a success leaves the output file present and returns a truthy spec whose countPaths is pathCountAfter |
| Orchestrator.NoFilesFoundExactlyWhenNothingMatches | src/merger.ts:127-131 | "No files found matching patterns: <input>" is the outcome exactly when no segment is a file or matches anything, and then no file changes |
| Orchestrator.SuccessAccounting | src/merger.ts:127-158 | On success, at least one file was found. pathCountBefore is the counting total over the found files, and the merge succeeded. The spec is the truthy reloaded output, and pathCountAfter is its countPaths |
| Orchestrator.PathCountBeforeIsSum | src/merger.ts:127-145 | On success, every found file counted and pathCountBefore is the sum of their countPaths, in the order findFiles returned them |
| Orchestrator.RunNeverNoFilesToMerge | src/merger.ts:127-145 | mergeOpenAPISpecs never fails with "No files to merge": the empty file list is stopped by the no-files-found guard first |
| Orchestrator.RunAfterCounting | src/merger.ts:133-145 | Past a successful count, the run is the merge-and-reload stage |
| Orchestrator.MergedThenReload | src/merger.ts:145-152 | After a successful merge, the run's end is the reload of the output |
| Orchestrator.FalsyOutputFails | src/merger.ts:148-151 | A merged output that reloads as a falsy value fails with MergedSpecEmpty of the output path |
| Orchestrator.CountFailureWritesNothing | src/merger.ts:134-138 | A load or count failure of any input stops the run with that error before any file is written |
| Orchestrator.SingleFileRoundTrip | src/__tests__/merger.test.ts:150-157 | With one resolved file whose spec the serialiser's text reloads as, through the output path's parser, the run succeeds exactly when the input spec is truthy, returns that spec, and counts the same paths before and after |

## Left out

- Glob semantics: `@actions/glob` is an arbitrary function from the files and a pattern to a list of paths. Its failures, such as an invalid pattern, are not modelled.
- Directories and `fs.mkdir`/`path.dirname`: the model tracks only regular files, so creating the output directories has no effect here. A failing `mkdir` or `writeFile` is not modelled; a write always succeeds.
- A path naming something other than a regular file (a directory, a socket) is not in the files map, so it goes to the glob engine, as in the source. Path normalisation, such as relative against absolute or `./a` against `a`, is not modelled: paths are compared as strings.
- JSON and YAML parsing and `yaml.dump` (its `lineWidth`, `noRefs` and `sortKeys` options) are opaque. Whether the serialiser's text for a spec reads back as that spec is the predicate `Reloads` about that one spec. No axiom asserts it; `SingleFileRoundTrip` requires it for its one spec.
- The messages of read and parse errors are those of Node and the parsers. `ReadFailed` stands for any failing `readFile`, with the usual ENOENT text.
- The behaviour of `@redocly/cli join`, including its handling of colliding paths. The command is an opaque subprocess, and the `NODE_ENV` removal from its environment and the working directory are not modelled.
- How the shell splits the command line: unquoted file names containing spaces or shell metacharacters are passed on as text only.
- `NaN` is not a `Value`, so its falsiness is not represented. Numbers are reals, and JavaScript `number` precision is not modelled: `pathCountBefore` is an unbounded natural number.
- The distinction between an absent `paths` and `paths: undefined` is not made; both count 0, as in the source.
- A `saveSpec` failure inside the multi-file `try` block would also be rewrapped, but writes always succeed here.
- Asynchrony: each `await` runs to completion in order, with no concurrency.
- `src/index.ts` (the action's inputs, outputs, logging and the warning when the counts differ) and `dist/merger.d.ts` (declarations only) are not part of this model.
