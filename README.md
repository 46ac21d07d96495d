# unused-files-webpack-plugin, modelled in Dafny

This project models the core of `unused-files-webpack-plugin`: a webpack
plugin, plus a small command-line tool, that reports the source files a
build never used.

- **Plugin** (`plugin.dfy`, module `Plugin`, from `src/index.ts`)
  - The constructor fills in default options.
  - After webpack emits, `applyAfterEmit` builds the used-file set. That set holds the compilation's `fileDependencies` and every string-valued `existsAt` of an emitted asset.
  - It then expands the configured glob patterns in order, duplicates kept.
  - It keeps the matches whose path joined to the compiler context is not used, in match order.
  - If any remain, it throws an `Error` that lists them. The catch block then rethrows that error or drops it.
  - `Compilation` is a class: the plugin appends to its `errors` and `warnings` in place. `getFileDepsMap` and `unfoldPatterns` are loops.
- **CLI** (`cli.dfy`, module `Cli`, from `src/bin.ts`)
  - A module of the stats report counts as used when its name is present, non-empty, starts with `./` and does not contain `./~/`.
  - The used set is `join(cwd, name)` of those modules.
  - The array `main` resolves to holds the matches of the glob `*` that are in the used set, in glob order, each made relative to `cwd`. These are pure functions.
- **Shared pieces**
  - `seqs.dfy` holds order-preserving filtering, flattening of match lists, and `startsWith`/`includes`/`join` on strings.
  - `host.dfy` holds the JavaScript values the core inspects.
  - The glob library, `path.join` and `path.relative` are function-typed parameters. Nothing is assumed about them, and in particular they are not assumed to normalise paths.
  - `wrappers.dfy` holds `Option`.

Where the code does something other than its branches and names suggest, the model follows the code:

- **Non-bail findings are dropped.** The error thrown at `src/index.ts:41` is a plain `Error`, not a `WebpackError`. So when `failOnUnused && bail` is false, the catch block drops it: nothing is thrown and neither collection changes. The branch at `src/index.ts:46-48`, which files a `WebpackError` under `errors` or `warnings`, is therefore never reached by this error. `Plugin.UnusedFindingSurfacesOnlyInBailMode` states this. `Plugin.CatchInAfterEmit` models the catch block for any error, `WebpackError` included.
- **The CLI returns used files.** At `src/bin.ts:23` the filter keeps matches that ARE in the used set, so `main` resolves to the used files, not the unused ones.
- **The vendor test is `./~/`.** The test at `src/bin.ts:19` looks for the substring `./~/`, webpack 1's marker for vendored modules, not for `node_modules`. So `./node_modules/lib/x.js` counts as a project module (`Cli.NodeModulesNameCountsAsProject`).
- **The CLI compares paths of two kinds.** At `src/bin.ts:22` the glob runs without a `cwd` option. Its matches are then compared with joined paths. The model keeps that comparison as written.

## Model

| member | source | states |
|---|---|---|
| `Plugin.ResolveOptions` | src/index.ts:20-25 | absent `patterns` becomes `["**/*.*"]`, absent `failOnUnused` becomes `true`, given values are kept; the glob options hold `ignore` plus the caller's keys, a caller's `ignore` wins over the default `node_modules/**/*` |
| `Plugin.UnusedFilesPlugin.constructor` | src/index.ts:20-26 | the stored options are the resolved defaults of the given options |
| `Plugin.GlobOptionsFor` | src/index.ts:38 | the glob options of a run are the configured ones plus `cwd`, which is the compiler context unless the configuration names its own `cwd` |
| `Plugin.FileDeps` | src/index.ts:64-73 | a path is used iff it is a file dependency or the string `existsAt` of some asset |
| `Plugin.GetFileDepsMap` | src/index.ts:64-73 | the loop over the assets builds exactly that set: every file dependency, every string `existsAt`, nothing else |
| `Plugin.NonStringAssetAddsNothing` | src/index.ts:67-70 | an asset whose `existsAt` is missing or not a string leaves the used set as if the asset were absent |
| `Plugin.MatchLists` | src/index.ts:58-60 | one glob result per pattern, in pattern order, each the glob of that pattern under the run's options |
| `Plugin.UnfoldPatterns` | src/index.ts:56-62 | the result is the per-pattern match lists concatenated in pattern order; its length is the sum of their lengths; a path is in it iff some pattern matched it |
| `Seqs.FlattenLength` | src/index.ts:58-60 | appending the match lists keeps every match, duplicates included: length is the sum of lengths |
| `Seqs.FlattenMembership` | src/index.ts:58-60 | a path is in the appended lists iff it is in one of them |
| `Seqs.Filter` | src/index.ts:39 | `filter` keeps exactly the elements satisfying the test, in their original order (a subsequence), never more than the input, and is empty iff no element passes |
| `Seqs.FilterCount` | src/index.ts:39 | `filter` keeps every occurrence of a kept element and none of a dropped one |
| `Plugin.UnusedFiles` | src/index.ts:39-40 | a match is unused iff its path joined to `cwd` is not in the used set; the unused list is a subsequence of the matches; it is empty iff every match is used |
| `Plugin.UnusedKeepsDuplicates` | src/index.ts:39 | an unused file appears as many times as it was matched |
| `Plugin.ChangelogAloneUnused` | src/index.ts:39 | with `README.md` used and `CHANGELOG.md` not, the unused list is exactly `["CHANGELOG.md"]` |
| `Plugin.FindUnused` | src/index.ts:37-39 | a path is unused iff some configured pattern matched it under the run's glob options and its path joined to `cwd` is not in the compilation's used set |
| `Seqs.Join` | src/index.ts:41 | `join` of no parts is empty; otherwise its length is the parts' total length plus one separator per gap |
| `Seqs.SplitJoinRoundTrip` | src/index.ts:41 | splitting a join at its one-character separator gives back the parts, when no part holds the separator |
| `Plugin.UnusedFilesError` | src/index.ts:41 | the thrown error is a plain `Error` whose message is `found some unused files: ` followed by the unused paths joined with a newline |
| `Plugin.UnusedMessageRoundTrip` | src/index.ts:41 | when no unused path holds a newline, the message after its prefix splits back into exactly the unused paths, in order |
| `Plugin.UnusedMessageListsEveryFile` | src/index.ts:41 | the message contains every unused path |
| `Seqs.JoinContainsEachPart` | src/index.ts:41 | `join` with any separator contains every joined part |
| `Plugin.Catch` | src/index.ts:43-50 | rethrow iff `failOnUnused && bail`; otherwise a `WebpackError` goes to errors if `failOnUnused`, to warnings if not; any other error is dropped |
| `Plugin.Settle` | src/index.ts:43-50 | a rethrown error is the caught one; each collection only grows, by the caught error, errors only when `failOnUnused`, warnings only when not, and exactly one entry is added iff the error is a `WebpackError` and not rethrown |
| `Plugin.CatchInAfterEmit` | src/index.ts:43-50 | the catch block leaves the compilation's errors and warnings and the rethrown error as `Settle` says |
| `Plugin.UnusedFindingSurfacesOnlyInBailMode` | src/index.ts:41-49 | the unused-files error never reaches errors or warnings; it is rethrown iff `failOnUnused && bail` |
| `Plugin.UnusedFilesPlugin.ApplyAfterEmit` | src/index.ts:33-51 | with no unused files nothing is thrown and the compilation is unchanged; otherwise the result is the catch block applied to the unused-files error |
| `Cli.IsProjectModuleName` | src/bin.ts:19 | a module name passes iff it is present, its first two characters are `./`, and `./~/` occurs at no position of it |
| `Seqs.ContainsIffOccurs` | src/bin.ts:19 | `includes` holds iff the substring occurs at some index |
| `Cli.LacksVendorMarker` | src/bin.ts:19 | a name missing any character of `./~/` does not contain it |
| `Cli.NodeModulesNameCountsAsProject` | src/bin.ts:19 | `./node_modules/lib/x.js` passes the module-name test |
| `Cli.TildeNameIsVendor` | src/bin.ts:19 | a name beginning with `./~/` never passes the module-name test |
| `Cli.UsedFiles` | src/bin.ts:17-21 | a path is used iff it is `join(cwd, name)` for a module whose name passes the test; a missing module list gives the empty set |
| `Cli.KeptMatches` | src/bin.ts:22-23 | the kept matches are a subsequence of the glob matches, are exactly the matches in the used set, and keep every occurrence of a used match |
| `Cli.Main` | src/bin.ts:22-24 | the array `main` resolves to has one element per kept match, in order, each the match made relative to `cwd`; never more elements than matches |
| `Cli.ResultElementsAreUsedMatches` | src/bin.ts:22-24 | every element of the result is `relative(cwd, m)` for a glob match `m` in the used set |
| `Cli.UsedMatchIsInResult` | src/bin.ts:23 | every glob match in the used set is in the result, in relative form |
| `Cli.UnusedMatchIsNotInResult` | src/bin.ts:23 | a match outside the used set is not in the result, unless `relative` maps another match to the same element |
| `Cli.NoModulesEmptyResult` | src/bin.ts:17-24 | a report without a module list gives an empty result |

## Left out

- Hook registration (`apply`, `tapAsync`) and the async/promise plumbing: these are host lifecycle, not logic. `ApplyAfterEmit` is the hook's body, run to completion. A rethrown error is its return value.
- The glob library: each glob call is an uninterpreted function from pattern and options to a list of paths. Glob options other than `ignore` and `cwd` are opaque values.
- Errors thrown by the glob library or by webpack while the used set is built are not modelled: such a glob call always returns a list. The catch block itself (`CatchInAfterEmit`) is modelled for any error.
- `path.join` and `path.relative`: uninterpreted functions. No normalisation is assumed.
- `instanceof WebpackError`: replaced by an error-kind tag on the thrown value.
- The order in which `Object.keys` visits assets is not modelled. The loop picks keys in any order, which cannot change the resulting set.
- CLI input and output are not modelled. This covers reading stdin, `JSON.parse`, the `CWD` environment variable and `process.cwd()`, and `console.log`/`console.error`. The parsed report is a value and the working directory a parameter. `Main` is the array `main` resolves to (`src/bin.ts:22-24`), not the printed text.
- The printed lines: `src/bin.ts:28` calls `unusedFiles.map(console.log)`, so each `console.log` call receives the path, its index and the whole array, and prints all three. The model does not capture that output format.
- The JavaScript `Set` in both files is a Dafny `set`.
