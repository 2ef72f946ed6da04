# ng-builder-electron, modelled in Dafny

`@da-mkay/ng-builder-electron` provides Angular CLI builders for Electron
applications, along with an "application" schematic.
- The **build** builder schedules the main and renderer targets once. It reports a verdict and can copy missing dependencies into the output's `package.json`.
- The **serve** builder runs the targets in watch mode. Each time every target has finished rebuilding, it emits a result and starts Electron anew ("hot") or reloads its windows ("soft").
- Electron itself is supervised by an `ElectronRunner`. It tracks one process and line-buffers that process's output.
- Builder options may reference other targets as strings or `{ target, options }` objects. These references are merged and normalized by a handful of option helpers.

This project models these parts, one module per source file:

| file | module | models |
|---|---|---|
| `js.dfy` | `Js` | JSON values, JavaScript truthiness, thrown errors (`Result`) |
| `text.dfy` | `Text` | decimal rendering of numbers, `match(/\d+/)`, `join` |
| `merge_options.dfy` | `MergeOptions` | `mergeOptions` |
| `target_ref.dfy` | `TargetRefs` | `getTargetRef` |
| `build_options.dfy` | `BuildOptionsModel` | `mergeBuildOptions`, `normalizeBuildOptions` |
| `build_target_options.dfy` | `BuildTargetOptionsModel` | `normalizeBuildTargetOptions` |
| `prefix_logger.dfy` | `PrefixLogging` | the message transform of `PrefixLogger` |
| `line_buffer.dfy` | `LineBuffer` | the per-stream line buffer of `ElectronRunner` |
| `electron_runner.dfy` | `ElectronRunning` | class `ElectronRunner` and its process handlers |
| `build.dfy` | `OneShotBuild` | the build builder's verdict, depcheck merge and logger names |
| `serve.dfy` | `ServeCycle` | the serve builder's running state, reducer, reload step and output filter |
| `application.dfy` | `ApplicationSchematic` | the schematic's pure helpers |

## How the model is built

- **Processes** are generation ids handed out in spawn order. Spawning, killing and IPC sends are appended to logs in `RunnerState`; they are not performed. A process's entry in `buffers` exists from its spawn on and is never removed, because the source's closures keep their `fullOut`/`fullErr` strings after the exit. The exit handler runs once per process and records it in `exited`. Data that arrives after that is still buffered, so a tail flushed at the exit is logged again, as part of the next complete line.
- **Lookup of the Electron executable.** The result of `require('electron')` is a parameter `lookup`; `None` means it threw.
- **Stream data** arrives as already-decoded strings.
- **Serve events.** The serve builder is driven by two explicit events. A progress event carries the latest progress of every target. A results event carries the success of the latest output of every target. The main-file existence check is a boolean carried by the results event.
- **Option objects** are values. `BuildOptions` has typed fields for the four keys that `mergeBuildOptions` treats specially, and a map for every other key. An absent key is `None`.
- **Mutable state** is modelled as classes whose methods are proved equal to pure transition functions:
  - `ElectronRunner` (with `RunnerState`);
  - the `scan` accumulator `TargetsResult` (with `CycleState`);
  - the serve session (with `Session`).
  The properties are lemmas about those functions.
- **Loops** in the source (`mergeOptions`, `mergeBuildOptions`, `getWebpackExternals`, the depcheck `reduce`) are methods with loop invariants. Each is proved equal to a specification function.

The code is followed where it differs from the prose description of the serve cycle:
- A results event that arrives while some target is still running is dropped. No output is produced and no verdict is kept for later (src/builders/serve/index.ts:191-192).
- A soft reload is not wrapped in `try`. When it falls back to `open` and Electron cannot be found, the serve builder's stream ends: it emits `{ success: false }` and ignores all later events.

In the depcheck branch the build result is `true` whatever depcheck reports, with one exception. When dependencies are missing and the workspace `package.json` has no `dependencies`, reading a version throws. The builder's error handler then yields `false`.

## Model

| member | source | states |
|---|---|---|
| MergeOptions.MergeOptions | src/builders/utils/merge-options.ts:11-24 | the loop over the keys of `b` returns exactly the merged object `Merged(a, b)`: a copy of `a` overlaid with `b`'s non-skipped values |
| MergeOptions.MergedSpec | src/builders/utils/merge-options.ts:12-20 | the result's key set is `keys(a)` plus the keys of `b` whose values are neither undefined nor an empty array; those keys take `b`'s value; every other key of `a` keeps `a`'s value |
| MergeOptions.SkippedValueChangesNothing | src/builders/utils/merge-options.ts:17-19 | a key of `b` whose value is undefined or an empty array neither adds that key nor changes its value |
| MergeOptions.MergeWithFalsyIsCopy | src/builders/utils/merge-options.ts:12-13 | with a falsy `b`, the result equals `a` (a copy; `a` is a value and is never modified) |
| MergeOptions.MergedIdempotent | src/builders/utils/merge-options.ts:11-24 | merging the same `b` a second time changes nothing |
| TargetRefs.GetTargetRef | src/builders/utils/target-ref.ts:18-21 | a string `s` becomes `{ target: s }` with no options; an object is returned as it is; the result is never a string and the function is total |
| TargetRefs.GetTargetRefIdempotent | src/builders/utils/target-ref.ts:19 | applying getTargetRef to its own result gives the same reference |
| TargetRefs.GetTargetRefOfNameHasTarget | src/builders/utils/target-ref.ts:19 | a string reference always yields a defined target and no options |
| BuildOptionsModel.MergedBuildOptions | src/builders/build/options.ts:71-114 | merging anything into present options never yields absent options (the error cases are stated by `MergeMainTarget`) |
| BuildOptionsModel.MergeBuildOptions | src/builders/build/options.ts:71-114 | the key loop, the main-target merge, the renderer loop and the plain-key assignment together return exactly `MergedBuildOptions` |
| BuildOptionsModel.MergeRendererTargets | src/builders/build/options.ts:88-108 | the renderer loop, which tests the current (possibly grown) array at each index, returns exactly the fold `MergedRenderers` |
| BuildOptionsModel.AssignPlainKeys | src/builders/build/options.ts:109-111 | assigning every other key of `additionalOptions` gives `options` overwritten by those keys |
| BuildOptionsModel.RendererMergeByIndex | src/builders/build/options.ts:88-107 | with truthy original entries: the result has max(|original|, |overrides|) entries; an original entry with a truthy override at its index is merged with it; one with a falsy override, or past the end of the overrides, is unchanged; each override past the original array is appended as its own target reference |
| BuildOptionsModel.FalsyOriginalEntryShiftsOverrides | src/builders/build/options.ts:89-106 | with an empty-string original entry, the override at that index is appended; the next override is then merged into the appended entry, not into the entry at its own index |
| BuildOptionsModel.MergeWithFalsyAdditional | src/builders/build/options.ts:75-77 | a falsy `additionalOptions` returns `options` unchanged |
| BuildOptionsModel.MergeOverwritesPlainKeys | src/builders/build/options.ts:109-111 | every key of `additionalOptions` other than `mainTarget`/`rendererTargets` overwrites the same key; other keys keep their values; the key set is the union |
| BuildOptionsModel.MergeMainTarget | src/builders/build/options.ts:80-86 | with a main-target override, the merge throws exactly when the original has no main target, or when the override has renderer targets and the original has none; otherwise the merged main target takes the override's target if defined, else the original's, and its options are `mergeOptions(original, override)` |
| BuildOptionsModel.MergeEmptyIsIdentity | src/builders/build/options.ts:75-113 | additional options without any key leave `options` as they are |
| BuildOptionsModel.NormalizeBuildOptions | src/builders/build/options.ts:47-59 | collecting the overrides, merging them and deleting both override keys returns exactly `Normalized(options)` |
| BuildOptionsModel.NormalizedDropsOverrideKeys | src/builders/build/options.ts:56-57 | after normalization both override keys are absent and every plain key is kept |
| BuildOptionsModel.NormalizedFoldsOverrides | src/builders/build/options.ts:48-55 | normalization fails exactly when an override exists without the key it overrides; otherwise a truthy `mainTargetOverrides` is merged into `mainTarget` and `rendererTargetsOverrides` into `rendererTargets`, and each is left alone without an override |
| BuildOptionsModel.NormalizedIdempotent | src/builders/build/options.ts:47-59 | normalizing normalized options changes nothing |
| BuildTargetOptionsModel.NormalizeBuildTargetOptions | src/builders/utils/build-target-options.ts:26-42 | the result's `buildTarget` is always a reference object and `buildTargetOverrides` is gone; the build target's options are normalized; a truthy override replaces the target name only when it has one; its options are normalized and merged with mergeBuildOptions; every error of those steps is passed on; without overrides the target name is unchanged |
| PrefixLogging.NewPrefixLogger | src/builders/utils/prefix-logger.ts:22 | `logPrefix` is on only when given as true; it defaults to false |
| PrefixLogging.Transform | src/builders/utils/prefix-logger.ts:26-33 | with `logPrefix` off, entries pass unchanged; with it on, the message becomes "[prefix] " plus the message with every line feed replaced by line feed + "[prefix] ", `path` becomes empty, and level, name and timestamp are kept |
| PrefixLogging.PrefixedLines | src/builders/utils/prefix-logger.ts:31 | every line of the prefixed message is "[prefix] " followed by the matching line of the original; the number of lines is preserved |
| PrefixLogging.StripPrefixRecovers | src/builders/utils/prefix-logger.ts:31 | removing "[prefix] " from every line of the prefixed message and joining the lines recovers the original message |
| PrefixLogging.JoinLines | src/builders/utils/prefix-logger.ts:31 | splitting a message at line feeds and joining the pieces again gives the message back |
| LineBuffer.LastIndexOf | src/builders/utils/electron-runner.ts:48 | `lastIndexOf`: the index of the last occurrence or -1, with no occurrence after it |
| LineBuffer.FeedSpec | src/builders/utils/electron-runner.ts:46-53 | after a chunk the buffer holds no line feed; a message is logged exactly when buffer plus chunk held a line feed, and that message is the text before the last line feed; message + line feed + new buffer is buffer + chunk |
| LineBuffer.FeedAllPreservesText | src/builders/utils/electron-runner.ts:47-51 | over any sequence of chunks, the logged messages (each followed by a line feed) plus the remaining buffer equal the starting buffer plus all chunks: no text is lost or duplicated |
| LineBuffer.FeedAllLeavesNoNewline | src/builders/utils/electron-runner.ts:47-51 | after any non-empty sequence of chunks the kept tail holds no line feed: every complete line has been logged |
| ElectronRunning.LiveIsTracked | src/builders/utils/electron-runner.ts:24-27 | under the runner invariant, the only live (spawned, not exited, not killed) process is the tracked one |
| ElectronRunning.KillSpec | src/builders/utils/electron-runner.ts:80-86 | kill with nothing tracked changes nothing; otherwise it records exactly the tracked process as killed and clears the reference; afterwards nothing is live, and killing twice is killing once |
| ElectronRunning.OpenSpec | src/builders/utils/electron-runner.ts:24-38 | the tracked process is killed first in every case; open throws "Could not find electron. Is it installed?" exactly when no path is cached and the lookup fails, and then spawns nothing; otherwise exactly one process is live, the new one, running the cached or found executable on the app path |
| ElectronRunning.ReloadSpec | src/builders/utils/electron-runner.ts:92-98 | with nothing tracked, reload is exactly open; otherwise it sends the reload message to the tracked process and changes nothing else |
| ElectronRunning.OnDataSpec | src/builders/utils/electron-runner.ts:46-61 | a stdout or stderr chunk of a spawned process, exited or not, leaves that stream's buffer without a line feed and logs at most one message, whose text + line feed + new buffer is old buffer + chunk; the other stream's buffer, the tracked process, the exit record and the logs of spawns, kills and sends are untouched |
| ElectronRunning.ExitSpec | src/builders/utils/electron-runner.ts:62-74 | the exit handler clears the tracked reference only if it is still the exiting process; it logs the remaining stdout text and then the remaining stderr text, each only when non-empty, keeps both buffers as they are, and marks the process exited, so it is no longer live |
| ElectronRunning.OnDataAllIsFeedAll | src/builders/utils/electron-runner.ts:46-61 | a sequence of chunks on one stream logs exactly the line buffer's messages and leaves the other stream's buffer untouched |
| ElectronRunning.StdoutNothingLost | src/builders/utils/electron-runner.ts:46-70 | for a fresh process that writes chunks to stdout and exits, the messages logged for it up to the exit, with all but a possible last one ended by a line feed, spell out exactly the concatenated output |
| ElectronRunning.DataAfterExit | src/builders/utils/electron-runner.ts:46-70 | stdout chunks that arrive after the exit are fed onto the buffer the exit flushed: their messages start from that tail, and tail + later output is spelled out exactly by them and the new buffer |
| ElectronRunning.TailLoggedTwice | src/builders/utils/electron-runner.ts:46-70 | "abc" before the exit and "d\n" after it log "abc" at the exit and then "abcd" |
| ElectronRunning.ElectronRunner.constructor | src/builders/utils/electron-runner.ts:19 | a new runner tracks nothing and has no cached path |
| ElectronRunning.ElectronRunner.Open | src/builders/utils/electron-runner.ts:24-75 | updates the fields in place exactly as `Opened` and keeps the runner invariant |
| ElectronRunning.ElectronRunner.Kill | src/builders/utils/electron-runner.ts:80-86 | updates the fields in place exactly as `Killed` and keeps the runner invariant |
| ElectronRunning.ElectronRunner.Reload | src/builders/utils/electron-runner.ts:92-98 | updates the fields in place exactly as `Reloaded` and keeps the runner invariant |
| ElectronRunning.ElectronRunner.OnChunk | src/builders/utils/electron-runner.ts:46-61 | the data handlers update the buffers and log exactly as `OnData`, also after the process's exit |
| ElectronRunning.ElectronRunner.OnExit | src/builders/utils/electron-runner.ts:62-74 | the exit handler flushes, compare-and-clears and records the exit exactly as `Exited` |
| OneShotBuild.RendererLoggerNames | src/builders/build/index.ts:27 | a lone renderer logger is "Renderer"; with several, renderer i is "Renderer i+1" and no two share a name (the serve builder uses the same rule at src/builders/serve/index.ts:111) |
| OneShotBuild.FailedTargets | src/builders/build/index.ts:60 | the filter keeps exactly the results that did not succeed |
| OneShotBuild.BuildVerdictSpec | src/builders/build/index.ts:60-71 | the build fails exactly when some target failed or the main file is missing; failed targets take precedence over the missing main file, and their message is built from the failed targets; otherwise it passes, or runs depcheck when enabled |
| OneShotBuild.FailedTargetsAppend | src/builders/build/index.ts:60 | the failed targets of two result lists joined are those of the first followed by those of the second, so order and repeats are kept |
| OneShotBuild.FailedTargetsSingle | src/builders/build/index.ts:60 | a single result is listed exactly when it did not succeed |
| OneShotBuild.VersionedSpec | src/builders/build/index.ts:93-94 | the missing dependencies split exactly into those with a root version (taken with that version) and those without one |
| OneShotBuild.AssignedSpec | src/builders/build/index.ts:103-106 | assigning the found dependencies one by one gives the root version for each found name and keeps every other existing entry |
| OneShotBuild.MergeMissingDependencies | src/builders/build/index.ts:91-118 | the collection loop and the `reduce` return exactly `DepsMerged`, warning header as written included |
| OneShotBuild.DepsMergedSpec | src/builders/build/index.ts:91-118 | reading versions throws exactly when dependencies are missing and the root package.json has no `dependencies`; the output package.json is rewritten exactly when some missing dependency has a root version, with those added or overwritten and every other entry kept; a warning is logged exactly when some missing dependency has no root version, and its header chooses the noun from the number of added dependencies, as written |
| OneShotBuild.DepcheckBranchSucceeds | src/builders/build/index.ts:69-75 | with all targets built and the main file present, the result is true with depcheck off, and with depcheck on it is true unless the version lookup throws |
| OneShotBuild.UnversionedHeaderAsWrittenMisagrees | src/builders/build/index.ts:109-115 | for missing [a, b, c] with only a in the root package.json, the warning as written reports 2 dependencies with the singular noun |
| OneShotBuild.UnversionedHeaderAgrees | src/builders/build/index.ts:109-115 | the corrected warning uses "dependency" exactly when it reports one dependency |
| ServeCycle.AnyRunning | src/builders/serve/index.ts:155-161 | `main` (`renderer`) is true exactly when some target of that type reports Running |
| ServeCycle.DedupSpec | src/builders/serve/index.ts:162 | what distinctUntilChanged lets through has no equal neighbours, is empty only for empty input, ends with the input's last state and holds only input states |
| ServeCycle.DedupOfNoRepeats | src/builders/serve/index.ts:162 | a sequence without equal neighbours passes through unchanged |
| ServeCycle.DedupIdempotent | src/builders/serve/index.ts:162 | deduplicating twice is deduplicating once |
| ServeCycle.ProgressFeedsDedup | src/builders/serve/index.ts:152-168 | from a session that has seen no running state, a sequence of progress events runs the reducer on exactly `Dedup` of their running states, remembers the last of them, emits nothing and leaves Electron alone |
| ServeCycle.StateChangedSpec | src/builders/serve/index.ts:202-205 | a running-state event ORs main/renderer into the sticky flags, sets curAnyRunning to main or renderer, and produces no output and no reload |
| ServeCycle.ResultsWhileRunningDropped | src/builders/serve/index.ts:189-192 | a results event while something runs produces no output and no reload and leaves every flag unchanged |
| ServeCycle.ResultsWhenIdle | src/builders/serve/index.ts:191-200 | a results event while nothing runs outputs success = every result succeeded and the main file exists; reload is hot exactly when mainWasRunning, else soft; both sticky flags are reset |
| ServeCycle.TransitionForgetsLastDecision | src/builders/serve/index.ts:189-190 | output and reload are cleared at every event: the next decision does not depend on them; an event produces an output exactly when it produces a reload, and exactly when it is a results event while nothing runs |
| ServeCycle.StickyFlags | src/builders/serve/index.ts:203-205 | over running-state events the sticky flags record whether main (renderer) ran in any of them, and curAnyRunning follows the last one |
| ServeCycle.CycleReload | src/builders/serve/index.ts:187-214 | after a closed cycle, running-state events ending in "nothing runs" followed by results give exactly one output, and the reload is hot exactly when the main target ran during the cycle |
| ServeCycle.ResultsWhileRunningLeaveNoTrace | src/builders/serve/index.ts:191-192 | any number of results events while something runs leave no verdict behind |
| ServeCycle.TargetsResult.constructor | src/builders/serve/index.ts:209-213 | the accumulator starts with all three flags false and no output |
| ServeCycle.TargetsResult.Accumulate | src/builders/serve/index.ts:188-207 | the in-place update of the accumulator is exactly `Transition` |
| ServeCycle.OnProgressSpec | src/builders/serve/index.ts:152-168 | progress events never emit and never touch Electron; a running state equal to the last one changes nothing; otherwise reportRunning is called when something runs and the reducer sees the new state |
| ServeCycle.OnResultsSpec | src/builders/serve/index.ts:215-235 | Electron is touched only when the event's output succeeded; a results event emits one output exactly when it closes a cycle, and none while something runs; a succeeded cycle in which main ran leaves the runner as `Opened` makes it, and one in which only renderers ran leaves it as `Reloaded` makes it, or killed and the builder ended when that reload fails |
| ServeCycle.HotReloadFailureIsLogged | src/builders/serve/index.ts:219-225 | a hot reload whose open fails logs the error, still emits the succeeded output, and the builder goes on |
| ServeCycle.SoftReloadFailureEndsServe | src/builders/serve/index.ts:226-241 | a soft reload that falls back to open and fails ends the builder with a failed output; every later event is ignored |
| ServeCycle.TornDownKillsElectron | src/builders/utils/electron-runner.ts:104-111 | tearing the serve builder down kills the tracked Electron process, leaving none live |
| ServeCycle.ServeSession.constructor | src/builders/serve/index.ts:144-148 | a session starts with a fresh accumulator and a fresh runner, nothing emitted |
| ServeCycle.ServeSession.Scan | src/builders/serve/index.ts:187-235 | the reducer, the reload step and the output filter update the session exactly as `AfterScan` |
| ServeCycle.ServeSession.HandleProgress | src/builders/serve/index.ts:152-168 | a progress event updates the session exactly as `OnProgress` |
| ServeCycle.ServeSession.HandleResults | src/builders/serve/index.ts:170-235 | a results event updates the session exactly as `OnResults` |
| ServeCycle.ServeSession.Stop | src/builders/utils/electron-runner.ts:108-110 | unsubscribing kills the runner's tracked process |
| ApplicationSchematic.RelativeRootSpec | src/schematics/application/index.ts:832-835 | the result is `p` for an empty root and otherwise root + "/" + p; it always ends with `p` and starts with "/" only if the root or, for an empty root, `p` does |
| ApplicationSchematic.WebpackExternals | src/schematics/application/index.ts:804-812 | the externals are exactly "electron" and the 40 listed built-in modules, each `m` mapped to "commonjs m" |
| ApplicationSchematic.AngularProjects | src/schematics/application/index.ts:787-802 | a name is returned exactly when its project's build target uses one of the two browser builders |
| ApplicationSchematic.ProjectWithoutBuildExcluded | src/schematics/application/index.ts:791-794 | a project without a build target is never returned |
| ApplicationSchematic.ValidateNameSpec | src/schematics/application/index.ts:273-278 | a missing or empty name is rejected with "Invalid options, "name" is required."; any other name is accepted exactly when the project-name validator accepts it |
| ApplicationSchematic.ProjectNamesDistinct | src/schematics/application/index.ts:170-173 | in multi-project mode main is "name-main", electron "name-electron" and they never collide; a renderer created as "name-renderer" collides with neither |
| ApplicationSchematic.CustomWebpackVersionSpec | src/schematics/application/index.ts:123-125 | without `@angular/core` the range is "latest"; with it, it is "^N.0.0" with N the first digit run of its version; reading fails exactly when the version has no digit |
| ApplicationSchematic.MainBuilderOptionSpec | src/schematics/application/index.ts:198-227 | non-interactively, no choice gives "@da-mkay/ng-builder-typescript"; "@richapps/ngnode" is refused exactly for an Angular major below 9, and accepted for an unknown version |
| Text.FirstDigitRunSpec | src/schematics/application/index.ts:124 | `match(/\d+/)` finds nothing exactly when there is no digit; otherwise it finds the maximal digit run that starts at the first digit |

## Left out

- The rxjs plumbing (`combineLatest`, `merge`, `switchMap`, `defer`, `catchError`) is replaced by explicit events and handler functions. Results events follow `combineLatest`: they carry the latest output of every target, and the model takes them as given.
- Target scheduling, `run.stop()` and the asynchronous teardown order are not modelled. They are concurrency glue (src/builders/utils/schedule-target.ts is not part of this model).
- Real process spawn, kill, IPC send and `require('electron')` are not performed. They appear as logs and a `lookup` parameter.
- UTF-8 decoding with `StringDecoder` is not modelled. Chunks arrive already decoded, and the decoder's final flush on exit adds nothing.
- File system access is left out: package.json reads and writes, `existsSync`, output-path setup and `path` resolution. The main-file check is a boolean input, and package.json contents are parameters. Output-path setup lives in src/builders/utils/setup-build-output-path.ts, which is not part of this model.
- The depcheck analysis itself is not modelled. Its missing-dependency names are a parameter.
- The "Running depcheck …" info line (src/builders/build/index.ts:72) is log output only and is not modelled.
- Depcheck's warnings about invalid files and directories (src/builders/build/index.ts:78-90) are log output only and are not modelled.
- The "Scheduled … target" info lines are not modelled.
- The warning on a target that completes in watch mode is not modelled.
- The error handler's logging in the build builder is not modelled; only its `success: false` is.
- ANSI styling (`dim`, the optional style function of `PrefixLogger`) is not modelled.
- The package builder is not modelled: it is a thin wrapper over electron-builder.
- The ng-add schematics are not modelled. They consist of prompts, semver calls and install tasks.
- In the application schematic, the following are not modelled: interactive prompting, template application, workspace updates, the literal target configurations, TypeScript-AST edits and `dasherize`/`join` path handling.
- Option objects are values: `mergeBuildOptions` and `normalizeBuildTargetOptions` update their argument in place. Aliasing of that argument is therefore not captured. Neither are the keys already written into it before a TypeError.
- `Object.keys` order is not modelled. The merges are insensitive to it except for where a TypeError interrupts the key loop.
- JSON `null` entries in target arrays are not modelled; a falsy entry is the empty string.
- Dependency versions are strings, and non-object `dependencies` values in the output's package.json are not modelled.
- Numbers in options are integers; no modelled option uses a fraction.
- MergedBuildOptions: a typed key of `additionalOptions` is either absent or holds a value. A key that is present with the value `undefined` is read as absent, so the model skips it where the source acts on it. `mainTarget: undefined` makes `.target` of `getTargetRef(undefined)` throw a TypeError (src/builders/build/options.ts:81-84). `rendererTargets: undefined` throws at `.length` (src/builders/build/options.ts:88). `mainTargetOverrides: undefined` or `rendererTargetsOverrides: undefined` is assigned over the existing value (src/builders/build/options.ts:110).
- Transform: the replacement string of `String.prototype.replace` expands `$` patterns (`$&`, `$$`, …). `Transform`, `PrefixedLines` and `StripPrefixRecovers` insert the prefix literally, which matches the source only for prefixes without `$`.
- `ServeCycle.ErrorMessage` gives a TypeError a fixed message; the runtime's exact wording is not modelled. Only errors with a message of their own reach it.
- `ApplicationSchematic.MainBuilderOption` takes the Angular version as a digit run or undefined, which is all `match(/\d+/)` can produce. `Number` on other strings is not modelled.

## Findings

| source | as written | input that shows it | evidently intended | confidence | as-written member | corrected member |
|---|---|---|---|---|---|---|
| src/builders/build/index.ts:113 | the warning about dependencies without a root version picks "dependency"/"dependencies" from the number of ADDED dependencies | missing deps [a, b, c], root package.json has only a: the warning reads "Found 2 used dependency that were not found in root package.json:" | choose the noun from `missingVersion.length`, the number the warning reports | high (not executed) | OneShotBuild.UnversionedHeaderAsWrittenMisagrees | OneShotBuild.UnversionedHeaderAgrees |
