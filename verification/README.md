# ttpg-scripts, modelled in Dafny

ttpg-scripts is the command-line helper for Tabletop Playground (TTPG) mod
projects. It keeps two config documents in the project root:

- `ttpgcfg.local.json` holds the machine's TTPG package folder.
- `ttpgcfg.project.json` holds the project's name, slug, template, GUIDs and ModID.

From these it stages the project into the TTPG folder in two forms:

- a production directory `<ttpg>/<slug>`, holding the assets, `Scripts` and `Manifest.json`;
- a development link `<ttpg>/<slug>_dev`, which points at `./dev/<slug>_dev`.

This project models the commands `setup`, `build`, `libpack`, `dev`, `purge`,
`postpublish`, `clean` and `reset`, the helpers they share, and the dispatch in
`index.ts`. The model is a functional state machine:

- `Workspace` records what is present: both configs, `./assets`, `./build`,
  `./lib`, `rollup.config.js`, `./dev` with its stages, and the entries of
  the TTPG folder.
- Every command is a pure function from a workspace and an environment to a
  `Run`. A `Run` is `Completed(state)` or `Failed(error, state)`. The state of
  a failed run is the state the failing stage was given: a failing call is
  taken to change nothing itself (see "Left out"). Earlier stages are not
  rolled back, because the source rethrows from each stage without undoing
  them.
- A command is a set of pre-checks plus a plan of `Step`s that
  `Pipeline.Execute` runs in order:
  - `Must(a)` is a stage whose failure ends the command.
  - `Try(a)` is a stage whose failure is logged and swallowed. Only the two
    copies into `Scripts` are of this kind.
- The environment (`Env`) decides what the outside world does:
  - the set of stages whose filesystem call fails;
  - the outcomes of the `tsc` and `yarn` processes.
- Prompt answers, the platform, `HOME`, freshly generated UUIDs and `-y` are
  inputs fixed in advance.

Modules:

- `Wrappers`: `Option` and `Result`.
- `Text`: `trim`, ASCII `toLowerCase`, the slug suggestion and the GUID normaliser.
- `Workspace`: the state, paths, errors and stages.
- `Common`: the helpers of `common.ts`.
- `Bundling`: the script names libpack collects and the rollup config it generates.
- `Pipeline`: the actions, `Perform`, `Execute`, and frame and invariant lemmas.
- One module per command: `Build`, `Libpack`, `Dev`, `Purge`, `PostPublish`, `Clean`, `Reset`, `Setup`.
- `Cli`: `index.ts`.

Where the code and the tool's written description differ, the model follows
the code, with the two exceptions named under "Findings": `Cli.Invoke` uses
the corrected command lookup (`Cli.InvokeAsWritten` is the lookup as
written), and the slug prompt is modelled both ways (`Setup.RunSetup`, which
`Cli.Dispatch` runs, records the answer as written; `Setup.RunSetupCorrected`
takes the suggestion for an empty answer). Otherwise:

- `dev` writes no manifest.
- `dev` creates the asset junctions without an existence check, so a second
  run fails.
- `dev` decides between transpiling and copying on `template` alone.
- There is no schema migration from `template` to `transpile`.
- The copy into `Scripts` in build and libpack is tolerated when it fails.
- `purge` captures no thumbnail.
- A failing command still ends the process normally: the error is caught and
  logged, and the exit status is not set.
- There is no `guid` command.
- `libpack` and `postpublish` are not reachable from the command table.
- `assertSetup` checks only for the local config.
- `libpack.ts` imports `spawnLibBundler` from `common.ts`, which exports no
  such helper, so as written the bundler stage (`src/commands/libpack.ts:102-109`)
  cannot run. The model gives the bundler stage the outcome the environment
  decides, as for `tsc` and `yarn`.

## Model

| member | source | states |
|---|---|---|
| Text.Trim | src/common.ts:52 | The trimmed answer has no whitespace at either end. It is at most as long as the answer. |
| Text.TrimIsInfix | src/common.ts:52 | The trimmed answer is a contiguous slice of the answer. Everything cut off on either side is whitespace. |
| Text.TrimIdempotent | src/common.ts:52 | Trimming twice gives the same result as trimming once. |
| Text.ToLower | src/commands/purge.ts:26-27 | Lower-casing keeps the length and maps each character through the ASCII lower-case mapping. |
| Text.IsYesCharacterised | src/commands/purge.ts:19-27 | A prompt answer counts as "y" exactly when, trimmed, it is a single `y` or `Y`. |
| Text.CaseRoundTrip | src/common.ts:82 | Upper-casing a lower-case ASCII letter and lower-casing it again gives it back, and the other way round. Other characters are left alone, and lower-casing keeps word characters word characters. |
| Text.NormaliseGuid | src/common.ts:147 | A generated GUID is no longer than the UUID and has no dash and no lower-case letter. |
| Text.NormaliseGuidChar | src/common.ts:147 | A single dash is dropped, and any other single character is upper-cased. |
| Text.NormaliseGuidConcat | src/common.ts:147 | The normaliser works character by character: normalising a concatenation concatenates the normalised parts. |
| Text.NormaliseGuidKeepsLength | src/common.ts:147 | A dash-free UUID keeps its length, and each of its characters is upper-cased in place. |
| Text.NormaliseGuidFixedPoints | src/common.ts:147 | The normaliser leaves a string unchanged exactly when the string is already dash-free and upper-case. |
| Text.NormaliseGuidIdempotent | src/common.ts:147 | Normalising a generated GUID again changes nothing. |
| Text.SuggestSlug | src/common.ts:82 | The suggested slug is as long as the title. A position holds `-` exactly when the title's character there is not a word character, and otherwise that character lower-cased. |
| Text.ReplaceNonWord | src/common.ts:82 | Replacing `\W` by `-` keeps the length, keeps every word character and puts `-` in place of every other one. |
| Text.SuggestSlugIsLowerThenReplace | src/common.ts:82 | The suggestion is the title lower-cased first and then stripped of non-word characters, in that order. |
| Text.SuggestSlugIdempotent | src/common.ts:82 | A suggested slug suggests itself. |
| Workspace.AssetDirsShape | src/common.ts:8 | There are exactly seven asset categories, all distinct, and they form the category set. |
| Workspace.HostPathExists | src/common.ts:10-18 | A TTPG entry exists when it is a production directory or a junction whose `./dev` stage exists: `fs.access` follows links. |
| Common.AssertSetup | src/common.ts:123-128 | The workspace fails as not set up exactly when the local config is missing. |
| Common.LoadConfig | src/common.ts:130-135 | Loading succeeds exactly when both config documents are present, and returns them. Otherwise it fails as a missing config. |
| Common.Prepare | src/commands/build.ts:6-7 | The setup check comes before loading: a missing local config reports not set up, and anything else is the load's result. |
| Common.SuggestedTtpgPath | src/common.ts:36-43 | darwin suggests the `HOME`-based package path and win32 the Steam path. There is a suggestion exactly on those two platforms, and it is never empty. |
| Common.ChooseTtpgPath | src/common.ts:52-53 | A typed path wins after trimming. An empty answer falls back to the suggestion. The choice is never empty. |
| Common.NewLocalConfig | src/common.ts:45-72 | The local config fails, with "ttpg_path is required", exactly when nothing is typed and the platform has no suggestion. Otherwise it records the typed path or the suggestion. |
| Common.ChooseGuid | src/common.ts:84-93 | A GUID prompt takes the trimmed answer when it is not empty, and otherwise the freshly generated GUID. |
| Common.ChooseTemplate | src/common.ts:95-97 | The template is always typescript or javascript. It is javascript exactly when the normalised answer says so. |
| Common.ProjectConfigWith | src/common.ts:80-119 | The project config fails exactly when the title is empty. Otherwise it records the title, the slug, the chosen template and both GUIDs (typed or generated). Version, ModID and transpile stay unset. |
| Common.NewProjectConfigAsWritten | src/common.ts:83-104 | As written, the slug recorded is the raw slug answer, which may be empty. |
| Common.EmptySlugAnswerIsRecorded | src/common.ts:82-104 | For title "My Mod" and an empty slug answer, the suggestion is "my-mod" but the config records the empty slug. |
| Common.ChooseSlug | src/common.ts:82-83 | The slug is the trimmed answer or, when that is empty, the suggestion. It is never empty for a titled project. |
| Common.NewProjectConfig | src/common.ts:74-121 | The corrected project config agrees with the as-written one except for the slug, which is never empty. |
| Common.ToolRejection | src/common.ts:149-163 | A tool run is accepted exactly when the process exits with a code that is not positive. A spawn error is a failure, and a positive code is reported. |
| Common.TranspileRulesDiffer | src/commands/dev.ts:34 | Whenever dev transpiles, build does too. They disagree exactly when `transpile` is set on a project whose template is not typescript. |
| Common.DeriveManifest | src/commands/build.ts:76-81 | The production manifest carries the project's name, version, production GUID and ModID. |
| Common.ManifestModIdRoundTrip | src/commands/build.ts:76-81 | Capturing the ModID from a freshly built manifest gives back the project config unchanged. The manifest has a ModID exactly when the project has one. |
| Bundling.References | src/commands/libpack.ts:62-72 | A name is referenced exactly when some template carries it as a non-empty script name. |
| Bundling.Dedup | src/commands/libpack.ts:62-72 | Deduplication keeps each name once, loses none, and keeps the order of first occurrence. |
| Bundling.Select | src/commands/libpack.ts:65-72 | Selecting the array-index names, or the other names, keeps exactly those that make an own key (every name but `__proto__`), and keeps them distinct. |
| Bundling.SelectKeepsOrder | src/commands/libpack.ts:65-72 | Selection keeps the order of first reference. |
| Bundling.SortIndices | src/commands/libpack.ts:65-72 | The array-index names are sorted by numeric value, losing and adding none and keeping them distinct. |
| Bundling.ScriptNames | src/commands/libpack.ts:65-72 | The names are the keys `Object.keys` gives for the accumulator: each referenced name once, and every referenced name except `__proto__`, whose assignment makes no key. |
| Bundling.ScriptNamesOrder | src/commands/libpack.ts:65-72 | The keys are in `Object.keys` order: array-index names such as `"2"` and `"10"` first, in ascending numeric order, then the other names in order of first reference. |
| Bundling.Insert | src/commands/libpack.ts:65-72 | Inserting a name into a list ascending by numeric value adds exactly that name, and keeps the list ascending and (for a new name) distinct. |
| Bundling.BundleOutputsOf | src/commands/libpack.ts:102-109 | Rollup writes one bundle per script name of the config and no other. |
| Bundling.RollupConfigFor | src/commands/libpack.ts:73-97 | The generated config has one input entry per script name, mapped to `./build/<name>`, and the host API module is its only external. |
| Bundling.RollupInputRoundTrip | src/commands/libpack.ts:86-90 | The input map's keys are the script names, each key occurs once, and each entry path leads back to its key. |
| Pipeline.Perform | src/commands/build.ts:14-89 | One stage of a command: a refusal when its precondition on the workspace fails, a fault when the environment makes the call fail, and otherwise its effect. |
| Pipeline.StagesOfAppend | src/commands/build.ts:14-89 | The stages of two plans run one after the other are the first plan's stages followed by the second's. |
| Pipeline.DanglingLink | src/commands/dev.ts:24-32 | A junction whose dev stage is gone does not exist for `pathExists`: the guarded link removal skips it, and dev's `fs.symlink` onto it fails as already present. |
| Pipeline.Execute | src/commands/build.ts:14-89 | Stages run in order. A failing required stage ends the run with the state it was given, and a failing tolerated stage is skipped. |
| Pipeline.ErrorNamesStage | src/commands/build.ts:14-89 | Every failing action reports its own stage, except the config prompts, which report their own errors. |
| Pipeline.ExecuteAppend | src/commands/build.ts:5-92 | Running two plans one after the other is running their concatenation. |
| Pipeline.ExecuteOne | src/commands/build.ts:61-67 | A single tolerated step that fails leaves the state as it was and completes. A single required step that fails ends the run with that error. |
| Pipeline.FailureIsAtAStep | src/commands/build.ts:14-89 | A failed run failed at some required step. Every step before it completed. The state reported is the state that step was given, with no rollback. |
| Pipeline.PerformKeepsConfigs | src/common.ts:45-121 | Only the config actions touch the config documents. |
| Pipeline.ExecuteKeepsConfigs | src/commands/build.ts:5-92 | A plan without config actions leaves both configs as they were. |
| Pipeline.ExecuteKeepsManifestAbsent | src/commands/libpack.ts:141-154 | Without a manifest write, no manifest appears. |
| Pipeline.ExecuteKeepsLib | src/commands/libpack.ts:102-132 | Only the bundler and the removal of `./lib` change `./lib`. |
| Pipeline.ExecuteKeepsProduction | src/commands/build.ts:14-19 | Once a production directory exists, no plan without a removal takes it away. |
| Pipeline.ExecuteIgnoresProject | src/commands/dev.ts:5-60 | A plan that does not write the project config behaves the same whatever project config is stored. |
| Pipeline.PerformPreservesWf | src/common.ts:8 | Every admissible action keeps the workspace well formed: stages exist only under `./dev`, and junctions are only the asset categories. |
| Pipeline.ExecutePreservesWf | src/common.ts:8 | Running an admissible plan, to completion or failure, keeps the workspace well formed. |
| Build.ScriptsStage | src/commands/build.ts:35-53 | Build transpiles exactly when `transpile` is set or the template is typescript. Otherwise it copies the sources. |
| Build.BuildPlan | src/commands/build.ts:14-89 | The build stages in source order. |
| Build.BuildStageOrder | src/commands/build.ts:14-89 | The build stages are: production directory, assets, `./build`, transpile or copy, dependencies, copy into `Scripts`, removal of `./build`, manifest. Only the copy into `Scripts` is tolerated. |
| Build.RunBuild | src/commands/build.ts:5-13 | Build reports not set up, a missing config, or "Production build already exists", in that order, each without changing anything. |
| Build.StagingCompleted | src/commands/build.ts:14-60 | Completed staging means the production directory was absent and now holds just the assets. `./build` then holds the staged sources with their dependencies. |
| Build.TreeStepsCompleted | src/commands/build.ts:28-60 | The `./build` stages change `./build` alone and leave it holding the sources and dependencies. |
| Build.FinishOutcome | src/commands/build.ts:68-89 | The removal and manifest stages complete exactly when neither call faults. They then leave `./build` gone and the manifest written. |
| Build.BuildTailCompleted | src/commands/build.ts:61-89 | After staging, the tail removes `./build` and writes the manifest. `Scripts` receives the build unless the tolerated copy failed. |
| Build.BuildCompleted | src/commands/build.ts:5-92 | A completed build had no production directory before. It leaves one with assets, the derived manifest and (unless the copy failed) the built scripts and dependencies. `./build` is gone and nothing else changes. |
| Build.FreshBuild | src/commands/build.ts:5-92 | With tools that succeed and no filesystem faults, build completes. Its result is stated exactly, with `Scripts` missing only when the copy faults. |
| Build.FailedBuildLeavesNoManifest | src/commands/build.ts:76-89 | A failed build never leaves a manifest in the production directory. |
| Build.BuildFailsAtStage | src/commands/build.ts:14-89 | A failed build fails at a named stage other than the tolerated copy. Every earlier stage completed, and the state is what that stage was given. |
| Libpack.LibpackPlan | src/commands/libpack.ts:14-154 | The libpack stages in source order. |
| Libpack.LibpackStageOrder | src/commands/libpack.ts:14-154 | The libpack stages are the build's staging, then the template scan, the rollup config, the bundler, the copy into `Scripts`, the removals of `./build`, `./lib` and the rollup config, and the manifest. Only the copy into `Scripts` is tolerated. |
| Libpack.RunLibpack | src/commands/libpack.ts:6-13 | Libpack has the same pre-checks as build, in the same order, and they change nothing. |
| Libpack.BundleCompleted | src/commands/libpack.ts:62-109 | Completed bundling means no template was malformed. The rollup config then lists the scripts, and `./lib` gains one bundle per referenced script. |
| Libpack.CleanupCompleted | src/commands/libpack.ts:110-154 | The cleanup removes `./build`, `./lib` and the rollup config and writes the manifest. `Scripts` receives the bundles unless the tolerated copy failed. |
| Libpack.RemovalsCompleted | src/commands/libpack.ts:117-154 | The three removals and the manifest write, completed, leave exactly those three gone and the manifest written. |
| Libpack.LibpackTailCompleted | src/commands/libpack.ts:62-154 | Everything after staging, completed, leaves the packed production directory and no temporary files. |
| Libpack.LibpackCompleted | src/commands/libpack.ts:6-157 | A completed libpack had no production directory before. It leaves one with assets, the manifest and (unless the copy failed) exactly the bundles. No `./build`, `./lib` or rollup config remains, and nothing else changes. |
| Libpack.LibpackState | src/commands/libpack.ts:6-157 | A completed libpack's whole state is the packed workspace, with or without the bundle in `Scripts`. |
| Libpack.PrefixBeforeBundler | src/commands/libpack.ts:15-101 | No stage before the bundler touches `./lib` or writes a manifest. |
| Libpack.ScanFailureSkipsBundler | src/commands/libpack.ts:98-101 | A failure of the template scan or the config write leaves `./lib` as it was and no manifest. |
| Libpack.ScanStagesAt | src/commands/libpack.ts:62-101 | The scan and the config write are the sixth and seventh libpack stages, and no libpack stage prompts for a config. |
| Dev.LinkAll | src/commands/dev.ts:18-23 | There is one unguarded junction step per category, in category order. |
| Dev.DevScriptsStage | src/commands/dev.ts:34-52 | Dev transpiles exactly when the template is typescript, and never looks at `transpile`. |
| Dev.DevPlan | src/commands/dev.ts:10-59 | The dev stages in source order. |
| Dev.DevStageOrder | src/commands/dev.ts:10-59 | The dev stages are: the stage directory, the junctions, the host link, transpile or copy, dependencies. None is tolerated. |
| Dev.LinkStages | src/commands/dev.ts:18-23 | The junction stages are one per category, in the order Fonts, Models, Sounds, States, Templates, Textures, Thumbnails, and all are required. |
| Dev.DevTailStages | src/commands/dev.ts:25-59 | After the junctions come the host link, transpile or copy (by template), and dependencies, all required. |
| Dev.RunDev | src/commands/dev.ts:5-8 | Dev reports not set up or a missing config, changing nothing. |
| Dev.LinkAllSpec | src/commands/dev.ts:18-23 | The junction stage completes exactly when the stage exists and every listed category is distinct, not yet linked and not faulted. It then adds exactly those junctions. A failure names one of the categories. |
| Dev.LinkAllRefusesExisting | src/commands/dev.ts:18-23 | A stage that already holds the first category's junction fails on it as already present, changing nothing. |
| Dev.StageReady | src/commands/dev.ts:10-17 | After the stage directory step, the stage `<slug>_dev` exists. |
| Dev.DevHeadCompleted | src/commands/dev.ts:10-23 | The first two stages, completed, leave the stage holding all seven junctions, none of which it held before. |
| Dev.AllCategoriesLinked | src/commands/dev.ts:19 | Linking every category links exactly the category set. |
| Dev.DevScriptsCompleted | src/commands/dev.ts:34-59 | The Scripts refresh, completed, adds the transpiled or copied sources and the dependencies. |
| Dev.DevTailCompleted | src/commands/dev.ts:25-59 | The host link is created only when it does not resolve, and the stage's Scripts are refreshed. Nothing else changes. |
| Dev.DevCompleted | src/commands/dev.ts:5-60 | A completed dev run leaves `./dev/<slug>_dev` with every category's junction, fresh scripts and dependencies, and a resolving host link. Nothing else changes and no manifest is written. |
| Dev.DevRerunFails | src/commands/dev.ts:18-23 | Running dev again after a completed run fails at the first category's junction as already present, changing nothing. |
| Dev.DevPlanIgnoresTranspile | src/commands/dev.ts:34 | Dev's stages do not depend on `transpile`, while build's choice does. |
| Dev.DevIgnoresTranspile | src/commands/dev.ts:34-52 | Two projects that differ only in `transpile` give the same dev run. |
| Dev.DevPlanAdmissible | src/commands/dev.ts:19 | Dev links only asset categories. |
| Dev.DevPreservesWf | src/commands/dev.ts:5-60 | A dev run, completed or failed, keeps the workspace well formed. |
| Purge.Confirmation | src/commands/purge.ts:19-27 | The confirmation compared is "y" under `-y`, and otherwise the trimmed, lower-cased answer. |
| Purge.SavesModId | src/commands/purge.ts:30-37 | The ModID is saved only when the manifest has one, and then under `-y` or a "y" answer. |
| Purge.Deletes | src/commands/purge.ts:42 | The production directory is removed exactly when the confirmation is "y". |
| Purge.PurgePlan | src/commands/purge.ts:35-51 | The ModID save when chosen, then the removal when chosen. |
| Purge.RunPurge | src/commands/purge.ts:7-54 | Purge reports not set up or a missing config. With no production directory it only warns. An unreadable manifest fails before anything is written. |
| Purge.PurgeRunsPlan | src/commands/purge.ts:19-51 | With a readable manifest, purge runs exactly the ModID save and the removal that the answers chose. |
| Purge.PurgePlanOutcome | src/commands/purge.ts:35-51 | The save happens when chosen and the removal when chosen. A failed save stops before the removal, and a failed removal keeps the saved ModID. |
| Purge.PurgeOutcome | src/commands/purge.ts:7-55 | Purge's outcome is stated for every combination of answers and faults. |
| Purge.PurgeDeletesOnlyWhenConfirmed | src/commands/purge.ts:42-51 | The production directory disappears only after a "y" or `-y`. No other TTPG entry is touched. |
| Purge.PurgeSavesModIdWithoutDeleting | src/commands/purge.ts:30-42 | Declining the removal but accepting the save captures the ModID and keeps the directory. |
| Purge.ForcedPurge | src/commands/purge.ts:19-33 | Under `-y`, purge saves any ModID and removes the directory, whatever the answers. |
| Purge.PurgeWithoutModIdKeepsProject | src/commands/purge.ts:39-41 | A manifest without a ModID leaves the project config untouched. |
| Purge.FailedBuildLeavesProduction | src/commands/build.ts:14-89 | A build that fails after its first stage leaves the production directory in place and the configs unchanged. |
| Purge.BuildPrefixKeepsConfigs | src/commands/build.ts:14-89 | No build stage touches the configs. |
| Purge.BuildPastFirstStage | src/commands/build.ts:14-19 | A build prefix that got past creating the production directory leaves that directory in place. |
| Purge.FailedBuildBlocksPurgeAndBuild | src/commands/purge.ts:29 | After such a failed build, purge cannot read the manifest and a new build refuses because the directory exists. |
| PostPublish.RunPostPublish | src/commands/postpublish.ts:5-23 | Postpublish reports not set up or a missing config. With no production directory it only warns. An unreadable manifest fails. |
| PostPublish.PostPublishOutcome | src/commands/postpublish.ts:13-20 | Without a ModID nothing changes. With one, the project config gains it, or the write fails and nothing changes. The next manifest carries the captured ModID. |
| PostPublish.PostPublishOnlyCapturesModId | src/commands/postpublish.ts:5-23 | Postpublish changes nothing but the ModID of the project config. |
| PostPublish.PostPublishAfterBuildIsStable | src/commands/postpublish.ts:13-17 | Right after a build, postpublish writes back the project config it read. |
| Clean.RunClean | src/commands/clean.ts:5-9 | With a local config but no project config, clean fails before removing anything. |
| Clean.ClearStepsOutcome | src/commands/clean.ts:26-45 | `./dev` and `./build` are each removed only when present, and the first failed removal stops. |
| Clean.CleanCompletes | src/commands/clean.ts:5-46 | Clean completes exactly when the configs load (or there is no local config) and no removal it must make faults. It then leaves the link, `./dev` and `./build` gone. |
| Clean.CleanFrame | src/commands/clean.ts:5-46 | Whatever the outcome, clean changes nothing but the dev link, `./dev` and `./build`. |
| Clean.CleanIdempotent | src/commands/clean.ts:5-46 | After a completed clean, a second clean completes at once, changing nothing. |
| Reset.RunReset | src/commands/reset.ts:5-48 | Reset with the local config built from the prompt answers. |
| Reset.ResetSteps | src/commands/reset.ts:11-48 | Reset's actions are only the link removal, the local config removal, the two clearings and the local config prompt. |
| Reset.RunResetWith | src/commands/reset.ts:5-9 | With a local config but no project config, reset fails before removing anything. |
| Reset.UnlinkOutcome | src/commands/reset.ts:11-23 | The link is removed only when it resolves, and then the local config is removed. The first failure stops. |
| Reset.TailOutcome | src/commands/reset.ts:27-48 | Without a local config, the clearings and the prompt complete exactly when no removal faults and the answers give a config that can be written. |
| Reset.ResetCompletes | src/commands/reset.ts:5-48 | Reset completes exactly when the configs load, no removal faults, and the new TTPG path can be chosen and written. It then leaves the cleaned workspace with the new local config. |
| Reset.ResetWithoutAnswerUnsetsUp | src/commands/reset.ts:23-48 | Without a usable answer, reset ends with no local config: the workspace is no longer set up. |
| Reset.ResetNeedsTtpgPath | src/commands/reset.ts:47-48 | With no typed path and no suggestion, reset fails with "ttpg_path is required" after clearing everything. |
| Reset.ResetFrame | src/commands/reset.ts:5-48 | Whatever the outcome, reset keeps the project config, the assets, the bundles and every TTPG entry except the dev link. |
| Reset.ResetIsCleanThenConfig | src/commands/reset.ts:5-48 | A completed reset leaves what a completed clean leaves, plus the new local config. |
| Setup.RunSetup | src/commands/setup.ts:5-32 | Setup as written: the project config records the slug answer as typed. |
| Setup.SetupRecordsSlugAnswer | src/common.ts:82-104 | A completed setup on a workspace without a project config stores the slug answer exactly as typed. |
| Setup.RunSetupCorrected | src/commands/setup.ts:5-32 | Setup with the slug prompt corrected. |
| Setup.CorrectedSetupRecordsChosenSlug | src/common.ts:82-104 | A completed corrected setup on a workspace without a project config stores the chosen slug, which is never empty. |
| Setup.SetupsAgreeOnTypedSlug | src/common.ts:82-104 | When the slug answer is typed and already trimmed, or the title is empty, setup as written and corrected setup agree. |
| Setup.MakeAll | src/commands/setup.ts:25 | There is one `mkdir` step per category, in order. |
| Setup.MakeAllSpec | src/commands/setup.ts:22-31 | The directory steps complete exactly when no `mkdir` faults, and then add exactly the categories. An existing directory is never refused, and a failure names a category. |
| Setup.LocalStep | src/commands/setup.ts:7-12 | The local config is asked for and written only when missing. A missing path or a failed write stops setup. |
| Setup.ProjectStep | src/commands/setup.ts:14-19 | The project config is asked for and written only when missing. |
| Setup.ConfigStepsOutcome | src/commands/setup.ts:7-19 | The two config steps write only missing configs, and the first failure stops. |
| Setup.SetupCompletes | src/commands/setup.ts:5-32 | Setup completes exactly when every config it must write can be written and, without `./assets`, every `mkdir` succeeds. It keeps what existed and adds the missing configs and the seven categories. |
| Setup.MakeAssetTree | src/commands/setup.ts:22-31 | Without `./assets`, the seven `mkdir`s create exactly the seven categories, or fail without touching anything else. |
| Setup.AllCategories | src/common.ts:8 | The seven categories form the category set. |
| Setup.SetupKeepsExisting | src/commands/setup.ts:7-22 | Setup never replaces a config or asset tree that was there. |
| Setup.SetupIdempotent | src/commands/setup.ts:5-32 | After a completed setup, a second one on any answers has nothing to do. |
| Setup.SetupNeedsTtpgPath | src/common.ts:67-70 | On a fresh workspace with no path and no suggestion, setup fails at once, changing nothing. |
| Setup.UntitledProjectStopsSetup | src/common.ts:81-119 | A project without a title is refused after the local config and before any asset directory. |
| Cli.ParseNameOf | src/index.ts:15-23 | Exactly the seven table keys parse, each to its own handler. |
| Cli.CommandName | src/index.ts:13 | The command is the first argument, and `setup` when there is none. |
| Cli.Forced | src/commands/purge.ts:19 | `-y` anywhere among the arguments forces purge's answers. |
| Cli.RunStatus | src/commands/status.ts:3-7 | Status changes nothing. It succeeds exactly when both configs load. |
| Cli.Dispatch | src/index.ts:15-23 | Each command runs its own handler. |
| Cli.Invoke | src/index.ts:25-40 | The command line run with the corrected lookup: only the seven table keys are commands. |
| Cli.InvokeAsWritten | src/index.ts:25-40 | The command line run with the lookup as written, which also finds `Object.prototype`'s properties. |
| Cli.InvokeReports | src/index.ts:25-40 | With the corrected lookup, the completion line is logged exactly when no error is. An unknown name fails without running anything, and a known name runs its handler. |
| Cli.NoArgumentsRunsSetup | src/index.ts:13 | With no argument, the tool runs setup. |
| Cli.UnlistedCommandsAreRejected | src/index.ts:15-29 | `libpack` and `postpublish` are not in the table: invoking them is an unrecognized command that changes nothing. |
| Cli.LookupAsWritten | src/index.ts:26-27 | As written, a name passes the lookup when it is a table key or an `Object.prototype` property. |
| Cli.InvokeAgreesOffPrototype | src/index.ts:26-29 | Outside `Object.prototype`'s property names, the lookup as written and the corrected one agree. |
| Cli.ToStringIsAcceptedAsWritten | src/index.ts:26-36 | As written, `toString` passes the lookup and the completion line is logged. The corrected lookup rejects it. |

## Left out

- Logging is left out: colours, progress lines, and the welcome and completion banners. `Cli.Report` records only whether the completion line is logged and which error is.
- Paths are abstract values. There is no `path.resolve`, no case or separator handling, and no real filesystem. One consequence: with an empty slug, `path.join(ttpg, "")` is the TTPG folder itself, so the source's build and libpack refuse with "Production build already exists", and purge and postpublish read `<ttpg>/Manifest.json`. The model keeps `<ttpg>/` with an empty slug as an entry of its own, absent until built.
- JSON parsing and serialising are left out. A config or manifest is either present with its fields or absent.
- The `Number()` coercion of the ModID is left out. The ModID is an integer throughout.
- The literal text of `rollup.config.js` is left out. Only its input map and its externals are modelled.
- `tsc`, `yarn` and the rollup bundler are oracles in `Env`. The bundler stage has no spawn helper to call as written (see above), so its outcome is taken from the environment.
- Readline prompts, `process.argv`, `process.platform`, `HOME` and `uuid()` are inputs fixed before the run.
- The standard input closing before an answer is left out.
- Pipeline.Io: a failing filesystem call is modelled as changing nothing. A failing `fs.cp` or `fs.rm` may leave part of its work done, and a failing `writeFile` may leave the file truncated; those partial states are not modelled.
- Text.SuggestSlug: characters are whole code points, whereas JavaScript strings are UTF-16. A character outside the Basic Multilingual Plane, such as an emoji, is two code units and becomes `--` in the source but `-` in the model.
- Text.ToLower: lower-cases ASCII letters only, because the full Unicode case mapping of `toLowerCase` is not modelled. `\W` in the slug suggestion is ASCII, as in JavaScript without the `u` flag.
- Dev.LinkAllSpec: the seven junction calls run one after another and the first failure stops the rest. In the source they start together under `Promise.all`, and the others may already have succeeded when one rejects.
- Setup.MakeAllSpec: the seven `mkdir` calls are sequential for the same reason.
- Individual files are not modelled. A `Scripts` tree is the set of source kinds it received and whether its dependencies are installed. `fs.cp` into an existing tree adds to it, and stale files are not tracked.
- A handler that the table's prototype offers is not run. Its throw-or-return is modelled only as completed versus `NotCallable`.
- `Config.version` is never written by setup and is carried as optional.
- Status printing is left out. Only status's checks are modelled.

## Findings

| source | as written | input that shows it | evidently intended | confidence | as-written member | corrected member |
|---|---|---|---|---|---|---|
| src/common.ts:82-104 | The slug prompt shows the suggested slug in brackets, but an empty answer is stored as the empty slug. | Title "My Mod", slug answer "" | An empty answer takes the bracketed suggestion "my-mod", as the GUID and template prompts do | not executed | Common.EmptySlugAnswerIsRecorded | Common.NewProjectConfig |
| src/index.ts:26-27 | `cmd in HANDLERS` also finds the properties of `Object.prototype`, so such a name passes the lookup. | The argument "toString" | Only the seven table keys are commands, and any other name is "Unrecognized Command" | not executed | Cli.ToStringIsAcceptedAsWritten | Cli.InvokeReports |
