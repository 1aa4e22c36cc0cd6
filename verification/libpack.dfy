/** `runLibpack`: the build pipeline with the referenced scripts bundled by rollup. */
module Libpack {
  import opened Wrappers
  import opened Workspace
  import opened Common
  import opened Bundling
  import opened Pipeline
  import opened Build

  /** The stages after staging: scan, rollup config, bundle, tolerated copy, three removals, manifest. */
  function LibpackTail(p: ProjectConfig, prod: HostPath): seq<Step> {
    BundleSteps + LibpackCleanup(p, prod)
  }

  /** Scan the templates, write the rollup config, run the bundler. */
  const BundleSteps: seq<Step> := [Must(ScanTemplates)] + ([Must(WriteRollupConfig)] + [Must(RunBundler)])

  /** The tolerated copy of `./lib`, the three removals, the manifest. */
  function LibpackCleanup(p: ProjectConfig, prod: HostPath): seq<Step> {
    [Try(CopyLibToScripts(prod))] +
      ([Must(RemoveBuildDir)] +
        ([Must(RemoveLibDir)] +
          ([Must(RemoveRollupConfig)] + [Must(WriteManifest(prod, DeriveManifest(p)))])))
  }

  function LibpackPlan(p: ProjectConfig, prod: HostPath): seq<Step> {
    StagingSteps(p, prod) + LibpackTail(p, prod)
  }

  /** `runLibpack`. */
  function RunLibpack(ws: Workspace, env: Env): (r: Run)
    ensures ws.local.None? ==> r == Failed(NotSetUp, ws)
    ensures ws.local.Some? && ws.project.None? ==> r == Failed(ConfigMissing, ws)
    ensures ws.local.Some? && ws.project.Some? && HostPathExists(ws, ProdPath(ws.local.value, ws.project.value))
            ==> r == Failed(ProductionBuildExists, ws)
  {
    match Prepare(ws)
    case Err(e) => Failed(e, ws)
    case Ok(c) =>
      var prod := ProdPath(c.local, c.project);
      if HostPathExists(ws, prod) then Failed(ProductionBuildExists, ws)
      else Execute(LibpackPlan(c.project, prod), ws, env)
  }

  /** The scripts bundled for a workspace: those its templates reference. */
  function Bundled(ws: Workspace): set<string> {
    set n | n in ScriptNames(TemplatesOf(ws))
  }

  /** Completed bundling: no template was malformed, and `./lib` gained a bundle per referenced script. */
  lemma BundleCompleted(ws: Workspace, env: Env)
    requires Execute(BundleSteps, ws, env).Completed?
    ensures !HasMalformedTemplate(ws)
    ensures Execute(BundleSteps, ws, env).state ==
              ws.(rollup := Some(RollupConfigFor(ScriptNames(TemplatesOf(ws)))), lib := Some(ws.lib.GetOr({}) + Bundled(ws)))
  {
    var config := RollupConfigFor(ScriptNames(TemplatesOf(ws)));
    var s2 := ws.(rollup := Some(config));
    var r2 := [Must(RunBundler)];
    MustThen(ScanTemplates, [Must(WriteRollupConfig)] + r2, ws, env);
    ScanAccepts(ws, env);
    MustThen(WriteRollupConfig, r2, ws, env);
    ExecuteOne(r2[0], s2, env);
    BundlerOutput(ws, env);
  }

  /** The template scan passes only well-formed templates, and changes nothing. */
  lemma ScanAccepts(ws: Workspace, env: Env)
    requires Perform(ScanTemplates, ws, env).Ok?
    ensures Perform(ScanTemplates, ws, env).value == ws && !HasMalformedTemplate(ws)
  {
  }

  /** The bundler, run on the config written for a workspace, adds a bundle per referenced script. */
  lemma BundlerOutput(ws: Workspace, env: Env)
    requires Perform(RunBundler, ws.(rollup := Some(RollupConfigFor(ScriptNames(TemplatesOf(ws))))), env).Ok?
    ensures Perform(RunBundler, ws.(rollup := Some(RollupConfigFor(ScriptNames(TemplatesOf(ws))))), env).value ==
              ws.(rollup := Some(RollupConfigFor(ScriptNames(TemplatesOf(ws)))), lib := Some(ws.lib.GetOr({}) + Bundled(ws)))
  {
    var names := ScriptNames(TemplatesOf(ws));
    BundleOutputsOf(names);
    assert Bundled(ws) == set n | n in names;
  }

  /**
   * Completed cleanup: `./build`, `./lib` and `./rollup.config.js` are gone
   * and the manifest is written; `Scripts` holds `./lib` unless the
   * tolerated copy failed.
   */
  lemma CleanupCompleted(p: ProjectConfig, prod: HostPath, ws: Workspace, env: Env)
    requires prod in ws.host && ws.host[prod].Production? && ws.build.Some? && ws.lib.Some? && ws.rollup.Some?
    requires Execute(LibpackCleanup(p, prod), ws, env).Completed?
    ensures var out := Execute(LibpackCleanup(p, prod), ws, env).state;
            var d := ws.host[prod].dir;
            var copied := d.(scripts := Some(FromBundle(ws.lib.value)));
            && (|| out == WithProd(ws, prod, d.(manifest := Some(DeriveManifest(p)))).(build := None, lib := None, rollup := None)
                || out == WithProd(ws, prod, copied.(manifest := Some(DeriveManifest(p)))).(build := None, lib := None, rollup := None))
            && (ScriptsCopy !in env.faults ==>
                  out == WithProd(ws, prod, copied.(manifest := Some(DeriveManifest(p)))).(build := None, lib := None, rollup := None))
  {
    var d := ws.host[prod].dir;
    var copied := WithProd(ws, prod, d.(scripts := Some(FromBundle(ws.lib.value))));
    TryThen(CopyLibToScripts(prod), RemovalSteps(p, prod), ws, env);
    var s4 := if Perform(CopyLibToScripts(prod), ws, env).Ok? then copied else ws;
    assert ScriptsCopy !in env.faults ==> s4 == copied;
    RemovalsCompleted(p, prod, s4, env);
  }

  /** The steps after the tolerated copy: three removals and the manifest. */
  function RemovalSteps(p: ProjectConfig, prod: HostPath): (plan: seq<Step>)
    ensures LibpackCleanup(p, prod) == [Try(CopyLibToScripts(prod))] + plan
  {
    [Must(RemoveBuildDir)] +
      ([Must(RemoveLibDir)] +
        ([Must(RemoveRollupConfig)] + [Must(WriteManifest(prod, DeriveManifest(p)))]))
  }

  /** Completed removals leave `./build`, `./lib` and the rollup config gone and the manifest written. */
  lemma RemovalsCompleted(p: ProjectConfig, prod: HostPath, ws: Workspace, env: Env)
    requires prod in ws.host && ws.host[prod].Production? && ws.build.Some? && ws.lib.Some? && ws.rollup.Some?
    requires Execute(RemovalSteps(p, prod), ws, env).Completed?
    ensures Execute(RemovalSteps(p, prod), ws, env) ==
              Completed(WithProd(ws, prod, ws.host[prod].dir.(manifest := Some(DeriveManifest(p)))).(build := None, lib := None, rollup := None))
  {
    var write := [Must(WriteManifest(prod, DeriveManifest(p)))];
    var r3 := [Must(RemoveRollupConfig)] + write;
    var r2 := [Must(RemoveLibDir)] + r3;
    var s5 := ws.(build := None);
    MustThen(RemoveBuildDir, r2, ws, env);
    var s6 := s5.(lib := None);
    MustThen(RemoveLibDir, r3, s5, env);
    var s7 := s6.(rollup := None);
    MustThen(RemoveRollupConfig, write, s6, env);
    var s8 := WithProd(s7, prod, s7.host[prod].dir.(manifest := Some(DeriveManifest(p))));
    ExecuteOne(write[0], s7, env);
  }

  /** The stages after staging, completed: bundling, then cleanup. */
  lemma LibpackTailCompleted(p: ProjectConfig, prod: HostPath, ws: Workspace, env: Env)
    requires prod in ws.host && ws.host[prod].Production? && ws.build.Some?
    requires Execute(LibpackTail(p, prod), ws, env).Completed?
    ensures var out := Execute(LibpackTail(p, prod), ws, env).state;
            var d := ws.host[prod].dir;
            var copied := d.(scripts := Some(FromBundle(ws.lib.GetOr({}) + Bundled(ws))));
            && !HasMalformedTemplate(ws)
            && (|| out == WithProd(ws, prod, d.(manifest := Some(DeriveManifest(p)))).(build := None, lib := None, rollup := None)
                || out == WithProd(ws, prod, copied.(manifest := Some(DeriveManifest(p)))).(build := None, lib := None, rollup := None))
            && (ScriptsCopy !in env.faults ==>
                  out == WithProd(ws, prod, copied.(manifest := Some(DeriveManifest(p)))).(build := None, lib := None, rollup := None))
  {
    ExecuteAppend(BundleSteps, LibpackCleanup(p, prod), ws, env);
    BundleCompleted(ws, env);
    CleanupCompleted(p, prod, Execute(BundleSteps, ws, env).state, env);
  }

  /**
   * A completed libpack: the temporary `./build`, `./lib` and
   * `./rollup.config.js` are all gone, `<ttpg>/<slug>` holds the assets and
   * the derived manifest, and its `Scripts` hold the bundled scripts, unless
   * that tolerated copy failed. Configs, assets and dev state are untouched.
   */
  lemma LibpackCompleted(ws: Workspace, env: Env)
    requires RunLibpack(ws, env).Completed?
    ensures ws.local.Some? && ws.project.Some?
    ensures var p := ws.project.value;
            var prod := ProdPath(ws.local.value, p);
            var out := RunLibpack(ws, env).state;
            && !HostPathExists(ws, prod)
            && !HasMalformedTemplate(ws)
            && out.build.None? && out.lib.None? && out.rollup.None?
            && prod in out.host && out.host[prod].Production?
            && out.host[prod].dir.assets
            && out.host[prod].dir.manifest == Some(DeriveManifest(p))
            && (out.host[prod].dir.scripts.None? ==> ScriptsCopy in env.faults)
            && (out.host[prod].dir.scripts.Some? ==>
                  out.host[prod].dir.scripts.value == FromBundle(ws.lib.GetOr({}) + Bundled(ws)))
            && out.host - {prod} == ws.host - {prod}
            && out.(build := ws.build, lib := ws.lib, rollup := ws.rollup, host := ws.host) == ws
  {
    LibpackState(ws, env);
  }

  /**
   * The workspace after a completed libpack: `<ttpg>/<slug>` holds the
   * assets, `scripts` and the derived manifest; the temporary files are gone.
   */
  function Packed(ws: Workspace, prod: HostPath, p: ProjectConfig, scripts: Option<ScriptsCopy>): Workspace {
    ws.(host := ws.host[prod := Production(ProdDir(true, scripts, Some(DeriveManifest(p))))], build := None, lib := None, rollup := None)
  }

  /** A completed libpack leaves `Packed` with the bundle or, when the tolerated copy failed, without scripts. */
  lemma LibpackState(ws: Workspace, env: Env)
    requires RunLibpack(ws, env).Completed?
    ensures ws.local.Some? && ws.project.Some?
    ensures var p := ws.project.value;
            var prod := ProdPath(ws.local.value, p);
            var out := RunLibpack(ws, env).state;
            var bundle := Some(FromBundle(ws.lib.GetOr({}) + Bundled(ws)));
            && !HostPathExists(ws, prod)
            && !HasMalformedTemplate(ws)
            && (out == Packed(ws, prod, p, None) || out == Packed(ws, prod, p, bundle))
            && (ScriptsCopy !in env.faults ==> out == Packed(ws, prod, p, bundle))
  {
    var p := ws.project.value;
    var prod := ProdPath(ws.local.value, p);
    var staging := StagingSteps(p, prod);
    var tail := LibpackTail(p, prod);
    assert RunLibpack(ws, env) == Execute(staging + tail, ws, env);
    ExecuteAppend(staging, tail, ws, env);
    StagingCompleted(p, prod, ws, env);
    TailAfterStaging(ws, p, prod, Execute(staging, ws, env).state, env);
  }

  /** The tail of libpack, run on the staged workspace, ends in `Packed`. */
  lemma TailAfterStaging(ws: Workspace, p: ProjectConfig, prod: HostPath, staged: Workspace, env: Env)
    requires staged == ws.(build := staged.build, host := ws.host[prod := Production(EmptyProd.(assets := true))])
    requires staged.build.Some? && Execute(LibpackTail(p, prod), staged, env).Completed?
    ensures var out := Execute(LibpackTail(p, prod), staged, env).state;
            var bundle := Some(FromBundle(ws.lib.GetOr({}) + Bundled(ws)));
            && !HasMalformedTemplate(ws)
            && (out == Packed(ws, prod, p, None) || out == Packed(ws, prod, p, bundle))
            && (ScriptsCopy !in env.faults ==> out == Packed(ws, prod, p, bundle))
  {
    assert TemplatesOf(staged) == TemplatesOf(ws);
    LibpackTailCompleted(p, prod, staged, env);
    var d := Production(EmptyProd.(assets := true));
    forall sc ensures WithProd(staged, prod, ProdDir(true, sc, Some(DeriveManifest(p)))).(build := None, lib := None, rollup := None)
                        == Packed(ws, prod, p, sc) {
      assert ws.host[prod := d][prod := Production(ProdDir(true, sc, Some(DeriveManifest(p))))]
          == ws.host[prod := Production(ProdDir(true, sc, Some(DeriveManifest(p))))];
    }
  }

  /** The bundler output and the rollup config are as they were. */
  predicate BundlerUntouched(before: Workspace, ws: Workspace) {
    ws.lib == before.lib && ws.rollup == before.rollup
  }

  /** No stage before the bundler touches `./lib` or writes the manifest. */
  lemma PrefixBeforeBundler(p: ProjectConfig, prod: HostPath, k: nat, ws: Workspace, env: Env)
    requires k <= 7 && ManifestAt(ws, prod).None?
    ensures Execute(LibpackPlan(p, prod)[..k], ws, env).state.lib == ws.lib
    ensures ManifestAt(Execute(LibpackPlan(p, prod)[..k], ws, env).state, prod).None?
  {
    var prefix := LibpackPlan(p, prod)[..k];
    assert forall i :: 0 <= i < |prefix| ==> !prefix[i].action.WriteManifest? && !prefix[i].action.RunBundler?;
    ExecuteKeepsLib(prefix, ws, env);
    ExecuteKeepsManifestAbsent(prefix, ws, env, prod);
  }

  /**
   * A glob or parse failure, or a failure writing the rollup config, ends
   * libpack before the bundler runs: `./lib` is as it was, and no manifest
   * is written.
   */
  lemma ScanFailureSkipsBundler(ws: Workspace, env: Env)
    requires ws.local.Some? && ws.project.Some?
    requires !HostPathExists(ws, ProdPath(ws.local.value, ws.project.value))
    requires RunLibpack(ws, env).Failed?
    requires RunLibpack(ws, env).error.StageFailed?
    requires RunLibpack(ws, env).error.stage in {TemplateScan, RollupConfigWrite}
    ensures RunLibpack(ws, env).state.lib == ws.lib
    ensures ManifestAt(RunLibpack(ws, env).state, ProdPath(ws.local.value, ws.project.value)).None?
  {
    var p := ws.project.value;
    var prod := ProdPath(ws.local.value, p);
    var plan := LibpackPlan(p, prod);
    assert RunLibpack(ws, env) == Execute(plan, ws, env);
    var k := FailureIsAtAStep(plan, ws, env);
    ErrorNamesStage(plan[k].action, RunLibpack(ws, env).state, env);
    ScanStagesAt(p, prod, k);
    PrefixBeforeBundler(p, prod, k, ws, env);
  }

  /** The template scan and the rollup config are the sixth and seventh libpack stages, and no stage prompts. */
  lemma ScanStagesAt(p: ProjectConfig, prod: HostPath, k: nat)
    requires k < |LibpackPlan(p, prod)|
    ensures var a := LibpackPlan(p, prod)[k].action;
            && !a.EnsureLocalConfig? && !a.EnsureProjectConfig?
            && (StageOf(a) in {TemplateScan, RollupConfigWrite} ==> k == 5 || k == 6)
  {
  }

  /**
   * The order of the libpack stages: the build's staging, then the template
   * scan, the rollup config, the bundler, the copy into `Scripts`, the
   * removals of `./build`, `./lib` and the rollup config, and the manifest.
   * Only the copy into `Scripts` is tolerated.
   */
  lemma LibpackStageOrder(p: ProjectConfig, prod: HostPath)
    ensures StagesOf(LibpackPlan(p, prod)) ==
              [ProductionDir, AssetCopy, BuildDir, if BuildTranspiles(p) then Transpiler else SourceCopy, Dependencies,
               TemplateScan, RollupConfigWrite, Bundler, ScriptsCopy, BuildRemoval, LibRemoval, RollupConfigRemoval, ManifestWrite]
    ensures forall i :: 0 <= i < |LibpackPlan(p, prod)| ==> (LibpackPlan(p, prod)[i].Try? <==> i == 8)
  {
    var plan := LibpackPlan(p, prod);
    assert plan == [Must(MakeProdDir(prod)), Must(CopyAssetsInto(prod)), Must(MakeBuildDir), Must(ScriptsStage(p, BuildTree)),
                    Must(InstallDependencies(BuildTree)), Must(ScanTemplates), Must(WriteRollupConfig), Must(RunBundler),
                    Try(CopyLibToScripts(prod)), Must(RemoveBuildDir), Must(RemoveLibDir), Must(RemoveRollupConfig),
                    Must(WriteManifest(prod, DeriveManifest(p)))];
  }
}
