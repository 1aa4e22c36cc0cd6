/** `runBuild`: the production pipeline into `<ttpg>/<slug>`. */
module Build {
  import opened Wrappers
  import opened Workspace
  import opened Common
  import opened Pipeline

  /** The transpile-or-copy stage. */
  function ScriptsStage(p: ProjectConfig, t: Target): (a: Action)
    ensures a == RunTranspiler(t) || a == CopySources(t)
    ensures a.RunTranspiler? <==> BuildTranspiles(p)
  {
    if BuildTranspiles(p) then RunTranspiler(t) else CopySources(t)
  }

  /** The stages build and libpack share: production dir, assets, `./build`, scripts, dependencies. */
  function StagingSteps(p: ProjectConfig, prod: HostPath): seq<Step> {
    [Must(MakeProdDir(prod))] + ([Must(CopyAssetsInto(prod))] + TreeSteps(p))
  }

  /** The staging stages that fill `./build`: create it, stage the scripts, install dependencies. */
  function TreeSteps(p: ProjectConfig): seq<Step> {
    [Must(MakeBuildDir)] + ([Must(ScriptsStage(p, BuildTree))] + [Must(InstallDependencies(BuildTree))])
  }

  /** The build stages in order; only the copy into `Scripts` is tolerated. */
  function BuildPlan(p: ProjectConfig, prod: HostPath): seq<Step> {
    StagingSteps(p, prod) + BuildTail(p, prod)
  }

  /** The build stages after staging. */
  function BuildTail(p: ProjectConfig, prod: HostPath): seq<Step> {
    [Try(CopyBuildToScripts(prod))] + FinishSteps(p, prod)
  }

  /** Removal of `./build`, then the manifest. */
  function FinishSteps(p: ProjectConfig, prod: HostPath): seq<Step> {
    [Must(RemoveBuildDir)] + [Must(WriteManifest(prod, DeriveManifest(p)))]
  }

  /** `runBuild`. */
  function RunBuild(ws: Workspace, env: Env): (r: Run)
    ensures ws.local.None? ==> r == Failed(NotSetUp, ws)
    ensures ws.local.Some? && ws.project.None? ==> r == Failed(ConfigMissing, ws)
    ensures ws.local.Some? && ws.project.Some? && HostPathExists(ws, ProdPath(ws.local.value, ws.project.value))
            ==> r == Failed(ProductionBuildExists, ws)
  {
    match Prepare(ws)
    case Err(e) => Failed(e, ws)
    case Ok(c) =>
      var prod := ProdPath(c.local, c.project);
      if HostPathExists(ws, prod) then Failed(ProductionBuildExists, ws)
      else Execute(BuildPlan(c.project, prod), ws, env)
  }

  /** What the transpile-or-copy stage leaves in the tree. */
  function StagedSource(p: ProjectConfig): ScriptSource {
    if BuildTranspiles(p) then Transpiled else CopiedSource
  }

  /**
   * Completed staging: `<ttpg>/<slug>` was absent and now holds exactly the
   * assets, and `./build` holds the staged sources and their dependencies.
   */
  lemma StagingCompleted(p: ProjectConfig, prod: HostPath, ws: Workspace, env: Env)
    requires Execute(StagingSteps(p, prod), ws, env).Completed?
    ensures var out := Execute(StagingSteps(p, prod), ws, env).state;
            && prod !in ws.host && ws.assets.Some?
            && out == ws.(build := out.build, host := ws.host[prod := Production(EmptyProd.(assets := true))])
            && out.build.Some? && out.build.value.deps && StagedSource(p) in out.build.value.sources
  {
    var r1 := [Must(CopyAssetsInto(prod))] + TreeSteps(p);
    MustThen(MakeProdDir(prod), r1, ws, env);
    var s1 := WithProd(ws, prod, EmptyProd);
    MustThen(CopyAssetsInto(prod), TreeSteps(p), s1, env);
    var s2 := WithProd(ws, prod, EmptyProd.(assets := true));
    assert s1.host[prod := Production(EmptyProd.(assets := true))] == s2.host;
    TreeStepsCompleted(p, s2, env);
  }

  /** Completed tree stages: `./build` holds the staged sources and their dependencies, and nothing else changed. */
  lemma TreeStepsCompleted(p: ProjectConfig, ws: Workspace, env: Env)
    requires Execute(TreeSteps(p), ws, env).Completed?
    ensures var out := Execute(TreeSteps(p), ws, env).state;
            && out == ws.(build := out.build)
            && out.build.Some? && out.build.value.deps && StagedSource(p) in out.build.value.sources
  {
    var a := ScriptsStage(p, BuildTree);
    var r4 := [Must(InstallDependencies(BuildTree))];
    var r3 := [Must(a)] + r4;
    MustThen(MakeBuildDir, r3, ws, env);
    var s3 := ws.(build := Some(ws.build.GetOr(EmptyTree)));
    MustThen(a, r4, s3, env);
    var s4 := AddSource(s3, BuildTree, StagedSource(p));
    ExecuteOne(r4[0], s4, env);
  }

  /** The last three stages: copy (tolerated), removal of `./build`, manifest. */
  lemma BuildTailCompleted(p: ProjectConfig, prod: HostPath, ws: Workspace, env: Env)
    requires prod in ws.host && ws.host[prod].Production? && ws.build.Some?
    requires Execute(BuildTail(p, prod), ws, env).Completed?
    ensures var out := Execute(BuildTail(p, prod), ws, env).state;
            var d := ws.host[prod].dir;
            && out.build.None?
            && (|| out == WithProd(ws, prod, d.(manifest := Some(DeriveManifest(p)))).(build := None)
                || out == WithProd(ws, prod, d.(scripts := Some(FromBuild(ws.build.value)), manifest := Some(DeriveManifest(p)))).(build := None))
            && (ScriptsCopy !in env.faults ==>
                  out == WithProd(ws, prod, d.(scripts := Some(FromBuild(ws.build.value)), manifest := Some(DeriveManifest(p)))).(build := None))
  {
    var d := ws.host[prod].dir;
    var copied := WithProd(ws, prod, d.(scripts := Some(FromBuild(ws.build.value))));
    TryThen(CopyBuildToScripts(prod), FinishSteps(p, prod), ws, env);
    var s6 := if Perform(CopyBuildToScripts(prod), ws, env).Ok? then copied else ws;
    assert ScriptsCopy !in env.faults ==> s6 == copied;
    FinishOutcome(p, prod, s6, env);
  }

  /**
   * Removing `./build` and writing the manifest into an existing production
   * directory fails only on an I/O fault of one of the two.
   */
  lemma FinishOutcome(p: ProjectConfig, prod: HostPath, ws: Workspace, env: Env)
    requires prod in ws.host && ws.host[prod].Production? && ws.build.Some?
    ensures Execute(FinishSteps(p, prod), ws, env).Completed? <==> BuildRemoval !in env.faults && ManifestWrite !in env.faults
    ensures Execute(FinishSteps(p, prod), ws, env).Completed? ==>
              Execute(FinishSteps(p, prod), ws, env).state ==
                WithProd(ws, prod, ws.host[prod].dir.(manifest := Some(DeriveManifest(p)))).(build := None)
  {
    var r2 := [Must(WriteManifest(prod, DeriveManifest(p)))];
    MustThen(RemoveBuildDir, r2, ws, env);
    ExecuteOne(r2[0], ws.(build := None), env);
  }

  /**
   * A completed build: `./build` is gone, `<ttpg>/<slug>` holds the assets
   * and the derived manifest, and its `Scripts` hold the transpiled or
   * copied sources with their dependencies, unless that copy failed, the
   * one failure the build lets pass. No config, asset or dev state changes.
   */
  lemma BuildCompleted(ws: Workspace, env: Env)
    requires RunBuild(ws, env).Completed?
    ensures ws.local.Some? && ws.project.Some?
    ensures var p := ws.project.value;
            var prod := ProdPath(ws.local.value, p);
            var out := RunBuild(ws, env).state;
            && !HostPathExists(ws, prod)
            && out.build.None?
            && prod in out.host && out.host[prod].Production?
            && out.host[prod].dir.assets
            && out.host[prod].dir.manifest == Some(DeriveManifest(p))
            && (out.host[prod].dir.scripts.None? ==> ScriptsCopy in env.faults)
            && (out.host[prod].dir.scripts.Some? ==>
                  && out.host[prod].dir.scripts.value.FromBuild?
                  && out.host[prod].dir.scripts.value.tree.deps
                  && StagedSource(p) in out.host[prod].dir.scripts.value.tree.sources)
            && out.host - {prod} == ws.host - {prod}
            && out.(build := ws.build, host := ws.host) == ws
  {
    var p := ws.project.value;
    var prod := ProdPath(ws.local.value, p);
    var staging := StagingSteps(p, prod);
    var tail := BuildTail(p, prod);
    assert RunBuild(ws, env) == Execute(staging + tail, ws, env);
    ExecuteAppend(staging, tail, ws, env);
    StagingCompleted(p, prod, ws, env);
    TailAfterStaging(ws, p, prod, Execute(staging, ws, env).state, env);
  }

  /** The build tail, run on the staged workspace, in terms of the workspace before staging. */
  lemma TailAfterStaging(ws: Workspace, p: ProjectConfig, prod: HostPath, staged: Workspace, env: Env)
    requires staged == ws.(build := staged.build, host := ws.host[prod := Production(EmptyProd.(assets := true))])
    requires staged.build.Some? && staged.build.value.deps && StagedSource(p) in staged.build.value.sources
    requires Execute(BuildTail(p, prod), staged, env).Completed?
    ensures var out := Execute(BuildTail(p, prod), staged, env).state;
            var sc := ProdAt(out, prod).scripts;
            && prod in out.host && out.host[prod].Production?
            && out == ws.(build := None, host := ws.host[prod := Production(ProdDir(true, sc, Some(DeriveManifest(p))))])
            && (sc.None? ==> ScriptsCopy in env.faults)
            && (sc.Some? ==> sc == Some(FromBuild(staged.build.value)))
  {
    BuildTailCompleted(p, prod, staged, env);
    var d := Production(EmptyProd.(assets := true));
    forall sc ensures WithProd(staged, prod, ProdDir(true, sc, Some(DeriveManifest(p)))).(build := None)
                        == ws.(build := None, host := ws.host[prod := Production(ProdDir(true, sc, Some(DeriveManifest(p))))]) {
      assert ws.host[prod := d][prod := Production(ProdDir(true, sc, Some(DeriveManifest(p))))]
          == ws.host[prod := Production(ProdDir(true, sc, Some(DeriveManifest(p))))];
    }
  }

  /** The environment a build meets when every stage up to `ScriptsCopy` succeeds. */
  predicate Cooperative(env: Env) {
    && env.faults <= {ScriptsCopy}
    && ToolRejection(env.tsc).None?
    && ToolRejection(env.yarn).None?
  }

  /** Staging into a fresh production path and an absent `./build`, in a cooperative environment. */
  lemma StagingFresh(p: ProjectConfig, prod: HostPath, ws: Workspace, env: Env)
    requires ws.assets.Some? && ws.build.None? && prod !in ws.host && Cooperative(env)
    ensures Execute(StagingSteps(p, prod), ws, env) ==
              Completed(WithProd(ws, prod, EmptyProd.(assets := true)).(build := Some(ScriptTree({StagedSource(p)}, true))))
  {
    var r1 := [Must(CopyAssetsInto(prod))] + TreeSteps(p);
    var s1 := WithProd(ws, prod, EmptyProd);
    MustThen(MakeProdDir(prod), r1, ws, env);
    var s2 := WithProd(ws, prod, EmptyProd.(assets := true));
    assert s1.host[prod := Production(EmptyProd.(assets := true))] == s2.host;
    MustThen(CopyAssetsInto(prod), TreeSteps(p), s1, env);
    TreeStepsFresh(p, s2, env);
  }

  /** Filling an absent `./build` in a cooperative environment. */
  lemma TreeStepsFresh(p: ProjectConfig, ws: Workspace, env: Env)
    requires ws.build.None? && Cooperative(env)
    ensures Execute(TreeSteps(p), ws, env) == Completed(ws.(build := Some(ScriptTree({StagedSource(p)}, true))))
  {
    var a := ScriptsStage(p, BuildTree);
    var r4 := [Must(InstallDependencies(BuildTree))];
    var r3 := [Must(a)] + r4;
    var tree := ScriptTree({StagedSource(p)}, true);
    var s3 := ws.(build := Some(EmptyTree));
    MustThen(MakeBuildDir, r3, ws, env);
    var s4 := ws.(build := Some(tree.(deps := false)));
    assert Perform(a, s3, env) == Ok(s4) by {
      assert EmptyTree.sources + {StagedSource(p)} == {StagedSource(p)};
    }
    MustThen(a, r4, s3, env);
    ExecuteOne(r4[0], s4, env);
  }

  /** The build tail after fresh staging, in a cooperative environment. */
  lemma BuildTailFresh(p: ProjectConfig, prod: HostPath, ws: Workspace, env: Env)
    requires prod in ws.host && ws.host[prod] == Production(EmptyProd.(assets := true))
    requires ws.build == Some(ScriptTree({StagedSource(p)}, true)) && Cooperative(env)
    ensures var scripts := if ScriptsCopy in env.faults then None else Some(FromBuild(ws.build.value));
            Execute(BuildTail(p, prod), ws, env) ==
              Completed(WithProd(ws, prod, ProdDir(true, scripts, Some(DeriveManifest(p)))).(build := None))
  {
    var scripts := if ScriptsCopy in env.faults then None else Some(FromBuild(ws.build.value));
    var s6 := WithProd(ws, prod, ProdDir(true, scripts, None));
    TryThen(CopyBuildToScripts(prod), FinishSteps(p, prod), ws, env);
    if ScriptsCopy in env.faults {
      assert ws.host[prod := ws.host[prod]] == ws.host;
    }
    FinishOutcome(p, prod, s6, env);
  }

  /**
   * A build of a configured project with assets, no production directory
   * and no `./build`, in a cooperative environment, completes: `Scripts`
   * holds the staged sources plus dependencies (or nothing, when the
   * tolerated copy failed), the manifest is derived, and `./build` is gone.
   */
  lemma FreshBuild(ws: Workspace, env: Env)
    requires ws.local.Some? && ws.project.Some? && ws.assets.Some? && ws.build.None?
    requires ProdPath(ws.local.value, ws.project.value) !in ws.host
    requires Cooperative(env)
    ensures var p := ws.project.value;
            var prod := ProdPath(ws.local.value, p);
            var scripts := if ScriptsCopy in env.faults then None
                           else Some(FromBuild(ScriptTree({StagedSource(p)}, true)));
            RunBuild(ws, env) == Completed(ws.(host := ws.host[prod := Production(ProdDir(true, scripts, Some(DeriveManifest(p))))]))
  {
    var p := ws.project.value;
    var prod := ProdPath(ws.local.value, p);
    assert RunBuild(ws, env) == Execute(StagingSteps(p, prod) + BuildTail(p, prod), ws, env);
    ExecuteAppend(StagingSteps(p, prod), BuildTail(p, prod), ws, env);
    StagingFresh(p, prod, ws, env);
    BuildTailFresh(p, prod, Execute(StagingSteps(p, prod), ws, env).state, env);
  }

  /**
   * The manifest is the last stage: a build that fails after its checks
   * leaves `<ttpg>/<slug>` without a `Manifest.json`.
   */
  lemma FailedBuildLeavesNoManifest(ws: Workspace, env: Env)
    requires ws.local.Some? && ws.project.Some?
    requires !HostPathExists(ws, ProdPath(ws.local.value, ws.project.value))
    requires RunBuild(ws, env).Failed?
    ensures ManifestAt(RunBuild(ws, env).state, ProdPath(ws.local.value, ws.project.value)).None?
  {
    var p := ws.project.value;
    var prod := ProdPath(ws.local.value, p);
    var plan := BuildPlan(p, prod);
    assert RunBuild(ws, env) == Execute(plan, ws, env);
    var k := FailureIsAtAStep(plan, ws, env);
    assert k < 8 && plan[k].Must?;
    var prefix := plan[..k];
    assert forall i :: 0 <= i < |prefix| ==> !prefix[i].action.WriteManifest?;
    ExecuteKeepsManifestAbsent(prefix, ws, env, prod);
  }

  /**
   * A build that fails after its checks failed at one stage `k` of the
   * fixed order, never at the tolerated copy, reports that stage, and
   * leaves exactly what the stages before `k` did.
   */
  lemma BuildFailsAtStage(ws: Workspace, env: Env) returns (k: nat)
    requires ws.local.Some? && ws.project.Some?
    requires !HostPathExists(ws, ProdPath(ws.local.value, ws.project.value))
    requires RunBuild(ws, env).Failed?
    ensures var plan := BuildPlan(ws.project.value, ProdPath(ws.local.value, ws.project.value));
            && k < |plan| && k != 5
            && RunBuild(ws, env).error.StageFailed?
            && RunBuild(ws, env).error.stage == StagesOf(plan)[k]
            && Execute(plan[..k], ws, env) == Completed(RunBuild(ws, env).state)
  {
    var p := ws.project.value;
    var prod := ProdPath(ws.local.value, p);
    var plan := BuildPlan(p, prod);
    assert RunBuild(ws, env) == Execute(plan, ws, env);
    k := FailureIsAtAStep(plan, ws, env);
    ErrorNamesStage(plan[k].action, RunBuild(ws, env).state, env);
  }

  /**
   * The order of the build stages: production directory, assets, `./build`,
   * transpile or copy, dependencies, the copy into `Scripts`, removal of
   * `./build`, manifest. Only the copy into `Scripts` is tolerated.
   */
  lemma BuildStageOrder(p: ProjectConfig, prod: HostPath)
    ensures StagesOf(BuildPlan(p, prod)) ==
              [ProductionDir, AssetCopy, BuildDir, if BuildTranspiles(p) then Transpiler else SourceCopy,
               Dependencies, ScriptsCopy, BuildRemoval, ManifestWrite]
    ensures forall i :: 0 <= i < |BuildPlan(p, prod)| ==> (BuildPlan(p, prod)[i].Try? <==> i == 5)
  {
    var plan := BuildPlan(p, prod);
    assert plan == [Must(MakeProdDir(prod)), Must(CopyAssetsInto(prod)), Must(MakeBuildDir), Must(ScriptsStage(p, BuildTree)),
                    Must(InstallDependencies(BuildTree)), Try(CopyBuildToScripts(prod)), Must(RemoveBuildDir),
                    Must(WriteManifest(prod, DeriveManifest(p)))];
  }
}
