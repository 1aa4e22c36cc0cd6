/**
 * `runPurge`: removal of the production directory `<ttpg>/<slug>`, after a
 * confirmation, with an optional capture of the manifest's ModID into the
 * project config first.
 */
module Purge {
  import opened Wrappers
  import opened Text
  import opened Workspace
  import opened Common
  import opened Pipeline
  import opened Build

  /** The two prompts: the deletion confirmation and the offer to save the ModID. */
  datatype PurgeAnswers = PurgeAnswers(confirm: string, saveModId: string)

  /** The confirmation as compared: "y" under `-y`, else the trimmed, lower-cased answer. */
  function Confirmation(force: bool, ans: PurgeAnswers): string {
    if force then "y" else Normalise(ans.confirm)
  }

  /** Whether the ModID is saved: only when the manifest has one, and then under `-y` or a "y" answer. */
  predicate SavesModId(m: Manifest, force: bool, ans: PurgeAnswers) {
    m.modId.Some? && (force || Normalise(ans.saveModId) == "y")
  }

  /** Whether the production directory is removed. */
  predicate Deletes(force: bool, ans: PurgeAnswers) {
    Confirmation(force, ans) == "y"
  }

  /** The project config with the manifest's ModID. */
  function WithModId(p: ProjectConfig, m: Manifest): ProjectConfig {
    p.(modId := CapturedModId(m))
  }

  /** The writes purge makes: the ModID save, then the removal, each only when chosen. */
  function PurgePlan(p: ProjectConfig, prod: HostPath, m: Manifest, save: bool, delete: bool): seq<Step> {
    (if save then [Must(SaveProjectConfig(WithModId(p, m)))] else [])
    + (if delete then [Must(RemoveProdDir(prod))] else [])
  }

  /**
   * `runPurge`. With `<ttpg>/<slug>` absent it only warns; otherwise the
   * manifest must be readable before anything is decided or written.
   */
  function RunPurge(ws: Workspace, env: Env, force: bool, ans: PurgeAnswers): (r: Run)
    ensures ws.local.None? ==> r == Failed(NotSetUp, ws)
    ensures ws.local.Some? && ws.project.None? ==> r == Failed(ConfigMissing, ws)
    ensures ws.local.Some? && ws.project.Some? ==>
              var prod := ProdPath(ws.local.value, ws.project.value);
              && (!HostPathExists(ws, prod) ==> r == Completed(ws))
              && (HostPathExists(ws, prod) && ManifestAt(ws, prod).None? ==> r == Failed(ManifestUnreadable, ws))
  {
    match Prepare(ws)
    case Err(e) => Failed(e, ws)
    case Ok(c) =>
      var prod := ProdPath(c.local, c.project);
      if !HostPathExists(ws, prod) then Completed(ws)
      else
        match ManifestAt(ws, prod)
        case None => Failed(ManifestUnreadable, ws)
        case Some(m) => Execute(PurgePlan(c.project, prod, m, SavesModId(m, force, ans), Deletes(force, ans)), ws, env)
  }

  /** With a readable manifest, purge runs exactly the writes the answers chose. */
  lemma PurgeRunsPlan(ws: Workspace, env: Env, force: bool, ans: PurgeAnswers)
    requires ws.local.Some? && ws.project.Some?
    requires HostPathExists(ws, ProdPath(ws.local.value, ws.project.value))
    requires ManifestAt(ws, ProdPath(ws.local.value, ws.project.value)).Some?
    ensures var prod := ProdPath(ws.local.value, ws.project.value);
            var m := ManifestAt(ws, prod).value;
            RunPurge(ws, env, force, ans) ==
              Execute(PurgePlan(ws.project.value, prod, m, SavesModId(m, force, ans), Deletes(force, ans)), ws, env)
  {
  }

  /**
   * The run of the chosen writes: the ModID is saved when chosen and the
   * directory removed when chosen, independently of each other; a failed
   * save stops before the removal, and a failed removal keeps the saved
   * ModID.
   */
  lemma PurgePlanOutcome(p: ProjectConfig, prod: HostPath, m: Manifest, save: bool, delete: bool, ws: Workspace, env: Env)
    requires prod in ws.host
    ensures var saved := if save then ws.(project := Some(WithModId(p, m))) else ws;
            var deleted := if delete then saved.(host := saved.host - {prod}) else saved;
            var r := Execute(PurgePlan(p, prod, m, save, delete), ws, env);
            && (save && ProjectConfigWrite in env.faults ==>
                  r == Failed(StageFailed(ProjectConfigWrite, Faulted), ws))
            && (!(save && ProjectConfigWrite in env.faults) && delete && ProductionRemoval in env.faults ==>
                  r == Failed(StageFailed(ProductionRemoval, Faulted), saved))
            && (!(save && ProjectConfigWrite in env.faults) && !(delete && ProductionRemoval in env.faults) ==>
                  r == Completed(deleted))
  {
    var saveStep := Must(SaveProjectConfig(WithModId(p, m)));
    var removeStep := Must(RemoveProdDir(prod));
    var saved := ws.(project := Some(WithModId(p, m)));
    if save && delete {
      var plan := [saveStep, removeStep];
      assert PurgePlan(p, prod, m, save, delete) == plan;
      if ProjectConfigWrite !in env.faults {
        assert plan[1..] == [removeStep];
        assert Perform(saveStep.action, ws, env) == Ok(saved);
        assert Execute(plan, ws, env) == Execute([removeStep], saved, env);
        assert prod in saved.host;
        ExecuteOne(removeStep, saved, env);
      }
    } else if save {
      assert PurgePlan(p, prod, m, save, delete) == [saveStep];
    } else if delete {
      assert PurgePlan(p, prod, m, save, delete) == [removeStep];
    } else {
      assert PurgePlan(p, prod, m, save, delete) == [];
    }
  }

  /**
   * The outcome of a purge whose production directory holds a manifest:
   * the writes the answers chose, run in order.
   */
  lemma PurgeOutcome(ws: Workspace, env: Env, force: bool, ans: PurgeAnswers)
    requires ws.local.Some? && ws.project.Some?
    requires HostPathExists(ws, ProdPath(ws.local.value, ws.project.value))
    requires ManifestAt(ws, ProdPath(ws.local.value, ws.project.value)).Some?
    ensures var p := ws.project.value;
            var prod := ProdPath(ws.local.value, p);
            var m := ManifestAt(ws, prod).value;
            var save := SavesModId(m, force, ans);
            var delete := Deletes(force, ans);
            var saved := if save then ws.(project := Some(WithModId(p, m))) else ws;
            var deleted := if delete then saved.(host := saved.host - {prod}) else saved;
            var r := RunPurge(ws, env, force, ans);
            && (save && ProjectConfigWrite in env.faults ==>
                  r == Failed(StageFailed(ProjectConfigWrite, Faulted), ws))
            && (!(save && ProjectConfigWrite in env.faults) && delete && ProductionRemoval in env.faults ==>
                  r == Failed(StageFailed(ProductionRemoval, Faulted), saved))
            && (!(save && ProjectConfigWrite in env.faults) && !(delete && ProductionRemoval in env.faults) ==>
                  r == Completed(deleted))
  {
    var p := ws.project.value;
    var prod := ProdPath(ws.local.value, p);
    var m := ManifestAt(ws, prod).value;
    PurgeRunsPlan(ws, env, force, ans);
    PurgePlanOutcome(p, prod, m, SavesModId(m, force, ans), Deletes(force, ans), ws, env);
  }

  /** Purge removes `<ttpg>/<slug>` only when the deletion is confirmed, with "y" or `-y`. */
  lemma PurgeDeletesOnlyWhenConfirmed(ws: Workspace, env: Env, force: bool, ans: PurgeAnswers)
    requires ws.local.Some? && ws.project.Some?
    ensures var prod := ProdPath(ws.local.value, ws.project.value);
            var out := RunPurge(ws, env, force, ans).state;
            && (prod in ws.host && prod !in out.host ==> Deletes(force, ans))
            && out.host - {prod} == ws.host - {prod}
  {
    var prod := ProdPath(ws.local.value, ws.project.value);
    if HostPathExists(ws, prod) && ManifestAt(ws, prod).Some? {
      PurgeOutcome(ws, env, force, ans);
    }
  }

  /**
   * Saving the ModID does not depend on the deletion: decline the removal
   * and accept the save, and the ModID is captured while the production
   * directory stays.
   */
  lemma PurgeSavesModIdWithoutDeleting(ws: Workspace, env: Env, ans: PurgeAnswers)
    requires ws.local.Some? && ws.project.Some?
    requires HostPathExists(ws, ProdPath(ws.local.value, ws.project.value))
    requires ManifestAt(ws, ProdPath(ws.local.value, ws.project.value)).Some?
    requires ManifestAt(ws, ProdPath(ws.local.value, ws.project.value)).value.modId.Some?
    requires Normalise(ans.confirm) != "y" && Normalise(ans.saveModId) == "y"
    requires ProjectConfigWrite !in env.faults
    ensures var prod := ProdPath(ws.local.value, ws.project.value);
            var m := ManifestAt(ws, prod).value;
            RunPurge(ws, env, false, ans) ==
              Completed(ws.(project := Some(ws.project.value.(modId := m.modId))))
  {
    PurgeOutcome(ws, env, false, ans);
  }

  /** Under `-y` purge saves any ModID and then removes the directory, whatever the answers. */
  lemma ForcedPurge(ws: Workspace, env: Env, ans: PurgeAnswers)
    requires ws.local.Some? && ws.project.Some?
    requires HostPathExists(ws, ProdPath(ws.local.value, ws.project.value))
    requires ManifestAt(ws, ProdPath(ws.local.value, ws.project.value)).Some?
    requires ProjectConfigWrite !in env.faults && ProductionRemoval !in env.faults
    ensures var prod := ProdPath(ws.local.value, ws.project.value);
            var m := ManifestAt(ws, prod).value;
            var project := if m.modId.Some? then Some(ws.project.value.(modId := m.modId)) else ws.project;
            RunPurge(ws, env, true, ans) == Completed(ws.(project := project, host := ws.host - {prod}))
  {
    PurgeOutcome(ws, env, true, ans);
  }

  /** A manifest without a ModID leaves the project config as it was, whatever happens. */
  lemma PurgeWithoutModIdKeepsProject(ws: Workspace, env: Env, force: bool, ans: PurgeAnswers)
    requires ws.local.Some? && ws.project.Some?
    requires ManifestAt(ws, ProdPath(ws.local.value, ws.project.value)).Some?
    requires ManifestAt(ws, ProdPath(ws.local.value, ws.project.value)).value.modId.None?
    ensures RunPurge(ws, env, force, ans).state.project == ws.project
  {
    var prod := ProdPath(ws.local.value, ws.project.value);
    if HostPathExists(ws, prod) {
      PurgeOutcome(ws, env, force, ans);
    }
  }

  // ---------------------------------------------------------------- after a failed build

  /**
   * A build that fails past its first stage has created `<ttpg>/<slug>`,
   * and keeps both configs as they were.
   */
  lemma FailedBuildLeavesProduction(ws: Workspace, env: Env)
    requires ws.local.Some? && ws.project.Some?
    requires !HostPathExists(ws, ProdPath(ws.local.value, ws.project.value))
    requires RunBuild(ws, env).Failed?
    requires RunBuild(ws, env).error.StageFailed? ==> RunBuild(ws, env).error.stage != ProductionDir
    ensures var out := RunBuild(ws, env).state;
            var prod := ProdPath(ws.local.value, ws.project.value);
            && out.local == ws.local && out.project == ws.project
            && prod in out.host && out.host[prod].Production?
  {
    var p := ws.project.value;
    var prod := ProdPath(ws.local.value, p);
    var plan := BuildPlan(p, prod);
    var k := BuildFailsAtStage(ws, env);
    BuildPrefixKeepsConfigs(p, prod, k, ws, env);
    BuildPastFirstStage(p, prod, k, ws, env);
  }

  /** No build stage touches the configs. */
  lemma BuildPrefixKeepsConfigs(p: ProjectConfig, prod: HostPath, k: nat, ws: Workspace, env: Env)
    requires k <= |BuildPlan(p, prod)|
    ensures var out := Execute(BuildPlan(p, prod)[..k], ws, env).state;
            out.local == ws.local && out.project == ws.project
  {
    var prefix := BuildPlan(p, prod)[..k];
    assert forall i :: 0 <= i < |prefix| ==> !TouchesConfigs(prefix[i].action);
    ExecuteKeepsConfigs(prefix, ws, env);
  }

  /** A build prefix that got past `mkdir <ttpg>/<slug>` leaves that directory in place. */
  lemma BuildPastFirstStage(p: ProjectConfig, prod: HostPath, k: nat, ws: Workspace, env: Env)
    requires 0 < k <= |BuildPlan(p, prod)|
    requires Execute(BuildPlan(p, prod)[..k], ws, env).Completed?
    ensures var out := Execute(BuildPlan(p, prod)[..k], ws, env).state;
            prod in out.host && out.host[prod].Production?
  {
    var plan := BuildPlan(p, prod);
    PastFirstStep(plan, k, ws, env);
    var s1 := Perform(plan[0].action, ws, env).value;
    assert prod in s1.host && s1.host[prod].Production?;
    assert forall i :: 0 <= i < |plan[1..k]| ==> plan[1..k][i] == plan[i + 1];
    ExecuteKeepsProduction(plan[1..k], s1, env, prod);
  }

  /**
   * A build that fails after creating `<ttpg>/<slug>` leaves a directory
   * without a manifest behind: purge then refuses to read it, and a new
   * build refuses because the directory exists.
   */
  lemma FailedBuildBlocksPurgeAndBuild(ws: Workspace, env: Env, env2: Env, force: bool, ans: PurgeAnswers)
    requires ws.local.Some? && ws.project.Some?
    requires !HostPathExists(ws, ProdPath(ws.local.value, ws.project.value))
    requires RunBuild(ws, env).Failed?
    requires RunBuild(ws, env).error.StageFailed? ==> RunBuild(ws, env).error.stage != ProductionDir
    ensures var out := RunBuild(ws, env).state;
            && RunPurge(out, env2, force, ans) == Failed(ManifestUnreadable, out)
            && RunBuild(out, env2) == Failed(ProductionBuildExists, out)
  {
    FailedBuildLeavesNoManifest(ws, env);
    FailedBuildLeavesProduction(ws, env);
  }
}
