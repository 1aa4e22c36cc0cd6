/**
 * `runPostPublish`: after the mod was published from the production
 * directory, copy the ModID the game wrote into its manifest back into the
 * project config, so later builds carry it.
 */
module PostPublish {
  import opened Wrappers
  import opened Workspace
  import opened Common
  import opened Pipeline
  import opened Build

  /** The project config with the ModID the manifest records. */
  function Captured(p: ProjectConfig, m: Manifest): ProjectConfig {
    p.(modId := CapturedModId(m))
  }

  /**
   * `runPostPublish`. Only a manifest with a ModID leads to a write; an
   * absent production directory or a manifest without one only warns.
   */
  function RunPostPublish(ws: Workspace, env: Env): (r: Run)
    ensures ws.local.None? ==> r == Failed(NotSetUp, ws)
    ensures ws.local.Some? && ws.project.None? ==> r == Failed(ConfigMissing, ws)
    ensures ws.local.Some? && ws.project.Some? ==>
              var prod := ProdPath(ws.local.value, ws.project.value);
              && (!HostPathExists(ws, prod) ==> r == Completed(ws))
              && (HostPathExists(ws, prod) && ManifestAt(ws, prod).None? ==> r == Failed(ManifestUnreadable, ws))
  {
    match Prepare(ws)
    case Err(e) => Failed(e, ws)
    case Ok(c) =>
      var prod := ProdPath(c.local, c.project);
      if !HostPathExists(ws, prod) then Completed(ws)
      else
        match ManifestAt(ws, prod)
        case None => Failed(ManifestUnreadable, ws)
        case Some(m) =>
          if m.modId.Some? then Execute([Must(SaveProjectConfig(Captured(c.project, m)))], ws, env)
          else Completed(ws)
  }

  /**
   * With a readable manifest: no ModID leaves everything as it was; a ModID
   * is written into the project config, which then differs from the old one
   * in the ModID alone.
   */
  lemma PostPublishOutcome(ws: Workspace, env: Env)
    requires ws.local.Some? && ws.project.Some?
    requires HostPathExists(ws, ProdPath(ws.local.value, ws.project.value))
    requires ManifestAt(ws, ProdPath(ws.local.value, ws.project.value)).Some?
    ensures var p := ws.project.value;
            var m := ManifestAt(ws, ProdPath(ws.local.value, p)).value;
            var r := RunPostPublish(ws, env);
            && (m.modId.None? ==> r == Completed(ws))
            && (m.modId.Some? && ProjectConfigWrite in env.faults ==>
                  r == Failed(StageFailed(ProjectConfigWrite, Faulted), ws))
            && (m.modId.Some? && ProjectConfigWrite !in env.faults ==>
                  && r == Completed(ws.(project := Some(p.(modId := m.modId))))
                  && DeriveManifest(r.state.project.value).modId == m.modId)
  {
    var p := ws.project.value;
    var m := ManifestAt(ws, ProdPath(ws.local.value, p)).value;
    if m.modId.Some? {
      ExecuteOne(Must(SaveProjectConfig(Captured(p, m))), ws, env);
    }
  }

  /** Whatever the outcome, postpublish changes nothing but the project config's ModID. */
  lemma PostPublishOnlyCapturesModId(ws: Workspace, env: Env)
    ensures var out := RunPostPublish(ws, env).state;
            && out.(project := ws.project) == ws
            && (out.project != ws.project ==>
                  ws.project.Some? && out.project.Some? && out.project.value == ws.project.value.(modId := out.project.value.modId))
  {
    if ws.local.Some? && ws.project.Some? {
      var prod := ProdPath(ws.local.value, ws.project.value);
      if HostPathExists(ws, prod) && ManifestAt(ws, prod).Some? {
        PostPublishOutcome(ws, env);
      }
    }
  }

  /**
   * Right after a build, postpublish finds the ModID the build copied out
   * of the project config, so the config it writes back is the one it
   * read: the capture and the manifest derivation are inverse.
   */
  lemma PostPublishAfterBuildIsStable(ws: Workspace, env: Env, env2: Env)
    requires RunBuild(ws, env).Completed?
    requires ProjectConfigWrite !in env2.faults
    ensures RunPostPublish(RunBuild(ws, env).state, env2) == Completed(RunBuild(ws, env).state)
  {
    var out := RunBuild(ws, env).state;
    BuildCompleted(ws, env);
    var p := ws.project.value;
    var prod := ProdPath(ws.local.value, p);
    assert out.local == ws.local && out.project == ws.project;
    assert HostPathExists(out, prod) && ManifestAt(out, prod) == Some(DeriveManifest(p));
    PostPublishOutcome(out, env2);
    ManifestModIdRoundTrip(p);
    if p.modId.Some? {
      assert out.(project := Some(p)) == out;
    }
  }
}
