/**
 * `runClean`: removal of the dev link in the TTPG folder, of `./dev` and of
 * `./build`, each only when present.
 */
module Clean {
  import opened Wrappers
  import opened Workspace
  import opened Common
  import opened Pipeline

  /** The removals of `./dev` and `./build` that clean and reset both end with. */
  const ClearSteps: seq<Step> := [Must(RemoveDevIfPresent), Must(RemoveBuildIfPresent)]

  /** The workspace with `./dev` and `./build` gone. */
  function AfterClear(ws: Workspace): Workspace {
    ws.(devRoot := false, devStages := if ws.devRoot then map[] else ws.devStages, build := None)
  }

  /** The workspace with the link at `link` gone, when it resolves. */
  function LinkCleared(ws: Workspace, link: HostPath): Workspace {
    if HostPathExists(ws, link) then ws.(host := ws.host - {link}) else ws
  }

  /** The dev link path, when both configs are there to name it. */
  function DevLink(ws: Workspace): Option<HostPath> {
    if ws.local.Some? && ws.project.Some? then Some(DevLinkPath(ws.local.value, ws.project.value)) else None
  }

  /** The workspace a completed clean leaves: link, `./dev` and `./build` removed, nothing else. */
  function Cleaned(ws: Workspace): Workspace {
    match DevLink(ws)
    case Some(link) => AfterClear(LinkCleared(ws, link))
    case None => AfterClear(ws)
  }

  /** A removal clean has to make fails. */
  predicate CleanFaults(ws: Workspace, env: Env) {
    || (DevLink(ws).Some? && HostPathExists(ws, DevLink(ws).value) && HostLinkRemoval in env.faults)
    || (ws.devRoot && DevRemoval in env.faults)
    || (ws.build.Some? && BuildRemoval in env.faults)
  }

  /** `runClean`. Without a local config the host is left alone. */
  function RunClean(ws: Workspace, env: Env): (r: Run)
    ensures ws.local.Some? && ws.project.None? ==> r == Failed(ConfigMissing, ws)
  {
    if ws.local.None? then Execute(ClearSteps, ws, env)
    else
      match LoadConfig(ws)
      case Err(e) => Failed(e, ws)
      case Ok(c) => Execute([Must(RemoveHostLinkIfPresent(DevLinkPath(c.local, c.project)))] + ClearSteps, ws, env)
  }

  /** The two removals: each runs only when its directory is there, and the first failure stops. */
  lemma ClearStepsOutcome(ws: Workspace, env: Env)
    ensures var r := Execute(ClearSteps, ws, env);
            && (ws.devRoot && DevRemoval in env.faults ==> r == Failed(StageFailed(DevRemoval, Faulted), ws))
            && (!(ws.devRoot && DevRemoval in env.faults) && ws.build.Some? && BuildRemoval in env.faults ==>
                  r == Failed(StageFailed(BuildRemoval, Faulted), AfterClear(ws).(build := ws.build)))
            && (!(ws.devRoot && DevRemoval in env.faults) && !(ws.build.Some? && BuildRemoval in env.faults) ==>
                  r == Completed(AfterClear(ws)))
  {
    var s1 := AfterClear(ws).(build := ws.build);
    MustThen(RemoveDevIfPresent, [Must(RemoveBuildIfPresent)], ws, env);
    assert ClearSteps == [Must(RemoveDevIfPresent)] + [Must(RemoveBuildIfPresent)];
    if !(ws.devRoot && DevRemoval in env.faults) {
      assert Perform(RemoveDevIfPresent, ws, env) == Ok(s1);
      ExecuteOne(Must(RemoveBuildIfPresent), s1, env);
    }
  }

  /** Clean succeeds exactly when the configs load and no removal it has to make fails; it then leaves `Cleaned`. */
  lemma CleanCompletes(ws: Workspace, env: Env)
    ensures RunClean(ws, env).Completed? <==> (ws.local.None? || ws.project.Some?) && !CleanFaults(ws, env)
    ensures RunClean(ws, env).Completed? ==> RunClean(ws, env).state == Cleaned(ws)
  {
    if ws.local.None? {
      ClearStepsOutcome(ws, env);
    } else if ws.project.Some? {
      var link := DevLinkPath(ws.local.value, ws.project.value);
      MustThen(RemoveHostLinkIfPresent(link), ClearSteps, ws, env);
      if !(HostPathExists(ws, link) && HostLinkRemoval in env.faults) {
        var s1 := LinkCleared(ws, link);
        assert Perform(RemoveHostLinkIfPresent(link), ws, env) == Ok(s1);
        ClearStepsOutcome(s1, env);
      }
    }
  }

  /**
   * Whatever the outcome, clean touches only the dev link, `./dev` and
   * `./build`: configs, assets, bundles and every other host path stay.
   */
  lemma CleanFrame(ws: Workspace, env: Env)
    ensures var out := RunClean(ws, env).state;
            && out.(host := ws.host, devRoot := ws.devRoot, devStages := ws.devStages, build := ws.build) == ws
            && (DevLink(ws).None? ==> out.host == ws.host)
            && (DevLink(ws).Some? ==> out.host - {DevLink(ws).value} == ws.host - {DevLink(ws).value})
  {
    if ws.local.None? {
      ClearStepsOutcome(ws, env);
    } else if ws.project.Some? {
      var link := DevLinkPath(ws.local.value, ws.project.value);
      MustThen(RemoveHostLinkIfPresent(link), ClearSteps, ws, env);
      if !(HostPathExists(ws, link) && HostLinkRemoval in env.faults) {
        var s1 := LinkCleared(ws, link);
        assert Perform(RemoveHostLinkIfPresent(link), ws, env) == Ok(s1);
        ClearStepsOutcome(s1, env);
        assert s1.host - {link} == ws.host - {link};
      }
    }
  }

  /** After a completed clean there is nothing left to clean: a second run completes at once, changing nothing. */
  lemma CleanIdempotent(ws: Workspace, env: Env, env2: Env)
    requires RunClean(ws, env).Completed?
    ensures RunClean(RunClean(ws, env).state, env2) == Completed(RunClean(ws, env).state)
  {
    CleanCompletes(ws, env);
    var out := RunClean(ws, env).state;
    assert DevLink(out) == DevLink(ws);
    assert !CleanFaults(out, env2) by {
      if DevLink(out).Some? {
        var link := DevLink(out).value;
        assert !HostPathExists(out, link) by {
          if HostPathExists(ws, link) {
            assert link !in out.host;
          } else if link in out.host {
            assert out.host[link] == ws.host[link];
          }
        }
      }
    }
    CleanCompletes(out, env2);
    assert Cleaned(out) == out by {
      if DevLink(out).Some? {
        assert !HostPathExists(out, DevLink(out).value);
      }
    }
  }
}
