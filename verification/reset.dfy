/**
 * `runReset`: what clean does, plus removal of the local config, and then
 * `ensureLocalConfig` asks for the TTPG path again.
 */
module Reset {
  import opened Wrappers
  import opened Text
  import opened Workspace
  import opened Common
  import opened Pipeline
  import opened Clean

  /** The dev link and then the local config, removed when both configs are there to name the link. */
  function Unlink(ws: Workspace): seq<Step> {
    match DevLink(ws)
    case Some(link) => [Must(RemoveHostLinkIfPresent(link)), Must(RemoveLocalConfig)]
    case None => []
  }

  /** The last step: a new local config from the answers, the old one being gone. */
  function Recreate(cl: Result<LocalConfig, Error>): seq<Step> {
    [Must(EnsureLocalConfig(cl))]
  }

  /** The actions reset takes on `ws`. */
  predicate ResetAction(ws: Workspace, a: Action) {
    || (DevLink(ws).Some? && a == RemoveHostLinkIfPresent(DevLink(ws).value))
    || a.RemoveLocalConfig? || a.RemoveDevIfPresent? || a.RemoveBuildIfPresent? || a.EnsureLocalConfig?
  }

  /** The steps of reset once its configs loaded. */
  function ResetSteps(ws: Workspace, cl: Result<LocalConfig, Error>): (plan: seq<Step>)
    ensures forall st :: st in plan ==> ResetAction(ws, st.action)
  {
    Unlink(ws) + (ClearSteps + Recreate(cl))
  }

  /** Reset on the local config the answers yield. */
  function RunResetWith(ws: Workspace, env: Env, cl: Result<LocalConfig, Error>): (r: Run)
    ensures ws.local.Some? && ws.project.None? ==> r == Failed(ConfigMissing, ws)
  {
    if ws.local.None? then Execute(ResetSteps(ws, cl), ws, env)
    else
      match LoadConfig(ws)
      case Err(e) => Failed(e, ws)
      case Ok(_) => Execute(ResetSteps(ws, cl), ws, env)
  }

  /** `runReset`. */
  function RunReset(ws: Workspace, env: Env, la: LocalAnswers): Run {
    RunResetWith(ws, env, NewLocalConfig(la))
  }

  /** A removal reset has to make fails, before the answers are looked at. */
  predicate ResetFaults(ws: Workspace, env: Env) {
    || CleanFaults(ws, env)
    || (ws.local.Some? && LocalConfigRemoval in env.faults)
  }

  /** The link removal and the local config removal, then `rest`. */
  lemma UnlinkOutcome(ws: Workspace, env: Env, rest: seq<Step>)
    requires DevLink(ws).Some?
    ensures var link := DevLink(ws).value;
            var r := Execute(Unlink(ws) + rest, ws, env);
            && (HostPathExists(ws, link) && HostLinkRemoval in env.faults ==>
                  r == Failed(StageFailed(HostLinkRemoval, Faulted), ws))
            && (!(HostPathExists(ws, link) && HostLinkRemoval in env.faults) && LocalConfigRemoval in env.faults ==>
                  r == Failed(StageFailed(LocalConfigRemoval, Faulted), LinkCleared(ws, link)))
            && (!(HostPathExists(ws, link) && HostLinkRemoval in env.faults) && LocalConfigRemoval !in env.faults ==>
                  r == Execute(rest, LinkCleared(ws, link).(local := None), env))
  {
    var link := DevLink(ws).value;
    var l := RemoveHostLinkIfPresent(link);
    assert Unlink(ws) + rest == [Must(l)] + ([Must(RemoveLocalConfig)] + rest);
    MustThen(l, [Must(RemoveLocalConfig)] + rest, ws, env);
    if !(HostPathExists(ws, link) && HostLinkRemoval in env.faults) {
      var s1 := LinkCleared(ws, link);
      assert Perform(l, ws, env) == Ok(s1);
      MustThen(RemoveLocalConfig, rest, s1, env);
    }
  }

  /**
   * The clearing and the new local config, on a workspace without one:
   * completes exactly when no removal fails and the answers give a config
   * that can be written.
   */
  lemma TailOutcome(ws: Workspace, env: Env, cl: Result<LocalConfig, Error>)
    requires ws.local.None?
    ensures var r := Execute(ClearSteps + Recreate(cl), ws, env);
            var clear := !(ws.devRoot && DevRemoval in env.faults) && !(ws.build.Some? && BuildRemoval in env.faults);
            && (r.Completed? <==> clear && cl.Ok? && LocalConfigWrite !in env.faults)
            && (r.Completed? ==> r.state == AfterClear(ws).(local := Some(cl.value)))
            && (clear && cl.Err? ==> r == Failed(cl.error, AfterClear(ws)))
  {
    ExecuteAppend(ClearSteps, Recreate(cl), ws, env);
    ClearStepsOutcome(ws, env);
    ExecuteOne(Must(EnsureLocalConfig(cl)), AfterClear(ws), env);
  }

  /**
   * Reset completes exactly when the configs load, no removal fails, the
   * answers give a TTPG path and it can be written; it then leaves the
   * cleaned workspace with the new local config in place of the old.
   */
  lemma ResetCompletes(ws: Workspace, env: Env, cl: Result<LocalConfig, Error>)
    ensures RunResetWith(ws, env, cl).Completed? <==>
              && (ws.local.None? || ws.project.Some?)
              && !ResetFaults(ws, env)
              && cl.Ok? && LocalConfigWrite !in env.faults
    ensures RunResetWith(ws, env, cl).Completed? ==>
              RunResetWith(ws, env, cl).state == Cleaned(ws).(local := Some(cl.value))
  {
    if ws.local.None? {
      assert ResetSteps(ws, cl) == ClearSteps + Recreate(cl);
      TailOutcome(ws, env, cl);
    } else if ws.project.Some? {
      UnlinkOutcome(ws, env, ClearSteps + Recreate(cl));
      var link := DevLink(ws).value;
      TailOutcome(LinkCleared(ws, link).(local := None), env, cl);
    }
  }

  /**
   * Without a usable answer, a reset whose removals all succeed ends with
   * the old local config gone and none in its place: the workspace is no
   * longer set up.
   */
  lemma ResetWithoutAnswerUnsetsUp(ws: Workspace, env: Env, cl: Result<LocalConfig, Error>)
    requires ws.local.None? || ws.project.Some?
    requires !ResetFaults(ws, env)
    requires cl.Err?
    ensures RunResetWith(ws, env, cl) == Failed(cl.error, Cleaned(ws).(local := None))
  {
    if ws.local.None? {
      assert ResetSteps(ws, cl) == ClearSteps + Recreate(cl);
      TailOutcome(ws, env, cl);
    } else {
      UnlinkOutcome(ws, env, ClearSteps + Recreate(cl));
      var link := DevLink(ws).value;
      TailOutcome(LinkCleared(ws, link).(local := None), env, cl);
    }
  }

  /** In particular, with no TTPG path typed and none to suggest, reset ends not set up. */
  lemma ResetNeedsTtpgPath(ws: Workspace, env: Env, la: LocalAnswers)
    requires ws.local.None? || ws.project.Some?
    requires !ResetFaults(ws, env)
    requires Trim(la.ttpgPath) == "" && la.platform != "darwin" && la.platform != "win32"
    ensures RunReset(ws, env, la) == Failed(TtpgPathRequired, Cleaned(ws).(local := None))
  {
    ResetWithoutAnswerUnsetsUp(ws, env, NewLocalConfig(la));
  }

  /** The parts of `ws` reset may not change: everything but the local config, the dev link, `./dev` and `./build`. */
  predicate ResetFramed(ws: Workspace, s: Workspace) {
    && s.(local := ws.local, host := ws.host, devRoot := ws.devRoot, devStages := ws.devStages, build := ws.build) == ws
    && (DevLink(ws).None? ==> s.host == ws.host)
    && (DevLink(ws).Some? ==> s.host - {DevLink(ws).value} == ws.host - {DevLink(ws).value})
  }

  /** Each action of reset keeps the frame. */
  lemma ResetStepFramed(a: Action, s: Workspace, env: Env, ws: Workspace)
    requires ResetAction(ws, a)
    requires ResetFramed(ws, s)
    ensures Perform(a, s, env).Ok? ==> ResetFramed(ws, Perform(a, s, env).value)
  {
    if a.RemoveHostLinkIfPresent? {
      var link := DevLink(ws).value;
      assert (s.host - {link}) - {link} == s.host - {link};
    }
  }

  /**
   * Whatever the outcome, reset leaves the project config, the assets, the
   * bundles and every host path but the dev link as they were.
   */
  lemma ResetFrame(ws: Workspace, env: Env, cl: Result<LocalConfig, Error>)
    ensures ResetFramed(ws, RunResetWith(ws, env, cl).state)
  {
    var plan := ResetSteps(ws, cl);
    forall i, s | 0 <= i < |plan| && ResetFramed(ws, s) && Perform(plan[i].action, s, env).Ok?
      ensures ResetFramed(ws, Perform(plan[i].action, s, env).value)
    {
      assert plan[i] in plan;
      ResetStepFramed(plan[i].action, s, env, ws);
    }
    ExecuteKeeps(plan, ws, env, s => ResetFramed(ws, s));
  }

  /** Reset is clean followed by a fresh local config: a completed reset leaves what a completed clean leaves, but for that config. */
  lemma ResetIsCleanThenConfig(ws: Workspace, env: Env, cl: Result<LocalConfig, Error>)
    requires RunResetWith(ws, env, cl).Completed?
    ensures RunClean(ws, env).Completed? && cl.Ok?
    ensures RunResetWith(ws, env, cl).state == RunClean(ws, env).state.(local := Some(cl.value))
  {
    ResetCompletes(ws, env, cl);
    CleanCompletes(ws, env);
  }
}
