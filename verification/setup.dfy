/**
 * `runSetup`: the local config and the project config, each asked for
 * only when missing, and the seven asset directories when `./assets` is
 * missing.
 */
module Setup {
  import opened Wrappers
  import opened Workspace
  import opened Common
  import opened Text
  import opened Pipeline

  /** One `mkdir -p assets/<category>` per category, in order. */
  function MakeAll(cats: seq<string>): (plan: seq<Step>)
    ensures |plan| == |cats|
    ensures forall i :: 0 <= i < |cats| ==> plan[i] == Must(MakeAssetDir(cats[i]))
  {
    if cats == [] then [] else [Must(MakeAssetDir(cats[0]))] + MakeAll(cats[1..])
  }

  /** The asset tree as the directory steps see it: empty when `./assets` is missing. */
  function AssetsOf(ws: Workspace): Assets {
    ws.assets.GetOr(Assets({}, []))
  }

  /** The workspace with the categories `cs` added under `./assets`. */
  function WithCategories(ws: Workspace, cs: set<string>): Workspace {
    ws.(assets := Some(AssetsOf(ws).(categories := AssetsOf(ws).categories + cs)))
  }

  /** No `mkdir` of the categories fails. */
  predicate NoDirFaults(cats: seq<string>, env: Env) {
    forall i :: 0 <= i < |cats| ==> AssetDir(cats[i]) !in env.faults
  }

  /**
   * The directory steps complete exactly when no `mkdir` fails, and then
   * add exactly the listed categories; `mkdir -p` never refuses an existing
   * directory. A failure names one of the categories.
   */
  lemma {:induction false} MakeAllSpec(cats: seq<string>, ws: Workspace, env: Env)
    ensures Execute(MakeAll(cats), ws, env).Completed? <==> NoDirFaults(cats, env)
    ensures cats != [] && NoDirFaults(cats, env) ==>
              Execute(MakeAll(cats), ws, env).state == WithCategories(ws, set c | c in cats)
    ensures Execute(MakeAll(cats), ws, env).Failed? ==>
              var e := Execute(MakeAll(cats), ws, env).error;
              e.StageFailed? && e.stage.AssetDir? && e.stage.category in cats && e.cause == Faulted
    ensures Execute(MakeAll(cats), ws, env).state.(assets := ws.assets) == ws
    decreases |cats|
  {
    if cats != [] {
      var c := cats[0];
      var rest := cats[1..];
      var plan := MakeAll(cats);
      assert plan[1..] == MakeAll(rest);
      if AssetDir(c) !in env.faults {
        var ws1 := WithCategories(ws, {c});
        assert Perform(plan[0].action, ws, env) == Ok(ws1);
        assert Execute(plan, ws, env) == Execute(MakeAll(rest), ws1, env);
        MakeAllSpec(rest, ws1, env);
        NoDirFaultsStep(cats, env);
        if rest != [] {
          CategoriesStep(cats, ws);
        } else {
          assert (set x | x in cats) == {c};
        }
      }
    }
  }

  /** With the first `mkdir` done, the rest fail exactly when some of all of them did. */
  lemma NoDirFaultsStep(cats: seq<string>, env: Env)
    requires cats != [] && AssetDir(cats[0]) !in env.faults
    ensures NoDirFaults(cats, env) <==> NoDirFaults(cats[1..], env)
  {
    forall i | 0 < i < |cats| ensures cats[i] == cats[1..][i - 1] { }
  }

  /** Adding the first category and then the rest is adding them all. */
  lemma CategoriesStep(cats: seq<string>, ws: Workspace)
    requires cats != []
    ensures WithCategories(WithCategories(ws, {cats[0]}), set x | x in cats[1..]) == WithCategories(ws, set x | x in cats)
  {
    var rest := cats[1..];
    assert (set x | x in cats) == {cats[0]} + (set x | x in rest) by {
      assert cats == [cats[0]] + rest;
    }
    var a := AssetsOf(ws);
    assert (a.categories + {cats[0]}) + (set x | x in rest) == a.categories + (set x | x in cats);
  }

  /** The asset directory steps: all seven when `./assets` is missing, none otherwise. */
  function AssetSteps(ws: Workspace): seq<Step> {
    if ws.assets.None? then MakeAll(AssetDirs) else []
  }

  /**
   * The steps of setup, given the configs the answers yield: the two
   * configs, then the asset directories. Whether `./assets` exists is
   * decided on the workspace setup starts from, which the two config steps
   * do not change.
   */
  function SetupPlan(ws: Workspace, cl: Result<LocalConfig, Error>, cp: Result<ProjectConfig, Error>): seq<Step> {
    [Must(EnsureLocalConfig(cl))] + ([Must(EnsureProjectConfig(cp))] + AssetSteps(ws))
  }

  /** Setup on the configs the answers yield. */
  function RunSetupWith(ws: Workspace, env: Env, cl: Result<LocalConfig, Error>, cp: Result<ProjectConfig, Error>): Run {
    Execute(SetupPlan(ws, cl, cp), ws, env)
  }

  /**
   * `runSetup`: the answers are read only for a config that is missing, and
   * the project config records the slug answer as typed.
   */
  function RunSetup(ws: Workspace, env: Env, la: LocalAnswers, pa: ProjectAnswers): Run {
    RunSetupWith(ws, env, NewLocalConfig(la), NewProjectConfigAsWritten(pa))
  }

  /** Setup with the slug prompt corrected: an empty answer takes the suggested slug. */
  function RunSetupCorrected(ws: Workspace, env: Env, la: LocalAnswers, pa: ProjectAnswers): Run {
    RunSetupWith(ws, env, NewLocalConfig(la), NewProjectConfig(pa))
  }

  /** The local config after setup's first step: the old one, or the new one when it was missing. */
  function LocalAfter(ws: Workspace, cl: Result<LocalConfig, Error>): Option<LocalConfig> {
    if ws.local.Some? || cl.Err? then ws.local else Some(cl.value)
  }

  /** The project config after setup's second step. */
  function ProjectAfter(ws: Workspace, cp: Result<ProjectConfig, Error>): Option<ProjectConfig> {
    if ws.project.Some? || cp.Err? then ws.project else Some(cp.value)
  }

  /** When a config step fails: its answers give no config, or writing the file fails. */
  predicate ConfigStepsFail(ws: Workspace, env: Env, cl: Result<LocalConfig, Error>, cp: Result<ProjectConfig, Error>) {
    || (ws.local.None? && (cl.Err? || LocalConfigWrite in env.faults))
    || (ws.project.None? && (cp.Err? || ProjectConfigWrite in env.faults))
  }

  /** The local config step, then `rest`: a config is written only when it was missing. */
  lemma LocalStep(ws: Workspace, env: Env, cl: Result<LocalConfig, Error>, rest: seq<Step>)
    ensures var r := Execute([Must(EnsureLocalConfig(cl))] + rest, ws, env);
            && (ws.local.None? && cl.Err? ==> r == Failed(cl.error, ws))
            && (ws.local.None? && cl.Ok? && LocalConfigWrite in env.faults ==> r == Failed(StageFailed(LocalConfigWrite, Faulted), ws))
            && (!(ws.local.None? && (cl.Err? || LocalConfigWrite in env.faults)) ==>
                  r == Execute(rest, ws.(local := LocalAfter(ws, cl)), env))
  {
    MustThen(EnsureLocalConfig(cl), rest, ws, env);
  }

  /** The project config step, then `rest`. */
  lemma ProjectStep(ws: Workspace, env: Env, cp: Result<ProjectConfig, Error>, rest: seq<Step>)
    ensures var r := Execute([Must(EnsureProjectConfig(cp))] + rest, ws, env);
            && (ws.project.None? && cp.Err? ==> r == Failed(cp.error, ws))
            && (ws.project.None? && cp.Ok? && ProjectConfigWrite in env.faults ==> r == Failed(StageFailed(ProjectConfigWrite, Faulted), ws))
            && (!(ws.project.None? && (cp.Err? || ProjectConfigWrite in env.faults)) ==>
                  r == Execute(rest, ws.(project := ProjectAfter(ws, cp)), env))
  {
    MustThen(EnsureProjectConfig(cp), rest, ws, env);
  }

  /** The two config steps: a config is written only when it was missing, and the first failure stops. */
  lemma ConfigStepsOutcome(ws: Workspace, env: Env, cl: Result<LocalConfig, Error>, cp: Result<ProjectConfig, Error>)
    ensures var r := RunSetupWith(ws, env, cl, cp);
            && (ws.local.None? && cl.Err? ==> r == Failed(cl.error, ws))
            && (ConfigStepsFail(ws, env, cl, cp) ==>
                  && r.Failed? && r.state == ws.(local := r.state.local)
                  && (ws.local.Some? ==> r.state.local == ws.local))
            && (!(ws.local.None? && (cl.Err? || LocalConfigWrite in env.faults)) && ws.project.None? && cp.Err? ==>
                  r == Failed(cp.error, ws.(local := LocalAfter(ws, cl))))
            && (!ConfigStepsFail(ws, env, cl, cp) ==>
                  r == Execute(AssetSteps(ws), ws.(local := LocalAfter(ws, cl), project := ProjectAfter(ws, cp)), env))
  {
    var rest := AssetSteps(ws);
    LocalStep(ws, env, cl, [Must(EnsureProjectConfig(cp))] + rest);
    ProjectStep(ws.(local := LocalAfter(ws, cl)), env, cp, rest);
  }

  /**
   * Setup completes exactly when every config it has to write can be
   * written and, when `./assets` is missing, every `mkdir` succeeds. It then
   * leaves existing configs and assets as they were, adds the missing
   * ones, and leaves all seven categories when it made the asset tree.
   */
  lemma SetupCompletes(ws: Workspace, env: Env, cl: Result<LocalConfig, Error>, cp: Result<ProjectConfig, Error>)
    ensures RunSetupWith(ws, env, cl, cp).Completed? <==>
              && !ConfigStepsFail(ws, env, cl, cp)
              && (ws.assets.None? ==> forall d :: d in AssetDirSet ==> AssetDir(d) !in env.faults)
    ensures RunSetupWith(ws, env, cl, cp).Completed? ==>
              var out := RunSetupWith(ws, env, cl, cp).state;
              && out.local.Some? && out.project.Some?
              && out == ws.(local := LocalAfter(ws, cl), project := ProjectAfter(ws, cp),
                            assets := if ws.assets.Some? then ws.assets else Some(Assets(AssetDirSet, [])))
  {
    ConfigStepsOutcome(ws, env, cl, cp);
    if !ConfigStepsFail(ws, env, cl, cp) && ws.assets.None? {
      var s2 := ws.(local := LocalAfter(ws, cl), project := ProjectAfter(ws, cp));
      MakeAssetTree(s2, env);
    }
  }

  /** The seven `mkdir` steps on a workspace without `./assets`. */
  lemma MakeAssetTree(ws: Workspace, env: Env)
    requires ws.assets.None?
    ensures var r := Execute(MakeAll(AssetDirs), ws, env);
            && (r.Completed? <==> forall d :: d in AssetDirSet ==> AssetDir(d) !in env.faults)
            && (r.Completed? ==> r.state == ws.(assets := Some(Assets(AssetDirSet, []))))
            && r.state.(assets := ws.assets) == ws
  {
    AllCategories(env);
    MakeAllCategories(AssetDirs, AssetDirSet, ws, env);
  }

  /** `MakeAllSpec` for a list of categories given with its set, starting without `./assets`. */
  lemma MakeAllCategories(cats: seq<string>, cs: set<string>, ws: Workspace, env: Env)
    requires ws.assets.None? && cats != [] && (set c | c in cats) == cs
    ensures var r := Execute(MakeAll(cats), ws, env);
            && (r.Completed? <==> NoDirFaults(cats, env))
            && (r.Completed? ==> r.state == ws.(assets := Some(Assets(cs, []))))
            && r.state.(assets := ws.assets) == ws
  {
    MakeAllSpec(cats, ws, env);
    assert {} + cs == cs;
  }

  /** The seven categories, as a set and as fault-freedom. */
  lemma AllCategories(env: Env)
    ensures NoDirFaults(AssetDirs, env) <==> forall d :: d in AssetDirSet ==> AssetDir(d) !in env.faults
    ensures (set c | c in AssetDirs) == AssetDirSet
  {
    AssetDirsShape();
    if NoDirFaults(AssetDirs, env) {
      forall d | d in AssetDirSet ensures AssetDir(d) !in env.faults {
        assert d in AssetDirs;
        var i :| 0 <= i < |AssetDirs| && AssetDirs[i] == d;
      }
    }
  }

  /** Whatever the outcome, setup never replaces a config or asset tree that was there. */
  lemma SetupKeepsExisting(ws: Workspace, env: Env, cl: Result<LocalConfig, Error>, cp: Result<ProjectConfig, Error>)
    ensures var out := RunSetupWith(ws, env, cl, cp).state;
            && (ws.local.Some? ==> out.local == ws.local)
            && (ws.project.Some? ==> out.project == ws.project)
            && (ws.assets.Some? ==> out.assets == ws.assets)
            && out.(local := ws.local, project := ws.project, assets := ws.assets) == ws
  {
    ConfigStepsOutcome(ws, env, cl, cp);
    if !ConfigStepsFail(ws, env, cl, cp) && ws.assets.None? {
      var s2 := ws.(local := LocalAfter(ws, cl), project := ProjectAfter(ws, cp));
      MakeAllSpec(AssetDirs, s2, env);
    }
  }

  /** After a completed setup a second one, on any answers, has nothing to do. */
  lemma SetupIdempotent(ws: Workspace, env: Env, cl: Result<LocalConfig, Error>, cp: Result<ProjectConfig, Error>,
                        env2: Env, cl2: Result<LocalConfig, Error>, cp2: Result<ProjectConfig, Error>)
    requires RunSetupWith(ws, env, cl, cp).Completed?
    ensures RunSetupWith(RunSetupWith(ws, env, cl, cp).state, env2, cl2, cp2) == Completed(RunSetupWith(ws, env, cl, cp).state)
  {
    SetupCompletes(ws, env, cl, cp);
    var out := RunSetupWith(ws, env, cl, cp).state;
    SetupCompletes(out, env2, cl2, cp2);
  }

  /** Without a TTPG path, setup on a fresh workspace stops at once and changes nothing. */
  lemma SetupNeedsTtpgPath(ws: Workspace, env: Env, la: LocalAnswers, pa: ProjectAnswers)
    requires ws.local.None? && Trim(la.ttpgPath) == "" && la.platform != "darwin" && la.platform != "win32"
    ensures RunSetup(ws, env, la, pa) == Failed(TtpgPathRequired, ws)
  {
    ConfigStepsOutcome(ws, env, NewLocalConfig(la), NewProjectConfigAsWritten(pa));
  }

  /**
   * A project without a title is refused after the local config is in
   * place, and before any asset directory is made.
   */
  lemma UntitledProjectStopsSetup(ws: Workspace, env: Env, la: LocalAnswers, pa: ProjectAnswers)
    requires ws.local.Some? && ws.project.None? && pa.title == ""
    ensures RunSetup(ws, env, la, pa) == Failed(ProjectTitleRequired, ws)
  {
    ConfigStepsOutcome(ws, env, NewLocalConfig(la), NewProjectConfigAsWritten(pa));
  }

  /**
   * A setup that writes the project config records the slug answer exactly
   * as typed, untrimmed and possibly empty.
   */
  lemma SetupRecordsSlugAnswer(ws: Workspace, env: Env, la: LocalAnswers, pa: ProjectAnswers)
    requires ws.project.None? && RunSetup(ws, env, la, pa).Completed?
    ensures NewProjectConfigAsWritten(pa).Ok?
    ensures RunSetup(ws, env, la, pa).state.project == Some(NewProjectConfigAsWritten(pa).value)
    ensures RunSetup(ws, env, la, pa).state.project.value.slug == pa.slug
  {
    SetupCompletes(ws, env, NewLocalConfig(la), NewProjectConfigAsWritten(pa));
  }

  /** The corrected setup records the chosen slug, which is never empty. */
  lemma CorrectedSetupRecordsChosenSlug(ws: Workspace, env: Env, la: LocalAnswers, pa: ProjectAnswers)
    requires ws.project.None? && RunSetupCorrected(ws, env, la, pa).Completed?
    ensures RunSetupCorrected(ws, env, la, pa).state.project.Some?
    ensures RunSetupCorrected(ws, env, la, pa).state.project.value.slug == ChooseSlug(pa)
    ensures RunSetupCorrected(ws, env, la, pa).state.project.value.slug != ""
  {
    SetupCompletes(ws, env, NewLocalConfig(la), NewProjectConfig(pa));
  }

  /**
   * The two setups differ only through the slug: on a slug answer that is
   * already trimmed and non-empty, or on an untitled project, they agree.
   */
  lemma SetupsAgreeOnTypedSlug(ws: Workspace, env: Env, la: LocalAnswers, pa: ProjectAnswers)
    requires pa.title == "" || (pa.slug != "" && Trim(pa.slug) == pa.slug)
    ensures RunSetupCorrected(ws, env, la, pa) == RunSetup(ws, env, la, pa)
  {
    assert NewProjectConfig(pa) == NewProjectConfigAsWritten(pa);
  }
}
