/**
 * The staged pipeline every command runs: a plan of named actions, each
 * either mandatory (a failure is logged and rethrown, ending the command)
 * or tolerated (a failure is logged and the plan goes on). Nothing already
 * done is undone; a failed run returns the state reached so far.
 *
 * The outside world enters through `Env`: which stages' filesystem calls
 * report an error, and how the transpiler and the package manager end.
 */
module Pipeline {
  import opened Wrappers
  import opened Workspace
  import opened Common
  import opened Bundling

  /** The Scripts tree an action writes into. */
  datatype Target = BuildTree | DevScripts(slug: string)

  datatype Action =
    | MakeProdDir(at: HostPath)
    | CopyAssetsInto(at: HostPath)
    | MakeBuildDir
    | RunTranspiler(into: Target)
    | CopySources(into: Target)
    | InstallDependencies(into: Target)
    | CopyBuildToScripts(at: HostPath)
    | RemoveBuildDir
    | WriteManifest(at: HostPath, manifest: Manifest)
    | ScanTemplates
    | WriteRollupConfig
    | RunBundler
    | CopyLibToScripts(at: HostPath)
    | RemoveLibDir
    | RemoveRollupConfig
    | EnsureDevStage(slug: string)
    | LinkAsset(slug: string, category: string)
    | EnsureHostLink(at: HostPath, slug: string)
    | RemoveHostLinkIfPresent(at: HostPath)
    | RemoveDevIfPresent
    | RemoveBuildIfPresent
    | RemoveLocalConfig
    | EnsureLocalConfig(chosenLocal: Result<LocalConfig, Error>)
    | EnsureProjectConfig(chosenProject: Result<ProjectConfig, Error>)
    | MakeAssetDir(category: string)
    | SaveProjectConfig(config: ProjectConfig)
    | RemoveProdDir(at: HostPath)

  /** A plan entry: `Must` rethrows its failure, `Try` logs and swallows it. */
  datatype Step = Must(action: Action) | Try(action: Action)

  /** The oracles: failing filesystem stages, and the ends of `tsc`/`yarn` (the bundler fails through `faults`). */
  datatype Env = Env(faults: set<Stage>, tsc: SpawnOutcome, yarn: SpawnOutcome)

  /** A command's outcome: the state it finished in, or the error and the state at the point of failure. */
  datatype Run = Completed(state: Workspace) | Failed(error: Error, state: Workspace)

  /** A filesystem call at `stage`: its effect, unless the environment makes it fail. */
  function Io(stage: Stage, env: Env, next: Workspace): (r: Result<Workspace, Error>)
    ensures r.Err? <==> stage in env.faults
    ensures r.Err? ==> r.error == StageFailed(stage, Faulted)
    ensures r.Ok? ==> r.value == next
  {
    if stage in env.faults then Err(StageFailed(stage, Faulted)) else Ok(next)
  }

  function Refuse(stage: Stage, cause: Cause): Result<Workspace, Error> {
    Err(StageFailed(stage, cause))
  }

  /** The production directory at `p`, or a fresh one when there is none. */
  function ProdAt(ws: Workspace, p: HostPath): ProdDir {
    if p in ws.host && ws.host[p].Production? then ws.host[p].dir else EmptyProd
  }

  function WithProd(ws: Workspace, p: HostPath, d: ProdDir): Workspace {
    ws.(host := ws.host[p := Production(d)])
  }

  function TreeAt(ws: Workspace, t: Target): ScriptTree {
    match t
    case BuildTree => ws.build.GetOr(EmptyTree)
    case DevScripts(s) => if s in ws.devStages then ws.devStages[s].scripts else EmptyTree
  }

  /** Writes a Scripts tree; output directories are created on the way, as `tsc`, `fs.cp` and `yarn` do. */
  function WithTree(ws: Workspace, t: Target, tree: ScriptTree): Workspace {
    match t
    case BuildTree => ws.(build := Some(tree))
    case DevScripts(s) =>
      var stage := if s in ws.devStages then ws.devStages[s] else DevStage({}, EmptyTree);
      ws.(devRoot := true, devStages := ws.devStages[s := stage.(scripts := tree)])
  }

  function AddSource(ws: Workspace, t: Target, src: ScriptSource): Workspace {
    var tree := TreeAt(ws, t);
    WithTree(ws, t, tree.(sources := tree.sources + {src}))
  }

  function TemplatesOf(ws: Workspace): seq<TemplateDoc> {
    if ws.assets.Some? then ws.assets.value.templates else []
  }

  predicate HasMalformedTemplate(ws: Workspace) {
    exists i :: 0 <= i < |TemplatesOf(ws)| && TemplatesOf(ws)[i].Malformed?
  }

  /** One action on the workspace: the new state, or the error it raises. */
  function Perform(a: Action, ws: Workspace, env: Env): Result<Workspace, Error> {
    match a
    case MakeProdDir(p) =>
      if p in ws.host then Refuse(ProductionDir, AlreadyPresent)
      else Io(ProductionDir, env, WithProd(ws, p, EmptyProd))
    case CopyAssetsInto(p) =>
      if ws.assets.None? then Refuse(AssetCopy, NotPresent)
      else Io(AssetCopy, env, WithProd(ws, p, ProdAt(ws, p).(assets := true)))
    case MakeBuildDir =>
      Io(BuildDir, env, ws.(build := Some(ws.build.GetOr(EmptyTree))))
    case RunTranspiler(t) =>
      (match ToolRejection(env.tsc)
       case Some(c) => Refuse(Transpiler, c)
       case None => Ok(AddSource(ws, t, Transpiled)))
    case CopySources(t) =>
      Io(SourceCopy, env, AddSource(ws, t, CopiedSource))
    case InstallDependencies(t) =>
      (match ToolRejection(env.yarn)
       case Some(c) => Refuse(Dependencies, c)
       case None => Ok(WithTree(ws, t, TreeAt(ws, t).(deps := true))))
    case CopyBuildToScripts(p) =>
      if ws.build.None? then Refuse(ScriptsCopy, NotPresent)
      else Io(ScriptsCopy, env, WithProd(ws, p, ProdAt(ws, p).(scripts := Some(FromBuild(ws.build.value)))))
    case RemoveBuildDir =>
      if ws.build.None? then Refuse(BuildRemoval, NotPresent)
      else Io(BuildRemoval, env, ws.(build := None))
    case WriteManifest(p, m) =>
      if !(p in ws.host && ws.host[p].Production?) then Refuse(ManifestWrite, NotPresent)
      else Io(ManifestWrite, env, WithProd(ws, p, ws.host[p].dir.(manifest := Some(m))))
    case ScanTemplates =>
      if TemplateScan in env.faults then Refuse(TemplateScan, Faulted)
      else if HasMalformedTemplate(ws) then Refuse(TemplateScan, Unparseable)
      else Ok(ws)
    case WriteRollupConfig =>
      Io(RollupConfigWrite, env, ws.(rollup := Some(RollupConfigFor(ScriptNames(TemplatesOf(ws))))))
    case RunBundler =>
      if ws.rollup.None? then Refuse(Bundler, NotPresent)
      else
        Io(Bundler, env, ws.(lib := Some(ws.lib.GetOr({}) + BundleOutputs(ws.rollup.value))))
    case CopyLibToScripts(p) =>
      if ws.lib.None? then Refuse(ScriptsCopy, NotPresent)
      else Io(ScriptsCopy, env, WithProd(ws, p, ProdAt(ws, p).(scripts := Some(FromBundle(ws.lib.value)))))
    case RemoveLibDir =>
      if ws.lib.None? then Refuse(LibRemoval, NotPresent)
      else Io(LibRemoval, env, ws.(lib := None))
    case RemoveRollupConfig =>
      if ws.rollup.None? then Refuse(RollupConfigRemoval, NotPresent)
      else Io(RollupConfigRemoval, env, ws.(rollup := None))
    case EnsureDevStage(s) =>
      if s in ws.devStages then Ok(ws)
      else Io(DevStageDir, env, ws.(devRoot := true, devStages := ws.devStages[s := DevStage({}, EmptyTree)]))
    case LinkAsset(s, d) =>
      if s !in ws.devStages then Refuse(AssetLink(d), NotPresent)
      else if d in ws.devStages[s].junctions then Refuse(AssetLink(d), AlreadyPresent)
      else
        var stage := ws.devStages[s];
        Io(AssetLink(d), env, ws.(devStages := ws.devStages[s := stage.(junctions := stage.junctions + {d})]))
    case EnsureHostLink(p, s) =>
      if HostPathExists(ws, p) then Ok(ws)
      else if p in ws.host then Refuse(HostLink, AlreadyPresent)
      else Io(HostLink, env, ws.(host := ws.host[p := DevJunction(s)]))
    case RemoveHostLinkIfPresent(p) =>
      if !HostPathExists(ws, p) then Ok(ws)
      else Io(HostLinkRemoval, env, ws.(host := ws.host - {p}))
    case RemoveDevIfPresent =>
      if !ws.devRoot then Ok(ws)
      else Io(DevRemoval, env, ws.(devRoot := false, devStages := map[]))
    case RemoveBuildIfPresent =>
      if ws.build.None? then Ok(ws)
      else Io(BuildRemoval, env, ws.(build := None))
    case RemoveLocalConfig =>
      if ws.local.None? then Refuse(LocalConfigRemoval, NotPresent)
      else Io(LocalConfigRemoval, env, ws.(local := None))
    case EnsureLocalConfig(chosen) =>
      if ws.local.Some? then Ok(ws)
      else
        (match chosen
         case Err(e) => Err(e)
         case Ok(c) => Io(LocalConfigWrite, env, ws.(local := Some(c))))
    case EnsureProjectConfig(chosen) =>
      if ws.project.Some? then Ok(ws)
      else
        (match chosen
         case Err(e) => Err(e)
         case Ok(c) => Io(ProjectConfigWrite, env, ws.(project := Some(c))))
    case MakeAssetDir(d) =>
      var assets := ws.assets.GetOr(Assets({}, []));
      Io(AssetDir(d), env, ws.(assets := Some(assets.(categories := assets.categories + {d}))))
    case SaveProjectConfig(c) =>
      Io(ProjectConfigWrite, env, ws.(project := Some(c)))
    case RemoveProdDir(p) =>
      if p !in ws.host then Refuse(ProductionRemoval, NotPresent)
      else Io(ProductionRemoval, env, ws.(host := ws.host - {p}))
  }

  /** The stage an action's failure is reported against. */
  function StageOf(a: Action): Stage {
    match a
    case MakeProdDir(_) => ProductionDir
    case CopyAssetsInto(_) => AssetCopy
    case MakeBuildDir => BuildDir
    case RunTranspiler(_) => Transpiler
    case CopySources(_) => SourceCopy
    case InstallDependencies(_) => Dependencies
    case CopyBuildToScripts(_) => ScriptsCopy
    case RemoveBuildDir => BuildRemoval
    case WriteManifest(_, _) => ManifestWrite
    case ScanTemplates => TemplateScan
    case WriteRollupConfig => RollupConfigWrite
    case RunBundler => Bundler
    case CopyLibToScripts(_) => ScriptsCopy
    case RemoveLibDir => LibRemoval
    case RemoveRollupConfig => RollupConfigRemoval
    case EnsureDevStage(_) => DevStageDir
    case LinkAsset(_, d) => AssetLink(d)
    case EnsureHostLink(_, _) => HostLink
    case RemoveHostLinkIfPresent(_) => HostLinkRemoval
    case RemoveDevIfPresent => DevRemoval
    case RemoveBuildIfPresent => BuildRemoval
    case RemoveLocalConfig => LocalConfigRemoval
    case EnsureLocalConfig(_) => LocalConfigWrite
    case EnsureProjectConfig(_) => ProjectConfigWrite
    case MakeAssetDir(d) => AssetDir(d)
    case SaveProjectConfig(_) => ProjectConfigWrite
    case RemoveProdDir(_) => ProductionRemoval
  }

  /**
   * A junction whose dev stage is gone is dangling: `pathExists` reports it
   * absent, so the removals skip it, yet `fs.symlink` onto it fails as
   * already present.
   */
  lemma DanglingLink(ws: Workspace, env: Env, p: HostPath, slug: string)
    requires p in ws.host && ws.host[p].DevJunction? && ws.host[p].slug !in ws.devStages
    ensures !HostPathExists(ws, p)
    ensures Perform(RemoveHostLinkIfPresent(p), ws, env) == Ok(ws)
    ensures Perform(EnsureHostLink(p, slug), ws, env) == Err(StageFailed(HostLink, AlreadyPresent))
  {
  }

  /** The stages of a plan, in order. */
  function StagesOf(plan: seq<Step>): (stages: seq<Stage>)
    ensures |stages| == |plan|
    ensures forall i :: 0 <= i < |plan| ==> stages[i] == StageOf(plan[i].action)
  {
    seq(|plan|, i requires 0 <= i < |plan| => StageOf(plan[i].action))
  }

  /** The stages of two plans run one after the other. */
  lemma StagesOfAppend(a: seq<Step>, b: seq<Step>)
    ensures StagesOf(a + b) == StagesOf(a) + StagesOf(b)
  {
  }

  /**
   * Every error an action raises names that action's stage, except a
   * refusal of the config prompts, which is the answers' own error.
   */
  lemma ErrorNamesStage(a: Action, ws: Workspace, env: Env)
    requires Perform(a, ws, env).Err?
    ensures var e := Perform(a, ws, env).error;
            || (e.StageFailed? && e.stage == StageOf(a))
            || (a.EnsureLocalConfig? && a.chosenLocal == Err(e))
            || (a.EnsureProjectConfig? && a.chosenProject == Err(e))
  {
  }

  /**
   * Runs a plan: each step on the state the previous ones left. A failing
   * `Must` step ends the run with its error; a failing `Try` step changes
   * nothing and the run goes on.
   */
  function Execute(plan: seq<Step>, ws: Workspace, env: Env): (r: Run)
    decreases |plan|
  {
    if plan == [] then Completed(ws)
    else
      match Perform(plan[0].action, ws, env)
      case Ok(next) => Execute(plan[1..], next, env)
      case Err(e) => if plan[0].Try? then Execute(plan[1..], ws, env) else Failed(e, ws)
  }

  /** The run of `rest` after `first`, or `first` itself when it failed. */
  function AndThen(first: Run, rest: seq<Step>, env: Env): Run {
    if first.Completed? then Execute(rest, first.state, env) else first
  }

  /** Running two plans one after the other is running their concatenation. */
  lemma {:induction false} ExecuteAppend(p: seq<Step>, q: seq<Step>, ws: Workspace, env: Env)
    ensures Execute(p + q, ws, env) == AndThen(Execute(p, ws, env), q, env)
    decreases |p|
  {
    if p == [] {
      assert p + q == q;
    } else {
      assert (p + q)[0] == p[0];
      assert (p + q)[1..] == p[1..] + q;
      match Perform(p[0].action, ws, env)
      case Ok(next) => ExecuteAppend(p[1..], q, next, env);
      case Err(e) =>
        if p[0].Try? {
          ExecuteAppend(p[1..], q, ws, env);
        }
    }
  }

  /** One step on its own. */
  lemma ExecuteOne(s: Step, ws: Workspace, env: Env)
    ensures Execute([s], ws, env) ==
      match Perform(s.action, ws, env)
      case Ok(next) => Completed(next)
      case Err(e) => if s.Try? then Completed(ws) else Failed(e, ws)
  {
  }

  /**
   * No rollback, and no step after a failure: a failed run stopped at some
   * `Must` step `k`, in exactly the state the steps before `k` produced, with
   * the error that step raised there.
   */
  lemma {:induction false} FailureIsAtAStep(plan: seq<Step>, ws: Workspace, env: Env) returns (k: nat)
    requires Execute(plan, ws, env).Failed?
    ensures k < |plan| && plan[k].Must?
    ensures Execute(plan[..k], ws, env) == Completed(Execute(plan, ws, env).state)
    ensures Perform(plan[k].action, Execute(plan, ws, env).state, env) == Err(Execute(plan, ws, env).error)
    decreases |plan|
  {
    var r := Execute(plan, ws, env);
    match Perform(plan[0].action, ws, env)
    case Ok(next) =>
      var j := FailureIsAtAStep(plan[1..], next, env);
      k := j + 1;
      assert plan[..k] == [plan[0]] + plan[1..][..j];
      ExecuteAppend([plan[0]], plan[1..][..j], ws, env);
      ExecuteOne(plan[0], ws, env);
    case Err(e) =>
      if plan[0].Try? {
        var j := FailureIsAtAStep(plan[1..], ws, env);
        k := j + 1;
        assert plan[..k] == [plan[0]] + plan[1..][..j];
        ExecuteAppend([plan[0]], plan[1..][..j], ws, env);
        ExecuteOne(plan[0], ws, env);
      } else {
        k := 0;
        assert plan[..0] == [];
      }
  }

  /**
   * A completed run completed every prefix of its plan, and the rest of
   * the plan ran on the state that prefix left.
   */
  lemma CompletedPrefix(plan: seq<Step>, k: nat, ws: Workspace, env: Env)
    requires k <= |plan| && Execute(plan, ws, env).Completed?
    ensures Execute(plan[..k], ws, env).Completed?
    ensures Execute(plan, ws, env) == Execute(plan[k..], Execute(plan[..k], ws, env).state, env)
  {
    assert plan[..k] + plan[k..] == plan;
    ExecuteAppend(plan[..k], plan[k..], ws, env);
  }

  /** The run of one more step, after a prefix that completed. */
  lemma NextStep(plan: seq<Step>, k: nat, ws: Workspace, env: Env)
    requires k < |plan| && Execute(plan[..k], ws, env).Completed?
    ensures var s := Execute(plan[..k], ws, env).state;
            Execute(plan[..k + 1], ws, env) ==
              match Perform(plan[k].action, s, env)
              case Ok(next) => Completed(next)
              case Err(e) => if plan[k].Try? then Completed(s) else Failed(e, s)
  {
    assert plan[..k + 1] == plan[..k] + [plan[k]];
    ExecuteAppend(plan[..k], [plan[k]], ws, env);
    ExecuteOne(plan[k], Execute(plan[..k], ws, env).state, env);
  }

  /** A step that succeeds extends a completed prefix. */
  lemma StepOk(plan: seq<Step>, k: nat, ws: Workspace, env: Env, s: Workspace, next: Workspace)
    requires k < |plan| && Execute(plan[..k], ws, env) == Completed(s)
    requires Perform(plan[k].action, s, env) == Ok(next)
    ensures Execute(plan[..k + 1], ws, env) == Completed(next)
  {
    NextStep(plan, k, ws, env);
  }

  /**
   * A workspace property every step of a plan keeps holds after the run,
   * whether it completed or failed.
   */
  lemma {:induction false} ExecuteKeeps(plan: seq<Step>, ws: Workspace, env: Env, inv: Workspace -> bool)
    requires inv(ws)
    requires forall i, s :: 0 <= i < |plan| && inv(s) && Perform(plan[i].action, s, env).Ok?
                            ==> inv(Perform(plan[i].action, s, env).value)
    ensures inv(Execute(plan, ws, env).state)
    decreases |plan|
  {
    if plan != [] {
      forall i, s | 0 <= i < |plan[1..]| && inv(s) && Perform(plan[1..][i].action, s, env).Ok?
        ensures inv(Perform(plan[1..][i].action, s, env).value)
      {
        assert plan[1..][i] == plan[i + 1];
      }
      match Perform(plan[0].action, ws, env)
      case Ok(next) => ExecuteKeeps(plan[1..], next, env, inv);
      case Err(e) =>
        if plan[0].Try? {
          ExecuteKeeps(plan[1..], ws, env, inv);
        }
    }
  }

  /** Only the manifest writer puts a `Manifest.json` where there was none. */
  lemma PerformKeepsManifestAbsent(a: Action, ws: Workspace, env: Env, p: HostPath)
    requires !a.WriteManifest? && ManifestAt(ws, p).None?
    ensures Perform(a, ws, env).Ok? ==> ManifestAt(Perform(a, ws, env).value, p).None?
  {
  }

  /** Only the bundler and the removal of `./lib` change `./lib`. */
  lemma PerformKeepsLib(a: Action, ws: Workspace, env: Env)
    requires !a.RunBundler? && !a.RemoveLibDir?
    ensures Perform(a, ws, env).Ok? ==> Perform(a, ws, env).value.lib == ws.lib
  {
  }

  /** Only the removals take a production directory away, and nothing else replaces it. */
  lemma PerformKeepsProduction(a: Action, ws: Workspace, env: Env, p: HostPath)
    requires !a.RemoveProdDir? && !a.RemoveHostLinkIfPresent?
    requires p in ws.host && ws.host[p].Production?
    ensures Perform(a, ws, env).Ok? ==> p in Perform(a, ws, env).value.host && Perform(a, ws, env).value.host[p].Production?
  {
  }

  /** The actions that write or remove a config file. */
  predicate TouchesConfigs(a: Action) {
    a.EnsureLocalConfig? || a.EnsureProjectConfig? || a.SaveProjectConfig? || a.RemoveLocalConfig?
  }

  /** Every other action leaves both config files as they were. */
  lemma PerformKeepsConfigs(a: Action, ws: Workspace, env: Env)
    requires !TouchesConfigs(a)
    ensures Perform(a, ws, env).Ok? ==>
              Perform(a, ws, env).value.local == ws.local && Perform(a, ws, env).value.project == ws.project
  {
  }

  /** A plan without a manifest writer leaves an absent manifest absent, whatever the outcome. */
  lemma ExecuteKeepsManifestAbsent(plan: seq<Step>, ws: Workspace, env: Env, p: HostPath)
    requires forall i :: 0 <= i < |plan| ==> !plan[i].action.WriteManifest?
    requires ManifestAt(ws, p).None?
    ensures ManifestAt(Execute(plan, ws, env).state, p).None?
  {
    var inv := (s: Workspace) => ManifestAt(s, p).None?;
    forall i, s | 0 <= i < |plan| && inv(s) && Perform(plan[i].action, s, env).Ok?
      ensures inv(Perform(plan[i].action, s, env).value)
    {
      PerformKeepsManifestAbsent(plan[i].action, s, env, p);
    }
    ExecuteKeeps(plan, ws, env, inv);
  }

  /** A plan that neither bundles nor removes `./lib` leaves `./lib` as it was, whatever the outcome. */
  lemma ExecuteKeepsLib(plan: seq<Step>, ws: Workspace, env: Env)
    requires forall i :: 0 <= i < |plan| ==> !plan[i].action.RunBundler? && !plan[i].action.RemoveLibDir?
    ensures Execute(plan, ws, env).state.lib == ws.lib
  {
    var inv := (s: Workspace) => s.lib == ws.lib;
    forall i, s | 0 <= i < |plan| && inv(s) && Perform(plan[i].action, s, env).Ok?
      ensures inv(Perform(plan[i].action, s, env).value)
    {
      PerformKeepsLib(plan[i].action, s, env);
    }
    ExecuteKeeps(plan, ws, env, inv);
  }

  /** The actions that read or write the project config. */
  predicate TouchesProject(a: Action) {
    a.EnsureProjectConfig? || a.SaveProjectConfig?
  }

  /** A run's outcome with the stored project config replaced by `q`. */
  function RelabelProject(r: Run, q: Option<ProjectConfig>): Run {
    match r
    case Completed(s) => Completed(s.(project := q))
    case Failed(e, s) => Failed(e, s.(project := q))
  }

  lemma HostIgnoresProject(a: Action, ws: Workspace, env: Env, q: Option<ProjectConfig>)
    requires a.MakeProdDir? || a.CopyAssetsInto? || a.CopyBuildToScripts? || a.WriteManifest? || a.CopyLibToScripts? || a.EnsureHostLink? || a.RemoveHostLinkIfPresent? || a.RemoveProdDir?
    ensures Perform(a, ws.(project := q), env) ==
              match Perform(a, ws, env)
              case Ok(next) => Ok(next.(project := q))
              case Err(e) => Err(e)
  {
  }

  lemma TreeIgnoresProject(a: Action, ws: Workspace, env: Env, q: Option<ProjectConfig>)
    requires a.MakeBuildDir? || a.RunTranspiler? || a.CopySources? || a.InstallDependencies? || a.RemoveBuildDir? || a.RemoveBuildIfPresent?
    ensures Perform(a, ws.(project := q), env) ==
              match Perform(a, ws, env)
              case Ok(next) => Ok(next.(project := q))
              case Err(e) => Err(e)
  {
  }

  lemma BundleIgnoresProject(a: Action, ws: Workspace, env: Env, q: Option<ProjectConfig>)
    requires a.ScanTemplates? || a.WriteRollupConfig? || a.RunBundler? || a.RemoveLibDir? || a.RemoveRollupConfig?
    ensures Perform(a, ws.(project := q), env) ==
              match Perform(a, ws, env)
              case Ok(next) => Ok(next.(project := q))
              case Err(e) => Err(e)
  {
    assert TemplatesOf(ws.(project := q)) == TemplatesOf(ws);
  }

  lemma RestIgnoresProject(a: Action, ws: Workspace, env: Env, q: Option<ProjectConfig>)
    requires a.EnsureDevStage? || a.LinkAsset? || a.RemoveDevIfPresent? || a.RemoveLocalConfig? || a.EnsureLocalConfig? || a.MakeAssetDir?
    ensures Perform(a, ws.(project := q), env) ==
              match Perform(a, ws, env)
              case Ok(next) => Ok(next.(project := q))
              case Err(e) => Err(e)
  {
  }

  /** Every other action neither reads nor writes the project config. */
  lemma PerformIgnoresProject(a: Action, ws: Workspace, env: Env, q: Option<ProjectConfig>)
    requires !TouchesProject(a)
    ensures Perform(a, ws.(project := q), env) ==
              match Perform(a, ws, env)
              case Ok(next) => Ok(next.(project := q))
              case Err(e) => Err(e)
  {
    if a.MakeProdDir? || a.CopyAssetsInto? || a.CopyBuildToScripts? || a.WriteManifest? || a.CopyLibToScripts? || a.EnsureHostLink? || a.RemoveHostLinkIfPresent? || a.RemoveProdDir? {
      HostIgnoresProject(a, ws, env, q);
    } else if a.MakeBuildDir? || a.RunTranspiler? || a.CopySources? || a.InstallDependencies? || a.RemoveBuildDir? || a.RemoveBuildIfPresent? {
      TreeIgnoresProject(a, ws, env, q);
    } else if a.ScanTemplates? || a.WriteRollupConfig? || a.RunBundler? || a.RemoveLibDir? || a.RemoveRollupConfig? {
      BundleIgnoresProject(a, ws, env, q);
    } else {
      RestIgnoresProject(a, ws, env, q);
    }
  }

  /** A plan whose actions leave the project config alone runs the same whatever that config holds. */
  lemma {:induction false} ExecuteIgnoresProject(plan: seq<Step>, ws: Workspace, env: Env, q: Option<ProjectConfig>)
    requires forall i :: 0 <= i < |plan| ==> !TouchesProject(plan[i].action)
    ensures Execute(plan, ws.(project := q), env) == RelabelProject(Execute(plan, ws, env), q)
    decreases |plan|
  {
    if plan != [] {
      PerformIgnoresProject(plan[0].action, ws, env, q);
      assert forall i :: 0 <= i < |plan[1..]| ==> plan[1..][i] == plan[i + 1];
      match Perform(plan[0].action, ws, env)
      case Ok(next) =>
        ExecuteIgnoresProject(plan[1..], next, env, q);
        assert next.(project := q) == next.(project := q);
      case Err(e) =>
        if plan[0].Try? {
          ExecuteIgnoresProject(plan[1..], ws, env, q);
        }
    }
  }

  /** An action a plan of this tool may contain: junctions are only ever named after asset categories. */
  predicate Admissible(a: Action) {
    a.LinkAsset? ==> a.category in AssetDirSet
  }

  predicate AdmissiblePlan(plan: seq<Step>) {
    forall i :: 0 <= i < |plan| ==> Admissible(plan[i].action)
  }

  /** The actions that write under `./dev`. */
  predicate TouchesDev(a: Action) {
    || a.EnsureDevStage? || a.LinkAsset? || a.RemoveDevIfPresent?
    || (a.RunTranspiler? && a.into.DevScripts?)
    || (a.CopySources? && a.into.DevScripts?)
    || (a.InstallDependencies? && a.into.DevScripts?)
  }

  /** Every other action leaves `./dev` as it was. */
  lemma PerformKeepsDev(a: Action, ws: Workspace, env: Env)
    requires !TouchesDev(a)
    ensures Perform(a, ws, env).Ok? ==>
              Perform(a, ws, env).value.devRoot == ws.devRoot && Perform(a, ws, env).value.devStages == ws.devStages
  {
  }

  lemma DevActionPreservesWf(a: Action, ws: Workspace, env: Env)
    requires Wf(ws) && Admissible(a) && TouchesDev(a)
    ensures Perform(a, ws, env).Ok? ==> Wf(Perform(a, ws, env).value)
  {
  }

  lemma AdmissibleAppend(p: seq<Step>, q: seq<Step>)
    requires AdmissiblePlan(p) && AdmissiblePlan(q)
    ensures AdmissiblePlan(p + q)
  {
    forall i | 0 <= i < |p + q| ensures Admissible((p + q)[i].action) {
      if i >= |p| { assert (p + q)[i] == q[i - |p|]; }
    }
  }

  lemma PerformPreservesWf(a: Action, ws: Workspace, env: Env)
    requires Wf(ws) && Admissible(a)
    ensures Perform(a, ws, env).Ok? ==> Wf(Perform(a, ws, env).value)
  {
    if TouchesDev(a) {
      DevActionPreservesWf(a, ws, env);
    } else {
      PerformKeepsDev(a, ws, env);
    }
  }

  /** Every run, completed or failed, leaves a well-formed workspace well-formed. */
  lemma {:induction false} ExecutePreservesWf(plan: seq<Step>, ws: Workspace, env: Env)
    requires Wf(ws) && AdmissiblePlan(plan)
    ensures Wf(Execute(plan, ws, env).state)
    decreases |plan|
  {
    if plan != [] {
      PerformPreservesWf(plan[0].action, ws, env);
      assert AdmissiblePlan(plan[1..]) by {
        forall i | 0 <= i < |plan[1..]| ensures Admissible(plan[1..][i].action) {
          assert plan[1..][i] == plan[i + 1];
        }
      }
      match Perform(plan[0].action, ws, env)
      case Ok(next) => ExecutePreservesWf(plan[1..], next, env);
      case Err(e) =>
        if plan[0].Try? {
          ExecutePreservesWf(plan[1..], ws, env);
        }
    }
  }

  /** A plan that writes no config leaves both as they were. */
  lemma ExecuteKeepsConfigs(plan: seq<Step>, ws: Workspace, env: Env)
    requires forall i :: 0 <= i < |plan| ==> !TouchesConfigs(plan[i].action)
    ensures Execute(plan, ws, env).state.local == ws.local
    ensures Execute(plan, ws, env).state.project == ws.project
  {
    var inv := (s: Workspace) => s.local == ws.local && s.project == ws.project;
    forall i, s | 0 <= i < |plan| && inv(s) && Perform(plan[i].action, s, env).Ok?
      ensures inv(Perform(plan[i].action, s, env).value)
    {
      PerformKeepsConfigs(plan[i].action, s, env);
    }
    ExecuteKeeps(plan, ws, env, inv);
  }

  /** A plan that removes nothing from the host keeps a production directory in place. */
  lemma ExecuteKeepsProduction(plan: seq<Step>, ws: Workspace, env: Env, p: HostPath)
    requires forall i :: 0 <= i < |plan| ==> !plan[i].action.RemoveProdDir? && !plan[i].action.RemoveHostLinkIfPresent?
    requires p in ws.host && ws.host[p].Production?
    ensures p in Execute(plan, ws, env).state.host && Execute(plan, ws, env).state.host[p].Production?
  {
    var inv := (s: Workspace) => p in s.host && s.host[p].Production?;
    forall i, s | 0 <= i < |plan| && inv(s) && Perform(plan[i].action, s, env).Ok?
      ensures inv(Perform(plan[i].action, s, env).value)
    {
      PerformKeepsProduction(plan[i].action, s, env, p);
    }
    ExecuteKeeps(plan, ws, env, inv);
  }

  /** A completed prefix that begins with a required step ran that step successfully first. */
  lemma PastFirstStep(plan: seq<Step>, k: nat, ws: Workspace, env: Env)
    requires 0 < k <= |plan| && plan[0].Must?
    requires Execute(plan[..k], ws, env).Completed?
    ensures Perform(plan[0].action, ws, env).Ok?
    ensures Execute(plan[..k], ws, env) == Execute(plan[1..k], Perform(plan[0].action, ws, env).value, env)
  {
    assert plan[..k][0] == plan[0];
    assert plan[..k][1..] == plan[1..k];
  }

  /** A plan that starts with a required step: that step, then the rest on its result. */
  lemma MustThen(a: Action, rest: seq<Step>, ws: Workspace, env: Env)
    ensures Perform(a, ws, env).Ok? ==> Execute([Must(a)] + rest, ws, env) == Execute(rest, Perform(a, ws, env).value, env)
    ensures Perform(a, ws, env).Err? ==> Execute([Must(a)] + rest, ws, env) == Failed(Perform(a, ws, env).error, ws)
  {
    assert ([Must(a)] + rest)[1..] == rest;
  }

  /** A tolerated step followed by `rest`: its failure is skipped over. */
  lemma TryThen(a: Action, rest: seq<Step>, ws: Workspace, env: Env)
    ensures Perform(a, ws, env).Ok? ==> Execute([Try(a)] + rest, ws, env) == Execute(rest, Perform(a, ws, env).value, env)
    ensures Perform(a, ws, env).Err? ==> Execute([Try(a)] + rest, ws, env) == Execute(rest, ws, env)
  {
    assert ([Try(a)] + rest)[1..] == rest;
  }
}
