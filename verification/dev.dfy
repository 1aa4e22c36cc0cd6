/**
 * `runDev`: the development stage `./dev/<slug>_dev`, its asset junctions,
 * the host link `<ttpg>/<slug>_dev`, and a refresh of its `Scripts`.
 */
module Dev {
  import opened Wrappers
  import opened Workspace
  import opened Common
  import opened Bundling
  import opened Pipeline

  /** One junction step per category, in order, none of them guarded. */
  function LinkAll(slug: string, cats: seq<string>): (plan: seq<Step>)
    ensures |plan| == |cats|
    ensures forall i :: 0 <= i < |cats| ==> plan[i] == Must(LinkAsset(slug, cats[i]))
  {
    if cats == [] then [] else [Must(LinkAsset(slug, cats[0]))] + LinkAll(slug, cats[1..])
  }

  /** The transpile-or-copy stage of dev: it looks at the template only. */
  function DevScriptsStage(p: ProjectConfig): (a: Action)
    ensures a == RunTranspiler(DevScripts(p.slug)) || a == CopySources(DevScripts(p.slug))
    ensures a.RunTranspiler? <==> p.template == Some("typescript")
  {
    if DevTranspiles(p) then RunTranspiler(DevScripts(p.slug)) else CopySources(DevScripts(p.slug))
  }

  /** Host link, scripts, dependencies. */
  function DevTail(p: ProjectConfig, local: LocalConfig): seq<Step> {
    [Must(EnsureHostLink(DevLinkPath(local, p), p.slug))] + DevScriptSteps(p)
  }

  /** Refresh of the stage's Scripts: transpile or copy, then dependencies. */
  function DevScriptSteps(p: ProjectConfig): seq<Step> {
    [Must(DevScriptsStage(p))] + [Must(InstallDependencies(DevScripts(p.slug)))]
  }

  /** The dev stages in order; every failure ends the run. */
  function DevPlan(p: ProjectConfig, local: LocalConfig): seq<Step> {
    [Must(EnsureDevStage(p.slug))] + LinkAll(p.slug, AssetDirs) + DevTail(p, local)
  }

  /** `runDev`. */
  function RunDev(ws: Workspace, env: Env): (r: Run)
    ensures ws.local.None? ==> r == Failed(NotSetUp, ws)
    ensures ws.local.Some? && ws.project.None? ==> r == Failed(ConfigMissing, ws)
  {
    match Prepare(ws)
    case Err(e) => Failed(e, ws)
    case Ok(c) => Execute(DevPlan(c.project, c.local), ws, env)
  }

  // ------------------------------------------------------------------ junctions

  /** The dev stage `slug` with the junctions `js` added. */
  function WithJunctions(ws: Workspace, slug: string, js: set<string>): Workspace
    requires slug in ws.devStages
  {
    var stage := ws.devStages[slug];
    ws.(devStages := ws.devStages[slug := stage.(junctions := stage.junctions + js)])
  }

  /**
   * When the junctions for `cats` can all be made: the stage exists, the
   * categories are distinct, none is linked yet, and no link call fails.
   */
  predicate CanLinkAll(ws: Workspace, slug: string, cats: seq<string>, env: Env) {
    || cats == []
    || (&& slug in ws.devStages
        && Distinct(cats)
        && forall i :: 0 <= i < |cats| ==> cats[i] !in ws.devStages[slug].junctions && AssetLink(cats[i]) !in env.faults)
  }

  /**
   * The junction stage completes exactly when every junction can be made,
   * and then adds exactly those junctions; otherwise it fails at the
   * junction of one of the categories.
   */
  lemma {:induction false} LinkAllSpec(slug: string, cats: seq<string>, ws: Workspace, env: Env)
    ensures Execute(LinkAll(slug, cats), ws, env).Completed? <==> CanLinkAll(ws, slug, cats, env)
    ensures cats != [] && CanLinkAll(ws, slug, cats, env) ==>
              Execute(LinkAll(slug, cats), ws, env).state == WithJunctions(ws, slug, set c | c in cats)
    ensures Execute(LinkAll(slug, cats), ws, env).Failed? ==>
              var e := Execute(LinkAll(slug, cats), ws, env).error;
              e.StageFailed? && e.stage.AssetLink? && e.stage.category in cats
    decreases |cats|
  {
    if cats != [] {
      var c := cats[0];
      MustThen(LinkAsset(slug, c), LinkAll(slug, cats[1..]), ws, env);
      if slug in ws.devStages && c !in ws.devStages[slug].junctions && AssetLink(c) !in env.faults {
        var ws1 := WithJunctions(ws, slug, {c});
        assert Perform(LinkAsset(slug, c), ws, env) == Ok(ws1);
        LinkAllSpec(slug, cats[1..], ws1, env);
        LinkAllStep(slug, cats, ws, env);
      }
    }
  }

  /** The inductive step of `LinkAllSpec`: the first junction is made, and the rest behave as stated. */
  lemma LinkAllStep(slug: string, cats: seq<string>, ws: Workspace, env: Env)
    requires cats != [] && slug in ws.devStages
    requires cats[0] !in ws.devStages[slug].junctions && AssetLink(cats[0]) !in env.faults
    requires var ws1 := WithJunctions(ws, slug, {cats[0]});
             var r := Execute(LinkAll(slug, cats[1..]), ws1, env);
             && (r.Completed? <==> CanLinkAll(ws1, slug, cats[1..], env))
             && (cats[1..] != [] && CanLinkAll(ws1, slug, cats[1..], env) ==> r.state == WithJunctions(ws1, slug, set c | c in cats[1..]))
    ensures var ws1 := WithJunctions(ws, slug, {cats[0]});
            var r := Execute(LinkAll(slug, cats[1..]), ws1, env);
            && (r.Completed? <==> CanLinkAll(ws, slug, cats, env))
            && (CanLinkAll(ws, slug, cats, env) ==> r.state == WithJunctions(ws, slug, set c | c in cats))
  {
    var c := cats[0];
    var rest := cats[1..];
    CanLinkAllStep(ws, slug, cats, env);
    if rest != [] && CanLinkAll(WithJunctions(ws, slug, {c}), slug, rest, env) {
      WithJunctionsTwice(ws, slug, {c}, set x | x in rest);
      assert (set x | x in cats) == {c} + (set x | x in rest);
    } else if rest == [] {
      assert (set x | x in cats) == {c};
    }
  }

  /** Adding junctions in two goes adds their union. */
  lemma WithJunctionsTwice(ws: Workspace, slug: string, a: set<string>, b: set<string>)
    requires slug in ws.devStages
    ensures WithJunctions(WithJunctions(ws, slug, a), slug, b) == WithJunctions(ws, slug, a + b)
  {
    var stage := ws.devStages[slug];
    var st1 := stage.(junctions := stage.junctions + a);
    assert st1.junctions + b == stage.junctions + (a + b);
    assert ws.devStages[slug := st1][slug := st1.(junctions := st1.junctions + b)]
        == ws.devStages[slug := stage.(junctions := stage.junctions + (a + b))];
  }

  /** After the first junction is made, the rest can be made exactly when all of them could. */
  lemma CanLinkAllStep(ws: Workspace, slug: string, cats: seq<string>, env: Env)
    requires cats != [] && slug in ws.devStages
    requires cats[0] !in ws.devStages[slug].junctions && AssetLink(cats[0]) !in env.faults
    ensures CanLinkAll(ws, slug, cats, env) <==> CanLinkAll(WithJunctions(ws, slug, {cats[0]}), slug, cats[1..], env)
  {
    var rest := cats[1..];
    var ws1 := WithJunctions(ws, slug, {cats[0]});
    assert ws1.devStages[slug].junctions == ws.devStages[slug].junctions + {cats[0]};
    if CanLinkAll(ws1, slug, rest, env) {
      forall i, j | 0 <= i < j < |cats| ensures cats[i] != cats[j] {
        assert cats[j] == rest[j - 1];
        if i > 0 { assert cats[i] == rest[i - 1]; }
      }
      forall i | 0 <= i < |cats|
        ensures cats[i] !in ws.devStages[slug].junctions && AssetLink(cats[i]) !in env.faults
      {
        if i > 0 { assert cats[i] == rest[i - 1]; }
      }
    }
    if CanLinkAll(ws, slug, cats, env) && rest != [] {
      forall i | 0 <= i < |rest|
        ensures rest[i] !in ws1.devStages[slug].junctions && AssetLink(rest[i]) !in env.faults
      {
        assert rest[i] == cats[i + 1];
      }
      forall i, j | 0 <= i < j < |rest| ensures rest[i] != rest[j] {
        assert rest[i] == cats[i + 1] && rest[j] == cats[j + 1];
      }
    }
  }

  /** A stage that already holds the first junction refuses it again: the stage is unguarded. */
  lemma LinkAllRefusesExisting(slug: string, cats: seq<string>, ws: Workspace, env: Env)
    requires cats != [] && slug in ws.devStages && cats[0] in ws.devStages[slug].junctions
    ensures Execute(LinkAll(slug, cats), ws, env) == Failed(StageFailed(AssetLink(cats[0]), AlreadyPresent), ws)
  {
  }

  // ------------------------------------------------------------------ whole run

  /** The dev stage `slug` after the directory step: created empty when it was absent. */
  function StageReady(ws: Workspace, slug: string): (r: Workspace)
    ensures slug in r.devStages
  {
    if slug in ws.devStages then ws
    else ws.(devRoot := true, devStages := ws.devStages[slug := DevStage({}, EmptyTree)])
  }

  /** What dev's transpile-or-copy stage leaves in the Scripts tree. */
  function DevSource(p: ProjectConfig): ScriptSource {
    if DevTranspiles(p) then Transpiled else CopiedSource
  }

  /** The first two stages, completed: the stage exists and holds every category's junction. */
  lemma DevHeadCompleted(slug: string, ws: Workspace, env: Env)
    requires Execute([Must(EnsureDevStage(slug))] + LinkAll(slug, AssetDirs), ws, env).Completed?
    ensures var ready := StageReady(ws, slug);
            && AssetDirSet !! ready.devStages[slug].junctions
            && Execute([Must(EnsureDevStage(slug))] + LinkAll(slug, AssetDirs), ws, env).state
               == WithJunctions(ready, slug, AssetDirSet)
  {
    var head := [Must(EnsureDevStage(slug))];
    var links := LinkAll(slug, AssetDirs);
    ExecuteAppend(head, links, ws, env);
    var ready := StageReady(ws, slug);
    assert Execute(head, ws, env) == Completed(ready);
    LinkAllSpec(slug, AssetDirs, ready, env);
    AllCategoriesLinked(ready, slug, env);
  }

  /** Linking every category links exactly the category set, none of which was linked before. */
  lemma AllCategoriesLinked(ws: Workspace, slug: string, env: Env)
    requires CanLinkAll(ws, slug, AssetDirs, env)
    ensures slug in ws.devStages && AssetDirSet !! ws.devStages[slug].junctions
    ensures (set c | c in AssetDirs) == AssetDirSet
  {
    AssetDirsShape();
    assert AssetDirs[0] in AssetDirs;
    forall d | d in AssetDirSet ensures d !in ws.devStages[slug].junctions {
      var i :| 0 <= i < |AssetDirs| && AssetDirs[i] == d;
    }
  }

  /** The last three stages, completed: the host link resolves and the Scripts tree is refreshed. */
  lemma DevTailCompleted(p: ProjectConfig, local: LocalConfig, ws: Workspace, env: Env)
    requires p.slug in ws.devStages
    requires Execute(DevTail(p, local), ws, env).Completed?
    ensures var out := Execute(DevTail(p, local), ws, env).state;
            var link := DevLinkPath(local, p);
            var stage := ws.devStages[p.slug];
            && (HostPathExists(ws, link) || link !in ws.host)
            && out.host == (if HostPathExists(ws, link) then ws.host else ws.host[link := DevJunction(p.slug)])
            && out.devRoot
            && out.devStages == ws.devStages[p.slug := stage.(scripts := ScriptTree(stage.scripts.sources + {DevSource(p)}, true))]
            && out.(host := ws.host, devRoot := ws.devRoot, devStages := ws.devStages) == ws
  {
    var link := DevLinkPath(local, p);
    MustThen(EnsureHostLink(link, p.slug), DevScriptSteps(p), ws, env);
    var s1 := if HostPathExists(ws, link) then ws else ws.(host := ws.host[link := DevJunction(p.slug)]);
    DevScriptsCompleted(p, s1, env);
  }

  /** Completed Scripts refresh: the stage's tree gains the staged sources and its dependencies. */
  lemma DevScriptsCompleted(p: ProjectConfig, ws: Workspace, env: Env)
    requires p.slug in ws.devStages
    requires Execute(DevScriptSteps(p), ws, env).Completed?
    ensures var stage := ws.devStages[p.slug];
            Execute(DevScriptSteps(p), ws, env).state ==
              ws.(devRoot := true, devStages := ws.devStages[p.slug := stage.(scripts := ScriptTree(stage.scripts.sources + {DevSource(p)}, true))])
  {
    var a := DevScriptsStage(p);
    var r2 := [Must(InstallDependencies(DevScripts(p.slug)))];
    var stage := ws.devStages[p.slug];
    var s2 := ws.(devRoot := true, devStages := ws.devStages[p.slug := stage.(scripts := stage.scripts.(sources := stage.scripts.sources + {DevSource(p)}))]);
    MustThen(a, r2, ws, env);
    var s3 := ws.(devRoot := true, devStages := ws.devStages[p.slug := stage.(scripts := ScriptTree(stage.scripts.sources + {DevSource(p)}, true))]);
    assert s2.devStages[p.slug := s2.devStages[p.slug].(scripts := s2.devStages[p.slug].scripts.(deps := true))] == s3.devStages;
    ExecuteOne(r2[0], s2, env);
  }

  /**
   * A completed dev run: `./dev/<slug>_dev` exists and holds exactly one new
   * junction per category (none of which it held before), its Scripts hold
   * the transpiled or copied sources with their dependencies, and the host
   * link `<ttpg>/<slug>_dev` resolves. Nothing outside `./dev` and that link
   * changes; no manifest is written anywhere.
   */
  lemma DevCompleted(ws: Workspace, env: Env)
    requires RunDev(ws, env).Completed?
    ensures ws.local.Some? && ws.project.Some?
    ensures var p := ws.project.value;
            var link := DevLinkPath(ws.local.value, p);
            var out := RunDev(ws, env).state;
            && out.devRoot
            && p.slug in out.devStages
            && (p.slug in ws.devStages ==> AssetDirSet !! ws.devStages[p.slug].junctions)
            && out.devStages[p.slug].junctions
               == (if p.slug in ws.devStages then ws.devStages[p.slug].junctions else {}) + AssetDirSet
            && out.devStages[p.slug].scripts.deps
            && DevSource(p) in out.devStages[p.slug].scripts.sources
            && HostPathExists(out, link)
            && out.host - {link} == ws.host - {link}
            && out.devStages - {p.slug} == ws.devStages - {p.slug}
            && out.(devRoot := ws.devRoot, devStages := ws.devStages, host := ws.host) == ws
  {
    var p := ws.project.value;
    var local := ws.local.value;
    var slug := p.slug;
    var head := [Must(EnsureDevStage(slug))] + LinkAll(slug, AssetDirs);
    assert DevPlan(p, local) == head + DevTail(p, local);
    ExecuteAppend(head, DevTail(p, local), ws, env);
    DevHeadCompleted(slug, ws, env);
    TailAfterHead(ws, p, local, Execute(head, ws, env).state, env);
  }

  /** The dev tail, run on the linked stage, in terms of the workspace before the run. */
  lemma TailAfterHead(ws: Workspace, p: ProjectConfig, local: LocalConfig, linked: Workspace, env: Env)
    requires linked == WithJunctions(StageReady(ws, p.slug), p.slug, AssetDirSet)
    requires Execute(DevTail(p, local), linked, env).Completed?
    ensures var link := DevLinkPath(local, p);
            var out := Execute(DevTail(p, local), linked, env).state;
            && out.devRoot
            && p.slug in out.devStages
            && out.devStages[p.slug].junctions
               == (if p.slug in ws.devStages then ws.devStages[p.slug].junctions else {}) + AssetDirSet
            && out.devStages[p.slug].scripts.deps
            && DevSource(p) in out.devStages[p.slug].scripts.sources
            && HostPathExists(out, link)
            && out.host - {link} == ws.host - {link}
            && out.devStages - {p.slug} == ws.devStages - {p.slug}
            && out.(devRoot := ws.devRoot, devStages := ws.devStages, host := ws.host) == ws
  {
    DevTailCompleted(p, local, linked, env);
  }

  /**
   * The junctions carry no existence guard: run dev again after a
   * completed run, in any environment, and it fails at the first category's
   * junction, with nothing changed.
   */
  lemma DevRerunFails(ws: Workspace, env: Env, again: Env)
    requires RunDev(ws, env).Completed?
    ensures var out := RunDev(ws, env).state;
            RunDev(out, again) == Failed(StageFailed(AssetLink("Fonts"), AlreadyPresent), out)
  {
    DevCompleted(ws, env);
    var out := RunDev(ws, env).state;
    var p := ws.project.value;
    var local := ws.local.value;
    var slug := p.slug;
    var plan := DevPlan(p, local);
    assert RunDev(out, again) == Execute(plan, out, again);
    assert plan == [Must(EnsureDevStage(slug))] + (LinkAll(slug, AssetDirs) + DevTail(p, local));
    assert plan[1..] == LinkAll(slug, AssetDirs) + DevTail(p, local);
    assert Execute(plan, out, again) == Execute(plan[1..], out, again);
    ExecuteAppend(LinkAll(slug, AssetDirs), DevTail(p, local), out, again);
    LinkAllRefusesExisting(slug, AssetDirs, out, again);
  }

  // ------------------------------------------------------------------ the `transpile` field

  /** Dev's plan does not depend on the `transpile` field, while build's choice does. */
  lemma DevPlanIgnoresTranspile(p: ProjectConfig, local: LocalConfig, b: bool)
    ensures DevPlan(p.(transpile := b), local) == DevPlan(p, local)
    ensures p.template == Some("javascript") ==> (BuildTranspiles(p.(transpile := b)) <==> b)
  {
  }

  /**
   * Running dev with a project whose `transpile` field differs gives the
   * same outcome, up to that field of the stored project config.
   */
  lemma DevIgnoresTranspile(ws: Workspace, env: Env, b: bool)
    requires ws.project.Some?
    ensures var q := Some(ws.project.value.(transpile := b));
            RunDev(ws.(project := q), env) == RelabelProject(RunDev(ws, env), q)
  {
    var q := Some(ws.project.value.(transpile := b));
    if ws.local.Some? {
      var p := ws.project.value;
      DevPlanIgnoresTranspile(p, ws.local.value, b);
      ExecuteIgnoresProject(DevPlan(p, ws.local.value), ws, env, q);
    }
  }

  /** Dev's stages are the ones a workspace invariant admits. */
  lemma DevPlanAdmissible(p: ProjectConfig, local: LocalConfig)
    ensures AdmissiblePlan(DevPlan(p, local))
  {
    var links := LinkAll(p.slug, AssetDirs);
    assert AdmissiblePlan(links) by {
      AssetDirsShape();
      forall i | 0 <= i < |links| ensures Admissible(links[i].action) {
        assert AssetDirs[i] in AssetDirs;
      }
    }
    AdmissibleAppend([Must(EnsureDevStage(p.slug))], links);
    AdmissibleAppend([Must(EnsureDevStage(p.slug))] + links, DevTail(p, local));
  }

  /** A dev run, completed or not, keeps the workspace well-formed. */
  lemma DevPreservesWf(ws: Workspace, env: Env)
    requires Wf(ws)
    ensures Wf(RunDev(ws, env).state)
  {
    if ws.local.Some? && ws.project.Some? {
      DevPlanAdmissible(ws.project.value, ws.local.value);
      ExecutePreservesWf(DevPlan(ws.project.value, ws.local.value), ws, env);
    }
  }

  /**
   * The order of the dev stages: the stage directory, the junctions (one
   * per category in category order, as `LinkStages` lists them), the host
   * link, transpile or copy, dependencies. No stage is tolerated.
   */
  lemma DevStageOrder(p: ProjectConfig, local: LocalConfig)
    ensures StagesOf(DevPlan(p, local)) ==
              [DevStageDir] + StagesOf(LinkAll(p.slug, AssetDirs)) +
              [HostLink, if p.template == Some("typescript") then Transpiler else SourceCopy, Dependencies]
    ensures forall i :: 0 <= i < |DevPlan(p, local)| ==> DevPlan(p, local)[i].Must?
  {
    var head := [Must(EnsureDevStage(p.slug))];
    var links := LinkAll(p.slug, AssetDirs);
    var tail := DevTail(p, local);
    var plan := DevPlan(p, local);
    assert plan == head + links + tail;
    assert StagesOf(head) == [DevStageDir];
    StagesOfAppend(head, links);
    StagesOfAppend(head + links, tail);
    DevTailStages(p, local);
    forall i | 0 <= i < |plan| ensures plan[i].Must? {
      if 1 <= i < |links| + 1 {
        assert plan[i] == links[i - 1];
      } else if |links| + 1 <= i {
        assert plan[i] == tail[i - |links| - 1];
      }
    }
  }

  /** The junction stages, one per category in category order, all required. */
  lemma LinkStages(slug: string)
    ensures StagesOf(LinkAll(slug, AssetDirs)) ==
              [AssetLink("Fonts"), AssetLink("Models"), AssetLink("Sounds"), AssetLink("States"),
               AssetLink("Templates"), AssetLink("Textures"), AssetLink("Thumbnails")]
    ensures forall i :: 0 <= i < |LinkAll(slug, AssetDirs)| ==> LinkAll(slug, AssetDirs)[i].Must?
  {
  }

  /** The stages after the junctions: host link, transpile or copy, dependencies, all required. */
  lemma DevTailStages(p: ProjectConfig, local: LocalConfig)
    ensures StagesOf(DevTail(p, local)) == [HostLink, if p.template == Some("typescript") then Transpiler else SourceCopy, Dependencies]
    ensures forall i :: 0 <= i < |DevTail(p, local)| ==> DevTail(p, local)[i].Must?
  {
  }
}
