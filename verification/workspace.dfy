/**
 * The abstract state of a project workspace and of the host's package
 * directory: which config documents, staging directories and links exist,
 * and the little of their contents the commands read back.
 *
 * Paths are tokens. Host-side paths are pairs (ttpg path, entry name), so
 * `<ttpg>/<slug>` and `<ttpg>/<slug>_dev` stay distinct entries, and
 * re-pointing the local config at another host directory leaves entries
 * under the old one alone.
 */
module Workspace {
  import opened Wrappers

  /** The asset categories, in the order `ASSET_DIRS` lists them. */
  const AssetDirs: seq<string> := ["Fonts", "Models", "Sounds", "States", "Templates", "Textures", "Thumbnails"]

  /** The same categories as a set. */
  const AssetDirSet: set<string> := {"Fonts", "Models", "Sounds", "States", "Templates", "Textures", "Thumbnails"}

  /** The category list has seven distinct entries, which are exactly the category set. */
  lemma AssetDirsShape()
    ensures |AssetDirs| == 7
    ensures forall i, j :: 0 <= i < j < |AssetDirs| ==> AssetDirs[i] != AssetDirs[j]
    ensures forall d :: d in AssetDirs <==> d in AssetDirSet
  {
  }

  /** `ttpgcfg.local.json`. */
  datatype LocalConfig = LocalConfig(ttpgPath: string)

  datatype Guids = Guids(dev: string, prd: string)

  /**
   * `ttpgcfg.project.json` as the commands read it. `version` and `modId`
   * may be absent (setup writes neither); `template` is the language answer
   * setup records; `transpile` is the newer boolean, false when absent.
   */
  datatype ProjectConfig = ProjectConfig(
    name: string,
    slug: string,
    version: Option<string>,
    template: Option<string>,
    transpile: bool,
    guid: Guids,
    modId: Option<int>)

  /** `Manifest.json`; an absent `ModID` is a missing key in the document. */
  datatype Manifest = Manifest(name: string, version: Option<string>, guid: string, modId: Option<int>)

  /** Where the files of a Scripts tree came from. */
  datatype ScriptSource = Transpiled | CopiedSource

  /** A scripts tree (`./build` or a dev stage's `Scripts`): what was written into it, and whether `node_modules` was installed. */
  datatype ScriptTree = ScriptTree(sources: set<ScriptSource>, deps: bool)

  const EmptyTree := ScriptTree({}, false)

  /** What was copied into a production `Scripts` directory. */
  datatype ScriptsCopy = FromBuild(tree: ScriptTree) | FromBundle(files: set<string>)

  /** A production directory `<ttpg>/<slug>`. */
  datatype ProdDir = ProdDir(assets: bool, scripts: Option<ScriptsCopy>, manifest: Option<Manifest>)

  const EmptyProd := ProdDir(false, None, None)

  /** An entry of the host's package directory. */
  datatype HostEntry =
    | Production(dir: ProdDir)
    /** A junction to `./dev/<slug>_dev` of this workspace. */
    | DevJunction(slug: string)

  datatype HostPath = HostPath(root: string, name: string)

  /** A JSON document under `./assets/Templates`. */
  datatype TemplateDoc = TemplateDoc(scriptName: Option<string>) | Malformed

  /** `./assets`: its category directories and its template documents. */
  datatype Assets = Assets(categories: set<string>, templates: seq<TemplateDoc>)

  /** `./dev/<slug>_dev`: its asset junctions and its Scripts tree. */
  datatype DevStage = DevStage(junctions: set<string>, scripts: ScriptTree)

  datatype RollupEntry = RollupEntry(name: string, path: string)

  /** The parts of `./rollup.config.js` that vary: the input map and the externals. */
  datatype RollupConfig = RollupConfig(input: seq<RollupEntry>, external: seq<string>)

  datatype Workspace = Workspace(
    local: Option<LocalConfig>,
    project: Option<ProjectConfig>,
    assets: Option<Assets>,
    build: Option<ScriptTree>,
    lib: Option<set<string>>,
    rollup: Option<RollupConfig>,
    devRoot: bool,
    devStages: map<string, DevStage>,
    host: map<HostPath, HostEntry>)

  /**
   * `pathExists` on a host path: `fs.access` follows links, so a junction
   * whose dev stage is gone does not exist for it.
   */
  predicate HostPathExists(ws: Workspace, p: HostPath) {
    p in ws.host && (ws.host[p].Production? || ws.host[p].slug in ws.devStages)
  }

  /** The manifest readable at a host path, if any. Dev stages carry none. */
  function ManifestAt(ws: Workspace, p: HostPath): Option<Manifest> {
    if p in ws.host && ws.host[p].Production? then ws.host[p].dir.manifest else None
  }

  /** `<ttpg>/<slug>`. */
  function ProdPath(local: LocalConfig, project: ProjectConfig): HostPath {
    HostPath(local.ttpgPath, project.slug)
  }

  /** `<ttpg>/<slug>_dev`. */
  function DevLinkPath(local: LocalConfig, project: ProjectConfig): HostPath {
    HostPath(local.ttpgPath, project.slug + "_dev")
  }

  /**
   * Shape every reachable workspace has: dev stages live under `./dev`, and
   * a dev stage only holds junctions named after asset categories.
   */
  predicate Wf(ws: Workspace) {
    && (ws.devStages != map[] ==> ws.devRoot)
    && (forall s :: s in ws.devStages ==> ws.devStages[s].junctions <= AssetDirSet)
  }

  /** The stage a failure is reported against, as the tool's log lines name it. */
  datatype Stage =
    | ProductionDir | AssetCopy | BuildDir | Transpiler | SourceCopy | Dependencies
    | ScriptsCopy | BuildRemoval | ManifestWrite
    | TemplateScan | RollupConfigWrite | Bundler | LibRemoval | RollupConfigRemoval
    | DevStageDir | AssetLink(category: string) | HostLink
    | HostLinkRemoval | DevRemoval | LocalConfigRemoval
    | LocalConfigWrite | ProjectConfigWrite | AssetDir(category: string)
    | ProductionRemoval

  /** Why a stage failed. */
  datatype Cause =
    | Faulted                 // the filesystem call reported an error
    | AlreadyPresent          // EEXIST
    | NotPresent              // ENOENT
    | Unparseable             // JSON.parse threw
    | ExitStatus(code: int)   // a tool exited with a positive code
    | SpawnFailure            // a tool could not be started

  datatype Error =
    | NotSetUp                 // assertSetup: "Not set up"
    | ConfigMissing            // loadConfig could not read a config document
    | ProductionBuildExists    // "Production build already exists"
    | ManifestUnreadable       // purge/postpublish could not read Manifest.json
    | TtpgPathRequired         // "ttpg_path is required"
    | ProjectTitleRequired     // "Project Title is Required"
    | StageFailed(stage: Stage, cause: Cause)
    | UnrecognizedCommand(name: string)
    | NotCallable(name: string)   // a handler-table property that is not a function
}
