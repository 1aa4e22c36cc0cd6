/**
 * The decision logic of `common.ts`: the setup assertion, config loading,
 * the value choices of the two config prompts, the platform path
 * suggestion, the subprocess exit-code rule and the manifest derivation.
 */
module Common {
  import opened Wrappers
  import opened Text
  import opened Workspace

  /** Both config documents, as `loadConfig` returns them. */
  datatype Config = Config(local: LocalConfig, project: ProjectConfig)

  /** `assertSetup`: fails exactly when the local config is missing; the project config is not looked at. */
  function AssertSetup(ws: Workspace): (r: Option<Error>)
    ensures r.Some? <==> ws.local.None?
    ensures r.Some? ==> r.value == NotSetUp
  {
    if ws.local.None? then Some(NotSetUp) else None
  }

  /** `loadConfig`: reads both documents; either one missing makes the read throw. */
  function LoadConfig(ws: Workspace): (r: Result<Config, Error>)
    ensures r.Ok? <==> ws.local.Some? && ws.project.Some?
    ensures r.Ok? ==> Some(r.value.local) == ws.local && Some(r.value.project) == ws.project
    ensures r.Err? ==> r.error == ConfigMissing
  {
    if ws.local.Some? && ws.project.Some? then Ok(Config(ws.local.value, ws.project.value))
    else Err(ConfigMissing)
  }

  /** `assertSetup` followed by `loadConfig`, the opening of every staging command. */
  function Prepare(ws: Workspace): (r: Result<Config, Error>)
    ensures ws.local.None? ==> r == Err(NotSetUp)
    ensures ws.local.Some? ==> r == LoadConfig(ws)
  {
    match AssertSetup(ws)
    case Some(e) => Err(e)
    case None => LoadConfig(ws)
  }

  // ---------------------------------------------------------------- local config

  const DarwinPackageSuffix := "/Library/Application Support/Epic/TabletopPlayground/Package"
  const WindowsPackageDir := "C:\\Program Files (x86)\\Steam\\steamapps\\common\\TabletopPlayground\\TabletopPlayground\\PersistentDownloadDir"

  /** `process.env.HOME` as string concatenation sees it. */
  function HomeText(home: Option<string>): string {
    home.GetOr("undefined")
  }

  /** `getSuggestedTTPGPath`: a HOME-based path on darwin, the Steam path on win32, null elsewhere. */
  function SuggestedTtpgPath(platform: string, home: Option<string>): (r: Option<string>)
    ensures platform == "darwin" ==> r == Some(HomeText(home) + DarwinPackageSuffix)
    ensures platform == "win32" ==> r == Some(WindowsPackageDir)
    ensures r.Some? <==> platform == "darwin" || platform == "win32"
    ensures r.Some? ==> r.value != ""
  {
    if platform == "darwin" then Some(HomeText(home) + DarwinPackageSuffix)
    else if platform == "win32" then Some(WindowsPackageDir)
    else None
  }

  /** What `ensureLocalConfig` reads from its environment and its one prompt. */
  datatype LocalAnswers = LocalAnswers(platform: string, home: Option<string>, ttpgPath: string)

  /**
   * The path `ensureLocalConfig` writes: the trimmed answer when it is not
   * empty, else the suggestion; `None` when neither is a non-empty string.
   */
  function ChooseTtpgPath(answer: string, suggestion: Option<string>): (r: Option<string>)
    ensures Trim(answer) != "" ==> r == Some(Trim(answer))
    ensures Trim(answer) == "" ==> r == (if suggestion == Some("") then None else suggestion)
    ensures r.Some? ==> r.value != ""
  {
    var typed := Trim(answer);
    var chosen := if typed != "" then typed else suggestion.GetOr("");
    if chosen != "" then Some(chosen) else None
  }

  /** The local config `ensureLocalConfig` creates, or why it refuses. */
  function NewLocalConfig(a: LocalAnswers): (r: Result<LocalConfig, Error>)
    ensures r.Err? <==> Trim(a.ttpgPath) == "" && a.platform != "darwin" && a.platform != "win32"
    ensures r.Err? ==> r.error == TtpgPathRequired
    ensures r.Ok? && Trim(a.ttpgPath) != "" ==> r.value.ttpgPath == Trim(a.ttpgPath)
    ensures r.Ok? && Trim(a.ttpgPath) == "" ==> Some(r.value.ttpgPath) == SuggestedTtpgPath(a.platform, a.home)
  {
    match ChooseTtpgPath(a.ttpgPath, SuggestedTtpgPath(a.platform, a.home))
    case Some(p) => Ok(LocalConfig(p))
    case None => Err(TtpgPathRequired)
  }

  // -------------------------------------------------------------- project config

  /** The answers to the project prompts, and the two uuids behind the suggested GUIDs. */
  datatype ProjectAnswers = ProjectAnswers(
    title: string,
    slug: string,
    prdGuid: string,
    devGuid: string,
    language: string,
    prdUuid: string,
    devUuid: string)

  /** A GUID prompt: the trimmed answer when it is not empty, else the suggestion. */
  function ChooseGuid(answer: string, uuid: string): string {
    if Trim(answer) != "" then Trim(answer) else NormaliseGuid(uuid)
  }

  /** The language prompt: the normalised answer when it names a known template, else "typescript". */
  function ChooseTemplate(answer: string): (t: string)
    ensures t == "typescript" || t == "javascript"
    ensures t == "javascript" <==> Normalise(answer) == "javascript"
  {
    var typed := Normalise(answer);
    if typed == "typescript" || typed == "javascript" then typed else "typescript"
  }

  /** The slug as `ensureProjectConfig` writes it: the raw answer, never the bracketed suggestion. */
  function SlugAsWritten(a: ProjectAnswers): string {
    a.slug
  }

  /**
   * The slug the prompt evidently means to record: the trimmed answer, or
   * the bracketed suggestion when the answer is empty, the rule its sibling
   * prompts follow.
   */
  function ChooseSlug(a: ProjectAnswers): (slug: string)
    ensures Trim(a.slug) != "" ==> slug == Trim(a.slug)
    ensures Trim(a.slug) == "" ==> slug == SuggestSlug(a.title)
    ensures a.title != "" ==> slug != ""
  {
    if Trim(a.slug) != "" then Trim(a.slug) else SuggestSlug(a.title)
  }

  /** The document `ensureProjectConfig` writes, with the slug it was given. */
  function ProjectConfigWith(a: ProjectAnswers, slug: string): (r: Result<ProjectConfig, Error>)
    ensures r.Err? <==> a.title == ""
    ensures r.Err? ==> r.error == ProjectTitleRequired
    ensures r.Ok? ==> r.value.name == a.title && r.value.slug == slug
    ensures r.Ok? ==> r.value.template == Some(ChooseTemplate(a.language))
    ensures r.Ok? ==> r.value.guid == Guids(ChooseGuid(a.devGuid, a.devUuid), ChooseGuid(a.prdGuid, a.prdUuid))
    ensures r.Ok? ==> r.value.version.None? && r.value.modId.None? && !r.value.transpile
  {
    if a.title == "" then Err(ProjectTitleRequired)
    else Ok(ProjectConfig(
      name := a.title,
      slug := slug,
      version := None,
      template := Some(ChooseTemplate(a.language)),
      transpile := false,
      guid := Guids(ChooseGuid(a.devGuid, a.devUuid), ChooseGuid(a.prdGuid, a.prdUuid)),
      modId := None))
  }

  /** `ensureProjectConfig` as written: the slug is the raw answer. */
  function NewProjectConfigAsWritten(a: ProjectAnswers): (r: Result<ProjectConfig, Error>)
    ensures r.Err? <==> a.title == ""
    ensures r.Ok? ==> r.value.slug == a.slug
  {
    ProjectConfigWith(a, SlugAsWritten(a))
  }

  /** An empty slug answer is recorded as the empty slug, although the prompt offers "my-mod". */
  lemma EmptySlugAnswerIsRecorded()
    ensures var a := ProjectAnswers("My Mod", "", "", "", "", "0-a", "1-b");
            && NewProjectConfigAsWritten(a).Ok?
            && NewProjectConfigAsWritten(a).value.slug == ""
            && SuggestSlug(a.title) == "my-mod"
  {
    var a := ProjectAnswers("My Mod", "", "", "", "", "0-a", "1-b");
    assert a.title != "";
    MyModSlug();
  }

  /** The suggestion for the title "My Mod". */
  lemma MyModSlug()
    ensures SuggestSlug("My Mod") == "my-mod"
  {
    var s := SuggestSlug("My Mod");
    assert |s| == 6;
    assert s[0] == 'm' && s[1] == 'y' && s[2] == '-' && s[3] == 'm' && s[4] == 'o' && s[5] == 'd';
  }

  /** The project config the model's setup creates: as written, except for the slug fallback. */
  function NewProjectConfig(a: ProjectAnswers): (r: Result<ProjectConfig, Error>)
    ensures r.Err? <==> a.title == ""
    ensures r.Ok? ==> r.value.slug != ""
    ensures r.Ok? ==> r.value == NewProjectConfigAsWritten(a).value.(slug := ChooseSlug(a))
  {
    ProjectConfigWith(a, ChooseSlug(a))
  }

  // ------------------------------------------------------------------ subprocesses

  /** How a spawned tool ended: its close code (null when killed by a signal), or an 'error' event. */
  datatype SpawnOutcome = Exited(code: Option<int>) | NotSpawned

  /**
   * The rule of `spawnBuilder` and `spawnTranspiler`: reject on a close code
   * above zero or on a spawn error, resolve otherwise.
   */
  function ToolRejection(o: SpawnOutcome): (r: Option<Cause>)
    ensures r.None? <==> o.Exited? && (o.code.None? || o.code.value <= 0)
    ensures o.NotSpawned? ==> r == Some(SpawnFailure)
    ensures r.Some? && o.Exited? ==> r == Some(ExitStatus(o.code.value))
  {
    match o
    case NotSpawned => Some(SpawnFailure)
    case Exited(code) =>
      if code.Some? && code.value > 0 then Some(ExitStatus(code.value)) else None
  }

  // ---------------------------------------------------------------------- staging

  /** The build and libpack rule: transpile when `transpile` is set or the template is "typescript". */
  predicate BuildTranspiles(p: ProjectConfig) {
    p.transpile || p.template == Some("typescript")
  }

  /** The dev rule: transpile when the template is "typescript"; `transpile` is not read. */
  predicate DevTranspiles(p: ProjectConfig) {
    p.template == Some("typescript")
  }

  /**
   * The two rules agree except when `transpile` is set on a project whose
   * template is not "typescript": build transpiles it, dev copies it.
   */
  lemma TranspileRulesDiffer(p: ProjectConfig)
    ensures DevTranspiles(p) ==> BuildTranspiles(p)
    ensures BuildTranspiles(p) && !DevTranspiles(p) <==> p.transpile && p.template != Some("typescript")
  {
  }

  /** The production manifest: the project's name and version, its production GUID, and its ModID once known. */
  function DeriveManifest(p: ProjectConfig): (m: Manifest)
    ensures m.name == p.name && m.version == p.version
    ensures m.guid == p.guid.prd
    ensures m.modId == p.modId
  {
    Manifest(p.name, p.version, p.guid.prd, p.modId)
  }

  /**
   * The ModID purge and postpublish capture from a manifest: `Number(ModID)`
   * when the key is there.
   */
  function CapturedModId(m: Manifest): Option<int> {
    m.modId
  }

  /**
   * A manifest the build derived hands back the project's ModID: capturing
   * from it after publishing nothing leaves `modId` as it was.
   */
  lemma ManifestModIdRoundTrip(p: ProjectConfig)
    ensures CapturedModId(DeriveManifest(p)).Some? ==> p.(modId := CapturedModId(DeriveManifest(p))) == p
    ensures CapturedModId(DeriveManifest(p)).None? <==> p.modId.None?
  {
  }
}
