/**
 * `index.ts`: the command name from the arguments, the handler table, the
 * welcome banner before the handler and the completion line after it.
 */
module Cli {
  import opened Wrappers
  import opened Workspace
  import opened Common
  import opened Pipeline
  import opened Build
  import opened Dev
  import opened Purge
  import opened Clean
  import opened Reset
  import opened Setup

  /** The handler table: seven commands. `libpack` and `postpublish` are not among them. */
  datatype Command = CleanCmd | ResetCmd | DevCmd | StatusCmd | SetupCmd | BuildCmd | PurgeCmd

  /** The table key of each command. */
  function NameOf(c: Command): string {
    match c
    case CleanCmd => "clean"
    case ResetCmd => "reset"
    case DevCmd => "dev"
    case StatusCmd => "status"
    case SetupCmd => "setup"
    case BuildCmd => "build"
    case PurgeCmd => "purge"
  }

  /** The handler a name selects, when it is one of the table's own keys. */
  function Parse(name: string): Option<Command> {
    if name == "clean" then Some(CleanCmd)
    else if name == "reset" then Some(ResetCmd)
    else if name == "dev" then Some(DevCmd)
    else if name == "status" then Some(StatusCmd)
    else if name == "setup" then Some(SetupCmd)
    else if name == "build" then Some(BuildCmd)
    else if name == "purge" then Some(PurgeCmd)
    else None
  }

  /** Parsing and naming are inverse: exactly the seven keys parse, each to its own command. */
  lemma ParseNameOf(c: Command, name: string)
    ensures Parse(NameOf(c)) == Some(c)
    ensures Parse(name) == Some(c) ==> NameOf(c) == name
  {
  }

  /** The command name: the first argument after the script, `setup` when there is none. */
  function CommandName(args: seq<string>): string {
    if args == [] then "setup" else args[0]
  }

  /** `-y` anywhere among the arguments answers purge's two questions. */
  predicate Forced(args: seq<string>) {
    "-y" in args
  }

  /** The answers the prompts would receive, fixed in advance. */
  datatype Inputs = Inputs(local: LocalAnswers, project: ProjectAnswers, purge: PurgeAnswers)

  /** `runStatus`: the loaded configs are printed, nothing is written. */
  function RunStatus(ws: Workspace): (r: Run)
    ensures r.state == ws
    ensures r.Completed? <==> ws.local.Some? && ws.project.Some?
    ensures r.Failed? ==> r.error == (if ws.local.None? then NotSetUp else ConfigMissing)
  {
    match Prepare(ws)
    case Err(e) => Failed(e, ws)
    case Ok(_) => Completed(ws)
  }

  /** The handler of a command. */
  function Dispatch(c: Command, ws: Workspace, env: Env, force: bool, in_: Inputs): Run {
    match c
    case CleanCmd => RunClean(ws, env)
    case ResetCmd => RunReset(ws, env, in_.local)
    case DevCmd => RunDev(ws, env)
    case StatusCmd => RunStatus(ws)
    case SetupCmd => RunSetup(ws, env, in_.local, in_.project)
    case BuildCmd => RunBuild(ws, env)
    case PurgeCmd => RunPurge(ws, env, force, in_.purge)
  }

  /**
   * What one invocation leaves: the workspace, whether the completion line
   * was logged, and the error logged after "Something went wrong". The
   * welcome banner is logged first in every case.
   */
  datatype Report = Report(state: Workspace, completed: bool, error: Option<Error>)

  /** The report of a handler's run. */
  function ReportOf(r: Run): Report {
    match r
    case Completed(s) => Report(s, true, None)
    case Failed(e, s) => Report(s, false, Some(e))
  }

  /** One invocation of the tool, with the handler looked up among the table's own keys. */
  function Invoke(args: seq<string>, ws: Workspace, env: Env, in_: Inputs): Report {
    match Parse(CommandName(args))
    case None => Report(ws, false, Some(UnrecognizedCommand(CommandName(args))))
    case Some(c) => ReportOf(Dispatch(c, ws, env, Forced(args), in_))
  }

  /**
   * The completion line is logged exactly when no error is; an unknown
   * name changes nothing, and a known one runs its handler.
   */
  lemma InvokeReports(args: seq<string>, ws: Workspace, env: Env, in_: Inputs)
    ensures var r := Invoke(args, ws, env, in_);
            && (r.completed <==> r.error.None?)
            && (Parse(CommandName(args)).None? ==> r == Report(ws, false, Some(UnrecognizedCommand(CommandName(args)))))
            && (forall c :: Parse(CommandName(args)) == Some(c) ==> r == ReportOf(Dispatch(c, ws, env, Forced(args), in_)))
  {
  }

  /** Without arguments the tool runs setup. */
  lemma NoArgumentsRunsSetup(ws: Workspace, env: Env, in_: Inputs)
    ensures Invoke([], ws, env, in_) == ReportOf(Dispatch(SetupCmd, ws, env, false, in_))
  {
    assert Parse(CommandName([])) == Some(SetupCmd);
  }

  /** `libpack` and `postpublish` have handlers but no table key: invoking them is an error that changes nothing. */
  lemma UnlistedCommandsAreRejected(ws: Workspace, env: Env, in_: Inputs, rest: seq<string>)
    ensures Invoke(["libpack"] + rest, ws, env, in_) == Report(ws, false, Some(UnrecognizedCommand("libpack")))
    ensures Invoke(["postpublish"] + rest, ws, env, in_) == Report(ws, false, Some(UnrecognizedCommand("postpublish")))
  {
    assert (["libpack"] + rest)[0] == "libpack";
    assert (["postpublish"] + rest)[0] == "postpublish";
  }

  // ---------------------------------------------------------------- the lookup as written

  /**
   * The names the `in` operator also finds on the handler table, through
   * its prototype: the properties of `Object.prototype`.
   */
  const InheritedNames: set<string> := {
    "constructor", "toString", "toLocaleString", "valueOf", "hasOwnProperty", "isPrototypeOf",
    "propertyIsEnumerable", "__proto__", "__defineGetter__", "__defineSetter__",
    "__lookupGetter__", "__lookupSetter__" }

  /**
   * Those of them that throw when called as a method of the table with no
   * argument: `__proto__` is not a function, and the two definers demand a
   * function argument. The others return a value.
   */
  const ThrowingInherited: set<string> := {"__proto__", "__defineGetter__", "__defineSetter__"}

  /** What `cmd in HANDLERS` finds. */
  datatype Lookup = Own(command: Command) | Inherited(name: string) | Missing

  /** The lookup as written: own keys first, then the prototype chain. */
  function LookupAsWritten(name: string): (l: Lookup)
    ensures l.Own? <==> Parse(name).Some?
    ensures l.Missing? <==> Parse(name).None? && name !in InheritedNames
  {
    match Parse(name)
    case Some(c) => Own(c)
    case None => if name in InheritedNames then Inherited(name) else Missing
  }

  /** One invocation as written: an inherited property is called like a handler. */
  function InvokeAsWritten(args: seq<string>, ws: Workspace, env: Env, in_: Inputs): Report {
    match LookupAsWritten(CommandName(args))
    case Own(c) => ReportOf(Dispatch(c, ws, env, Forced(args), in_))
    case Inherited(n) => if n in ThrowingInherited then Report(ws, false, Some(NotCallable(n))) else Report(ws, true, None)
    case Missing => Report(ws, false, Some(UnrecognizedCommand(CommandName(args))))
  }

  /** Outside the inherited names, the lookup as written and the corrected one agree. */
  lemma InvokeAgreesOffPrototype(args: seq<string>, ws: Workspace, env: Env, in_: Inputs)
    requires CommandName(args) !in InheritedNames
    ensures InvokeAsWritten(args, ws, env, in_) == Invoke(args, ws, env, in_)
  {
  }

  /**
   * `toString` is not a command, yet as written it passes the lookup, runs
   * `Object.prototype.toString` and logs the completion line; the
   * corrected lookup rejects it as unrecognized.
   */
  lemma ToStringIsAcceptedAsWritten(ws: Workspace, env: Env, in_: Inputs)
    ensures InvokeAsWritten(["toString"], ws, env, in_) == Report(ws, true, None)
    ensures Invoke(["toString"], ws, env, in_) == Report(ws, false, Some(UnrecognizedCommand("toString")))
  {
    assert CommandName(["toString"]) == "toString";
    assert "toString" in InheritedNames && "toString" !in ThrowingInherited;
  }
}
