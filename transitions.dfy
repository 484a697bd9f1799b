/** The Capacitor runner's state machine as pure functions on a value holding the
    runner's fields and the ordered record of every call it made into its
    collaborators (the configuration preparer, the operating system, the IDE
    opener, the file system, the logger's fatal sink).

    The runner keeps one process slot `pid` (0 means idle), the last application
    URL it ran with, the target platform and the context's debug flag. Each
    operation of the runner is one function here; the class in module Capacitor
    is proved to change its fields exactly as these functions say. */
module Transitions {
  import opened Wrappers
  import NativeBuild

  /** One call the runner makes, in the order it makes them. */
  datatype Event =
    | Prepare                                 // the configuration preparer rewrites the native project
    | Spawn(pid: int, args: seq<string>)      // the Capacitor CLI is started with these arguments
    | Kill(pid: int)                          // a termination signal is sent to the process
    | Exited(pid: int)                        // the operating system reports that this child exited
    | Reset                                   // the configuration preparer restores the native project
    | PrepareSSL(https: bool)                 // the preparer sets up (or not) the HTTPS dev server
    | OpenIde(foreground: bool)               // the native IDE is opened
    | Exit(code: int)                         // the host process exits with this code
    | Fatal                                   // the logger's fatal sink: "Capacitor CLI has failed"
    | RemoveDir(path: string)                 // a directory tree is deleted
    | Xcode(args: seq<string>)                // `xcrun` runs to completion with these arguments
    | Gradle(bin: string, args: seq<string>)  // the Gradle wrapper runs to completion
    | CopyDir(source: string, dest: string)   // a directory tree is copied
    | FixCleartext                            // the Android manifest is fixed to allow cleartext

  /** The runner's fields, and the calls it has made so far. */
  datatype RunnerState = RunnerState(
    pid: int,
    url: Option<string>,
    target: string,
    debug: bool,
    trace: seq<Event>)

  /** The command-line options of a `build`: `--skip-pkg`, `--ide`, the extra
      positional arguments, and the configured packaged output directory. */
  datatype BuildRequest = BuildRequest(
    skipPkg: bool,
    ide: bool,
    extraArgs: seq<string>,
    packagedDistDir: string)

  /** How a run-to-completion of a native build tool ended. On failure the
      caller's failure callback has run; whether control then comes back to the
      caller is up to the spawning helper, so it is part of the outcome. */
  datatype SyncOutcome = Succeeded | Failed(resumes: bool)

  // ---------------------------------------------------------------------------
  // Reading the trace

  /** The pid the trace leaves in the slot: the pid of the last spawn that no
      reset has followed, or 0. */
  ghost function Slot(t: seq<Event>): int
    decreases |t|
  {
    if t == [] then 0
    else match t[|t| - 1]
      case Spawn(p, _) => p
      case Reset => 0
      case _ => Slot(t[..|t| - 1])
  }

  /** The children the trace shows as started and not yet reported as exited.
      A signal does not end a child by itself: it runs until its exit is
      reported. */
  ghost function Running(t: seq<Event>): set<int>
    decreases |t|
  {
    if t == [] then {}
    else match t[|t| - 1]
      case Spawn(p, _) => Running(t[..|t| - 1]) + {p}
      case Exited(p) => Running(t[..|t| - 1]) - {p}
      case _ => Running(t[..|t| - 1])
  }

  /** The runner invariant: the slot holds the pid the trace leaves in it, and
      that pid, unless 0, is a child still running. */
  ghost predicate Valid(s: RunnerState)
  {
    s.pid == Slot(s.trace) && (s.pid != 0 ==> s.pid in Running(s.trace))
  }

  /** A pid the operating system may hand out for a new child: positive, and not
      the pid of a child that is still running (pids of children that exited may
      be handed out again). */
  ghost predicate Fresh(s: RunnerState, p: int)
  {
    p > 0 && p !in Running(s.trace)
  }

  /** Calls that neither start a child, nor reset the configuration, nor report
      an exit. */
  ghost predicate Quiet(u: seq<Event>)
  {
    forall i :: 0 <= i < |u| ==> !u[i].Spawn? && !u[i].Reset? && !u[i].Exited?
  }

  // ---------------------------------------------------------------------------
  // The operations

  /** A new runner: idle, no URL yet, no target before `init`. */
  function Initial(): (r: RunnerState)
    ensures r.pid == 0 && r.url == None && r.trace == []
  {
    RunnerState(0, None, "", false, [])
  }

  function Record(s: RunnerState, events: seq<Event>): RunnerState
  {
    s.(trace := s.trace + events)
  }

  /** `init(ctx)`: store the target and the debug flag; on Android, fix the
      manifest's cleartext setting. */
  function Init(s: RunnerState, targetName: string, debug: bool): (r: RunnerState)
    ensures r.target == targetName && r.debug == debug
    ensures r.pid == s.pid && r.url == s.url
    ensures r.trace == s.trace + (if targetName == "android" then [FixCleartext] else [])
  {
    var configured := s.(target := targetName, debug := debug);
    if targetName == "android" then Record(configured, [FixCleartext]) else configured
  }

  /** `__cleanup`: empty the slot and restore the configuration. */
  function Cleanup(s: RunnerState): (r: RunnerState)
    ensures r.pid == 0 && Slot(r.trace) == 0
    ensures r.trace == s.trace + [Reset]
    ensures r.url == s.url && r.target == s.target && r.debug == s.debug
  {
    Record(s, [Reset]).(pid := 0)
  }

  /** `stop`: nothing when idle; otherwise kill the process, then clean up. */
  function Stop(s: RunnerState): (r: RunnerState)
    ensures s.pid == 0 ==> r == s
    ensures s.pid != 0 ==> r.pid == 0 && r.trace == s.trace + [Kill(s.pid), Reset]
    ensures r.url == s.url && r.target == s.target && r.debug == s.debug
  {
    if s.pid == 0 then s
    else Cleanup(Record(s, [Kill(s.pid)]))
  }

  /** The start half of `__runCapacitorCommand`: spawn the Capacitor CLI and
      keep the pid the operating system gave it. */
  function StartCommand(s: RunnerState, args: seq<string>, spawned: int): (r: RunnerState)
    ensures r.pid == spawned && Slot(r.trace) == spawned
    ensures r.trace == s.trace + [Spawn(spawned, args)]
    ensures r.url == s.url && r.target == s.target && r.debug == s.debug
  {
    Record(s, [Spawn(spawned, args)]).(pid := spawned)
  }

  /** The exit callback of `__runCapacitorCommand`, called when the child
      `child` exits: clean up first, whatever the code and whichever child it is;
      then a non-zero code is fatal. */
  function OnExit(s: RunnerState, child: int, code: int): (r: RunnerState)
    ensures r.pid == 0 && Slot(r.trace) == 0
    ensures r.trace == s.trace + [Exited(child), Reset] + (if code != 0 then [Fatal] else [])
    ensures r.url == s.url && r.target == s.target && r.debug == s.debug
  {
    var cleaned := Cleanup(Record(s, [Exited(child)]));
    if code != 0 then Record(cleaned, [Fatal]) else cleaned
  }

  /** `run`, up to the wait for the Capacitor CLI: a repeated URL does nothing;
      otherwise the child in the slot is stopped first, then the URL is remembered, the
      project prepared and the CLI spawned. */
  function Run(s: RunnerState, url: string, args: seq<string>, spawned: int): (r: RunnerState)
    ensures s.url == Some(url) ==> r == s
    ensures s.url != Some(url) ==>
      && r.url == Some(url) && r.pid == spawned
      && r.target == s.target && r.debug == s.debug
      && r.trace == s.trace + (if s.pid != 0 then [Kill(s.pid), Reset] else []) + [Prepare, Spawn(spawned, args)]
  {
    if s.url == Some(url) then s
    else
      var stopped := if s.pid != 0 then Stop(s) else s;
      StartCommand(Record(stopped.(url := Some(url)), [Prepare]), args, spawned)
  }

  /** The rest of `run`, once the Capacitor CLI has exited with success: set up
      SSL as the dev server's type says, then open the IDE in the foreground. */
  function RunResumed(s: RunnerState, serverType: string): (r: RunnerState)
    ensures r.trace == s.trace + [PrepareSSL(serverType == "https"), OpenIde(true)]
    ensures r.pid == s.pid && r.url == s.url && r.target == s.target && r.debug == s.debug
  {
    Record(s, [PrepareSSL(serverType == "https"), OpenIde(true)])
  }

  /** `build`, up to the wait for the Capacitor CLI: prepare and spawn. Unlike
      `run` it neither looks at the URL nor stops the child in the slot. */
  function Build(s: RunnerState, args: seq<string>, spawned: int): (r: RunnerState)
    ensures r.pid == spawned
    ensures r.trace == s.trace + [Prepare, Spawn(spawned, args)]
    ensures r.url == s.url && r.target == s.target && r.debug == s.debug
  {
    StartCommand(Record(s, [Prepare]), args, spawned)
  }

  /** `__buildIos`: run `xcrun` with the Xcode arguments; on failure the failure
      callback deletes the packaged output directory. */
  function IosCalls(debug: bool, req: BuildRequest, outcome: SyncOutcome): (u: seq<Event>)
    ensures |u| >= 1 && u[0] == Xcode(NativeBuild.IosArgs(debug, req.packagedDistDir, req.extraArgs))
    ensures u[1..] == if outcome.Succeeded? then [] else [RemoveDir(req.packagedDistDir)]
  {
    [Xcode(NativeBuild.IosArgs(debug, req.packagedDistDir, req.extraArgs))]
    + (if outcome.Succeeded? then [] else [RemoveDir(req.packagedDistDir)])
  }

  /** `__buildAndroid`: delete the old Gradle outputs, run the Gradle wrapper, and
      copy its outputs to the packaged output directory if control comes back. */
  function AndroidCalls(debug: bool, req: BuildRequest, platform: string, outcome: SyncOutcome): (u: seq<Event>)
    ensures |u| >= 2 && u[0] == RemoveDir(NativeBuild.AndroidOutputs)
    ensures u[1] == Gradle(NativeBuild.GradleBin(platform), NativeBuild.GradleArgs(debug, req.extraArgs))
    ensures u[2..] == if outcome == Failed(false) then [] else [CopyDir(NativeBuild.AndroidOutputs, req.packagedDistDir)]
  {
    [RemoveDir(NativeBuild.AndroidOutputs),
     Gradle(NativeBuild.GradleBin(platform), NativeBuild.GradleArgs(debug, req.extraArgs))]
    + (if outcome == Failed(false) then [] else [CopyDir(NativeBuild.AndroidOutputs, req.packagedDistDir)])
  }

  /** The packaging step of `build`, checked in this order: `--skip-pkg` stops,
      `--ide` opens the IDE and exits with 0, an iOS target runs Xcode and any
      other target runs Gradle. */
  function PackageCalls(target: string, debug: bool, req: BuildRequest, platform: string, outcome: SyncOutcome): (u: seq<Event>)
    ensures req.skipPkg ==> u == []
    ensures !req.skipPkg && req.ide ==> u == [OpenIde(false), Exit(0)]
    ensures !req.skipPkg && !req.ide && target == "ios" ==> u == IosCalls(debug, req, outcome)
    ensures !req.skipPkg && !req.ide && target != "ios" ==> u == AndroidCalls(debug, req, platform, outcome)
  {
    if req.skipPkg then []
    else if req.ide then [OpenIde(false), Exit(0)]
    else if target == "ios" then IosCalls(debug, req, outcome)
    else AndroidCalls(debug, req, platform, outcome)
  }

  /** The calls the rest of `build` makes once the Capacitor CLI has exited with
      success: SSL is always set up without HTTPS, then the packaging step. */
  function BuildCalls(target: string, debug: bool, req: BuildRequest, platform: string, outcome: SyncOutcome): (u: seq<Event>)
    ensures |u| >= 1 && u[0] == PrepareSSL(false)
    ensures u[1..] == PackageCalls(target, debug, req, platform, outcome)
  {
    [PrepareSSL(false)] + PackageCalls(target, debug, req, platform, outcome)
  }

  /** The rest of `build`, once the Capacitor CLI has exited with success. */
  function BuildResumed(s: RunnerState, req: BuildRequest, platform: string, outcome: SyncOutcome): (r: RunnerState)
    ensures r.pid == s.pid && r.url == s.url && r.target == s.target && r.debug == s.debug
    ensures r.trace == s.trace + BuildCalls(s.target, s.debug, req, platform, outcome)
  {
    Record(s, BuildCalls(s.target, s.debug, req, platform, outcome))
  }
}
