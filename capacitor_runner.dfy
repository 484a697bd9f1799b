/** The Capacitor runner object: one process slot, the last URL it ran with, and
    the target and debug flag of the context it was initialised with. Each method
    changes the fields exactly as a function of module Transitions says: `Init`,
    `Cleanup`, `Stop`, `OnExit`, `Run`, `RunResumed`, `Build` and `BuildResumed`
    follow the function of the same name, `RunCapacitorCommand` follows
    `StartCommand`, `OnShutdown` follows `Stop`, `Package` follows
    `PackageCalls`, `BuildIos` follows `IosCalls` and `BuildAndroid` follows
    `AndroidCalls`. `Cleanup`, `RunCapacitorCommand`, `OnExit` and `Build` leave
    any state satisfying the invariant `Transitions.Valid`; the other methods
    that take a valid state keep it; the packaging steps neither need nor
    promise it.

    The wait for the Capacitor CLI splits `run` and `build` in two: the host
    calls `Run` or `Build`, the operating system later reports the child's exit
    through `OnExit`, and when that resolves the host continues with
    `RunResumed` or `BuildResumed`. Pids of spawned children and outcomes of
    native builds come from the operating system and are arguments. */
module Capacitor {
  import opened Wrappers
  import opened Transitions
  import RunnerLemmas
  import NativeBuild

  class CapacitorRunner {
    var pid: int
    var url: Option<string>
    var target: string
    var debug: bool
    /** Every call the runner has made into its collaborators, in order. */
    ghost var trace: seq<Event>

    ghost function State(): RunnerState
      reads this
    {
      RunnerState(pid, url, target, debug, trace)
    }

    ghost predicate Valid()
      reads this
    {
      Transitions.Valid(State())
    }

    /** A new runner is idle and remembers no URL. Its shutdown hook is
        `OnShutdown`. */
    constructor ()
      ensures Valid() && State() == Transitions.Initial()
    {
      pid := 0;
      url := None;
      target := "";
      debug := false;
      trace := [];
    }

    /** `init(ctx)`. */
    method Init(targetName: string, ctxDebug: bool)
      requires Valid()
      modifies this
      ensures Valid() && State() == Transitions.Init(old(State()), targetName, ctxDebug)
    {
      RunnerLemmas.InitKeepsValid(State(), targetName, ctxDebug);
      target := targetName;
      debug := ctxDebug;
      if target == "android" {
        trace := trace + [FixCleartext];
      }
    }

    /** `__cleanup`. */
    method Cleanup()
      modifies this
      ensures Valid() && State() == Transitions.Cleanup(old(State()))
    {
      RunnerLemmas.CleanupKeepsValid(State());
      pid := 0;
      trace := trace + [Reset];
    }

    /** `stop`: a no-op when idle. */
    method Stop()
      requires Valid()
      modifies this
      ensures Valid() && State() == Transitions.Stop(old(State()))
    {
      if pid == 0 {
        return;
      }
      RunnerLemmas.StopKeepsValid(State());
      trace := trace + [Kill(pid)];
      Cleanup();
    }

    /** The host's shutdown hook: it stops the runner. */
    method OnShutdown()
      requires Valid()
      modifies this
      ensures Valid() && State() == Transitions.Stop(old(State()))
    {
      Stop();
    }

    /** The start half of `__runCapacitorCommand`: the CLI is spawned and its pid,
        handed out by the operating system, is kept at once. */
    method RunCapacitorCommand(args: seq<string>, spawned: int)
      modifies this
      ensures Valid() && State() == Transitions.StartCommand(old(State()), args, spawned)
    {
      RunnerLemmas.StartCommandKeepsValid(State(), args, spawned);
      pid := spawned;
      trace := trace + [Spawn(spawned, args)];
    }

    /** The exit callback of `__runCapacitorCommand`, called when the child
        `child` exits. It cleans up whatever the code and whichever child it is,
        then reports a non-zero code as fatal; `resolved` says whether the
        awaiting `run` or `build` goes on. */
    method OnExit(child: int, code: int) returns (resolved: bool)
      modifies this
      ensures Valid() && State() == Transitions.OnExit(old(State()), child, code)
      ensures resolved <==> code == 0
    {
      RunnerLemmas.OnExitKeepsValid(State(), child, code);
      trace := trace + [Exited(child)];
      Cleanup();
      if code != 0 {
        trace := trace + [Fatal];
        return false;
      }
      return true;
    }

    /** `run`, up to the wait for the Capacitor CLI. `started` is false when the
        URL is the one of the last run and nothing was done. */
    method Run(appUrl: string, preparationArgs: seq<string>, spawned: int) returns (started: bool)
      requires Valid()
      modifies this
      ensures Valid() && State() == Transitions.Run(old(State()), appUrl, preparationArgs, spawned)
      ensures started <==> old(url) != Some(appUrl)
    {
      if url == Some(appUrl) {
        return false;
      }
      if pid != 0 {
        RunnerLemmas.StopKeepsValid(State());
        Stop();
      }
      url := Some(appUrl);
      RunnerLemmas.RecordQuietKeepsValid(State(), [Prepare]);
      trace := trace + [Prepare];
      RunCapacitorCommand(preparationArgs, spawned);
      return true;
    }

    /** The rest of `run` once the Capacitor CLI has exited with success. */
    method RunResumed(serverType: string)
      requires Valid()
      modifies this
      ensures Valid() && State() == Transitions.RunResumed(old(State()), serverType)
    {
      RunnerLemmas.RecordQuietKeepsValid(State(), [PrepareSSL(serverType == "https"), OpenIde(true)]);
      trace := trace + [PrepareSSL(serverType == "https"), OpenIde(true)];
    }

    /** `build`, up to the wait for the Capacitor CLI. */
    method Build(preparationArgs: seq<string>, spawned: int)
      modifies this
      ensures Valid() && State() == Transitions.Build(old(State()), preparationArgs, spawned)
    {
      trace := trace + [Prepare];
      RunCapacitorCommand(preparationArgs, spawned);
    }

    /** The rest of `build` once the Capacitor CLI has exited with success. */
    method BuildResumed(req: BuildRequest, platform: string, outcome: SyncOutcome)
      requires Valid()
      modifies this
      ensures Valid() && State() == Transitions.BuildResumed(old(State()), req, platform, outcome)
    {
      RunnerLemmas.BuildResumedKeepsValid(State(), req, platform, outcome);
      RunnerLemmas.BuildResumedInSteps(State(), req, platform, outcome);
      trace := trace + [PrepareSSL(false)];
      Package(req, platform, outcome);
    }

    /** The packaging step at the end of `build`. */
    method Package(req: BuildRequest, platform: string, outcome: SyncOutcome)
      modifies this
      ensures State() == Record(old(State()), PackageCalls(old(target), old(debug), req, platform, outcome))
    {
      if req.skipPkg {
        return;
      }
      if req.ide {
        trace := trace + [OpenIde(false), Exit(0)];
        return;
      }
      if target == "ios" {
        BuildIos(req, outcome);
      } else {
        BuildAndroid(req, platform, outcome);
      }
    }

    /** `__buildIos`. */
    method BuildIos(req: BuildRequest, outcome: SyncOutcome)
      modifies this
      ensures State() == Record(old(State()), IosCalls(debug, req, outcome))
    {
      trace := trace + [Xcode(NativeBuild.IosArgs(debug, req.packagedDistDir, req.extraArgs))];
      if !outcome.Succeeded? {
        trace := trace + [RemoveDir(req.packagedDistDir)];
      }
    }

    /** `__buildAndroid`. */
    method BuildAndroid(req: BuildRequest, platform: string, outcome: SyncOutcome)
      modifies this
      ensures State() == Record(old(State()), AndroidCalls(debug, req, platform, outcome))
    {
      trace := trace + [RemoveDir(NativeBuild.AndroidOutputs)];
      trace := trace + [Gradle(NativeBuild.GradleBin(platform), NativeBuild.GradleArgs(debug, req.extraArgs))];
      if outcome != Failed(false) {
        trace := trace + [CopyDir(NativeBuild.AndroidOutputs, req.packagedDistDir)];
      }
    }
  }
}
