/** What the Capacitor runner's operations guarantee together: the slot invariant
    is kept by every operation and every sequence of them, a new run pre-empts
    the child in the slot before spawning, a repeated run is a no-op, and an exit
    always cleans up first. */
module RunnerLemmas {
  import opened Wrappers
  import opened Transitions

  // ---------------------------------------------------------------------------
  // Appending to the trace

  lemma LastOfAppend(t: seq<Event>, e: Event)
    ensures (t + [e])[..|t|] == t && (t + [e])[|t|] == e
  {
  }

  /** Quiet calls leave the slot and the running children as they were. */
  lemma {:induction false} AppendQuiet(t: seq<Event>, u: seq<Event>)
    requires Quiet(u)
    ensures Slot(t + u) == Slot(t)
    ensures Running(t + u) == Running(t)
    decreases |u|
  {
    if u != [] {
      var front := u[..|u| - 1];
      assert Quiet(front) by {
        forall i | 0 <= i < |front| ensures !front[i].Spawn? && !front[i].Reset? && !front[i].Exited? {
          assert front[i] == u[i];
        }
      }
      AppendQuiet(t, front);
      assert (t + u)[..|t + u| - 1] == t + front;
      assert (t + u)[|t + u| - 1] == u[|u| - 1];
    } else {
      assert t + u == t;
    }
  }

  /** A spawn puts its pid in the slot and among the running children. */
  lemma AppendSpawn(t: seq<Event>, p: int, args: seq<string>)
    ensures Slot(t + [Spawn(p, args)]) == p
    ensures Running(t + [Spawn(p, args)]) == Running(t) + {p}
  {
    LastOfAppend(t, Spawn(p, args));
  }

  /** A reset empties the slot and ends no child. */
  lemma AppendReset(t: seq<Event>)
    ensures Slot(t + [Reset]) == 0
    ensures Running(t + [Reset]) == Running(t)
  {
    LastOfAppend(t, Reset);
  }

  /** A reported exit ends that child and leaves the slot as it was. */
  lemma AppendExited(t: seq<Event>, child: int)
    ensures Slot(t + [Exited(child)]) == Slot(t)
    ensures Running(t + [Exited(child)]) == Running(t) - {child}
  {
    LastOfAppend(t, Exited(child));
  }

  // ---------------------------------------------------------------------------
  // Each operation keeps the invariant

  lemma CleanupKeepsValid(s: RunnerState)
    ensures Valid(Cleanup(s))
    ensures Running(Cleanup(s).trace) == Running(s.trace)
  {
    AppendReset(s.trace);
  }

  lemma StopKeepsValid(s: RunnerState)
    requires Valid(s)
    ensures Valid(Stop(s))
    ensures Running(Stop(s).trace) == Running(s.trace)
  {
    if s.pid != 0 {
      AppendQuiet(s.trace, [Kill(s.pid)]);
      CleanupKeepsValid(Record(s, [Kill(s.pid)]));
    }
  }

  lemma StartCommandKeepsValid(s: RunnerState, args: seq<string>, spawned: int)
    ensures Valid(StartCommand(s, args, spawned))
    ensures Running(StartCommand(s, args, spawned).trace) == Running(s.trace) + {spawned}
  {
    AppendSpawn(s.trace, spawned, args);
  }

  lemma RecordQuietKeepsValid(s: RunnerState, u: seq<Event>)
    requires Valid(s) && Quiet(u)
    ensures Valid(Record(s, u))
    ensures Running(Record(s, u).trace) == Running(s.trace)
  {
    AppendQuiet(s.trace, u);
  }

  lemma InitKeepsValid(s: RunnerState, targetName: string, debug: bool)
    requires Valid(s)
    ensures Valid(Init(s, targetName, debug))
  {
    if targetName == "android" {
      RecordQuietKeepsValid(s.(target := targetName, debug := debug), [FixCleartext]);
    }
  }

  lemma RunKeepsValid(s: RunnerState, url: string, args: seq<string>, spawned: int)
    requires Valid(s)
    ensures Valid(Run(s, url, args, spawned))
  {
    if s.url != Some(url) {
      var stopped := if s.pid != 0 then Stop(s) else s;
      var prepared := Record(stopped.(url := Some(url)), [Prepare]);
      StartCommandKeepsValid(prepared, args, spawned);
    }
  }

  lemma OnExitKeepsValid(s: RunnerState, child: int, code: int)
    ensures Valid(OnExit(s, child, code))
    ensures Running(OnExit(s, child, code).trace) == Running(s.trace) - {child}
  {
    var reported := Record(s, [Exited(child)]);
    AppendExited(s.trace, child);
    AppendReset(reported.trace);
    if code != 0 {
      LastOfAppend(Cleanup(reported).trace, Fatal);
    }
  }

  lemma BuildKeepsValid(s: RunnerState, args: seq<string>, spawned: int)
    ensures Valid(Build(s, args, spawned))
  {
    StartCommandKeepsValid(Record(s, [Prepare]), args, spawned);
  }

  lemma BuildCallsQuiet(target: string, debug: bool, req: BuildRequest, platform: string, outcome: SyncOutcome)
    ensures Quiet(BuildCalls(target, debug, req, platform, outcome))
  {
    var u := BuildCalls(target, debug, req, platform, outcome);
    if !req.skipPkg && !req.ide && target != "ios" {
      var a := AndroidCalls(debug, req, platform, outcome);
      assert a == [a[0], a[1]] + a[2..];
    }
  }

  lemma BuildResumedKeepsValid(s: RunnerState, req: BuildRequest, platform: string, outcome: SyncOutcome)
    requires Valid(s)
    ensures Valid(BuildResumed(s, req, platform, outcome))
  {
    BuildCallsQuiet(s.target, s.debug, req, platform, outcome);
    RecordQuietKeepsValid(s, BuildCalls(s.target, s.debug, req, platform, outcome));
  }

  lemma RecordTwice(s: RunnerState, a: seq<Event>, b: seq<Event>)
    ensures Record(Record(s, a), b) == Record(s, a + b)
  {
    assert s.trace + a + b == s.trace + (a + b);
  }

  /** The rest of `build` is the SSL step followed by the packaging step. */
  lemma BuildResumedInSteps(s: RunnerState, req: BuildRequest, platform: string, outcome: SyncOutcome)
    ensures BuildResumed(s, req, platform, outcome)
         == Record(Record(s, [PrepareSSL(false)]), PackageCalls(s.target, s.debug, req, platform, outcome))
  {
    RecordTwice(s, [PrepareSSL(false)], PackageCalls(s.target, s.debug, req, platform, outcome));
  }

  /** Whether some call of the given list opens the IDE, runs xcrun, runs
      Gradle, copies the Gradle outputs. */
  ghost predicate OpensIde(u: seq<Event>) { exists i :: 0 <= i < |u| && u[i].OpenIde? }
  ghost predicate RunsXcode(u: seq<Event>) { exists i :: 0 <= i < |u| && u[i].Xcode? }
  ghost predicate RunsGradle(u: seq<Event>) { exists i :: 0 <= i < |u| && u[i].Gradle? }
  ghost predicate CopiesOutputs(u: seq<Event>) { exists i :: 0 <= i < |u| && u[i].CopyDir? }

  /** The branch order of `build` after the Capacitor CLI: the IDE is opened
      exactly for `--ide` without `--skip-pkg`; Xcode runs exactly when neither
      option is given and the target is ios; Gradle runs exactly when neither is
      given and the target is anything else; the Gradle outputs are copied only
      on that path, and not when the failed Gradle run does not return. */
  lemma BuildBranchOrder(target: string, debug: bool, req: BuildRequest, platform: string, outcome: SyncOutcome)
    ensures var u := BuildCalls(target, debug, req, platform, outcome);
      && (OpensIde(u) <==> !req.skipPkg && req.ide)
      && (RunsXcode(u) <==> !req.skipPkg && !req.ide && target == "ios")
      && (RunsGradle(u) <==> !req.skipPkg && !req.ide && target != "ios")
      && (CopiesOutputs(u) <==> !req.skipPkg && !req.ide && target != "ios" && outcome != Failed(false))
  {
    var u := BuildCalls(target, debug, req, platform, outcome);
    if req.skipPkg {
    } else if req.ide {
      assert u[1].OpenIde?;
    } else if target == "ios" {
      assert u[1].Xcode?;
    } else {
      assert u[2].Gradle?;
      if outcome != Failed(false) {
        assert u[3].CopyDir?;
      }
    }
  }

  // ---------------------------------------------------------------------------
  // Any sequence of operations

  /** One call a host makes on the runner, with the operating system's answers
      (the pid of a spawned child, the outcome of a native build) as arguments. */
  datatype Call =
    | InitCall(targetName: string, debug: bool)
    | RunCall(url: string, args: seq<string>, spawned: int)
    | RunResumedCall(serverType: string)
    | BuildCall(buildArgs: seq<string>, buildPid: int)
    | BuildResumedCall(req: BuildRequest, platform: string, outcome: SyncOutcome)
    | StopCall
    | ExitCall(child: int, code: int)

  function Apply(s: RunnerState, c: Call): RunnerState
  {
    match c
    case InitCall(t, d) => Init(s, t, d)
    case RunCall(u, a, p) => Run(s, u, a, p)
    case RunResumedCall(ty) => RunResumed(s, ty)
    case BuildCall(a, p) => Build(s, a, p)
    case BuildResumedCall(req, pl, o) => BuildResumed(s, req, pl, o)
    case StopCall => Stop(s)
    case ExitCall(child, code) => OnExit(s, child, code)
  }

  function Replay(s: RunnerState, calls: seq<Call>): RunnerState
    decreases |calls|
  {
    if calls == [] then s else Replay(Apply(s, calls[0]), calls[1..])
  }

  /** Every operation keeps the runner invariant. */
  lemma StepKeepsValid(s: RunnerState, c: Call)
    requires Valid(s)
    ensures Valid(Apply(s, c))
  {
    match c
    case InitCall(t, d) => InitKeepsValid(s, t, d);
    case RunCall(u, a, p) => RunKeepsValid(s, u, a, p);
    case RunResumedCall(ty) =>
      RecordQuietKeepsValid(s, [PrepareSSL(ty == "https"), OpenIde(true)]);
    case BuildCall(a, p) => BuildKeepsValid(s, a, p);
    case BuildResumedCall(req, pl, o) =>
      BuildCallsQuiet(s.target, s.debug, req, pl, o);
      RecordQuietKeepsValid(s, BuildCalls(s.target, s.debug, req, pl, o));
    case StopCall => StopKeepsValid(s);
    case ExitCall(child, code) => OnExitKeepsValid(s, child, code);
  }

  /** After any sequence of calls the slot holds the pid the trace leaves in it,
      and that pid, unless 0, is a child still running. */
  lemma {:induction false} ReplayKeepsValid(s: RunnerState, calls: seq<Call>)
    requires Valid(s)
    ensures Valid(Replay(s, calls))
    decreases |calls|
  {
    if calls != [] {
      StepKeepsValid(s, calls[0]);
      ReplayKeepsValid(Apply(s, calls[0]), calls[1..]);
    }
  }

  /** Every state a host can reach from a new runner satisfies the invariant. */
  lemma ReachableIsValid(calls: seq<Call>)
    ensures Valid(Replay(Initial(), calls))
  {
    ReplayKeepsValid(Initial(), calls);
  }

  // ---------------------------------------------------------------------------
  // The rules of run, stop and the exit callback

  /** Debounce: running again with the URL of the last run changes nothing, so
      nothing is prepared or spawned the second time. */
  lemma RunTwiceSameUrl(s: RunnerState, url: string, args: seq<string>, p: int, args2: seq<string>, p2: int)
    ensures Run(Run(s, url, args, p), url, args2, p2) == Run(s, url, args, p)
  {
  }

  /** Pre-emption: a run with a new URL while the slot holds a pid kills that
      child and cleans up before it prepares and spawns. The operating system
      does not hand out the pid of a child still running, and the invariant
      says the old child is one, so the new child's pid differs from it. */
  lemma RunPreempts(s: RunnerState, url: string, args: seq<string>, spawned: int)
    requires Valid(s) && Fresh(s, spawned)
    requires s.url != Some(url) && s.pid != 0
    ensures spawned != s.pid
    ensures Run(s, url, args, spawned).trace[|s.trace|..] == [Kill(s.pid), Reset, Prepare, Spawn(spawned, args)]
  {
    var r := Run(s, url, args, spawned);
    assert r.trace == s.trace + [Kill(s.pid), Reset, Prepare, Spawn(spawned, args)];
  }

  /** A run with a new URL while idle kills nothing. */
  lemma RunWhenIdle(s: RunnerState, url: string, args: seq<string>, spawned: int)
    requires s.url != Some(url) && s.pid == 0
    ensures Run(s, url, args, spawned).trace[|s.trace|..] == [Prepare, Spawn(spawned, args)]
  {
    var r := Run(s, url, args, spawned);
    assert r.trace == s.trace + [Prepare, Spawn(spawned, args)];
  }

  /** Stopping twice is stopping once: the shutdown hook after a stop sends no
      second signal. */
  lemma StopIdempotent(s: RunnerState)
    ensures Stop(Stop(s)) == Stop(s)
  {
  }

  /** The children running after one more call. */
  lemma RunningStep(t: seq<Event>, e: Event)
    ensures e.Spawn? ==> Running(t + [e]) == Running(t) + {e.pid}
    ensures e.Exited? ==> Running(t + [e]) == Running(t) - {e.pid}
    ensures !e.Spawn? && !e.Exited? ==> Running(t + [e]) == Running(t)
  {
    LastOfAppend(t, e);
  }

  /** After a pre-empting kill and respawn, the pre-empted child's exit leaves
      the new child running, and a fatal report after it changes nothing. */
  lemma PreemptedExitKeepsNewChild(t: seq<Event>, preempted: int, spawned: int, args: seq<string>, fatal: bool)
    requires spawned != preempted
    ensures var u := t + [Kill(preempted), Reset, Prepare, Spawn(spawned, args), Exited(preempted), Reset]
                      + (if fatal then [Fatal] else []);
      spawned in Running(u) && preempted !in Running(u)
  {
    var t1 := t + [Kill(preempted)];
    var t2 := t1 + [Reset];
    var t3 := t2 + [Prepare];
    var t4 := t3 + [Spawn(spawned, args)];
    var t5 := t4 + [Exited(preempted)];
    var t6 := t5 + [Reset];
    RunningStep(t, Kill(preempted));
    RunningStep(t1, Reset);
    RunningStep(t2, Prepare);
    RunningStep(t3, Spawn(spawned, args));
    RunningStep(t4, Exited(preempted));
    RunningStep(t5, Reset);
    assert t + [Kill(preempted), Reset, Prepare, Spawn(spawned, args), Exited(preempted), Reset] == t6;
    if fatal {
      RunningStep(t6, Fatal);
    } else {
      assert t6 + [] == t6;
    }
  }

  /** The exit callback has no guard for a stale child: when the child that a
      newer run pre-empted reports its exit late, the slot is emptied and the
      configuration reset although the newer child was never killed and is
      still running. */
  lemma StaleExitEmptiesSlot(s: RunnerState, url: string, args: seq<string>, spawned: int, code: int)
    requires Valid(s) && Fresh(s, spawned) && s.url != Some(url) && s.pid != 0
    ensures Run(s, url, args, spawned).pid == spawned
    ensures OnExit(Run(s, url, args, spawned), s.pid, code).pid == 0
    ensures spawned in Running(OnExit(Run(s, url, args, spawned), s.pid, code).trace)
    ensures s.pid !in Running(OnExit(Run(s, url, args, spawned), s.pid, code).trace)
    ensures Kill(spawned) !in OnExit(Run(s, url, args, spawned), s.pid, code).trace[|s.trace|..]
  {
    var preempted := s.pid;
    var started := Run(s, url, args, spawned);
    var r := OnExit(started, preempted, code);
    var events := [Kill(preempted), Reset, Prepare, Spawn(spawned, args), Exited(preempted), Reset];
    var fatal := if code != 0 then [Fatal] else [];
    assert started.trace == s.trace + [Kill(preempted), Reset, Prepare, Spawn(spawned, args)];
    assert r.trace == s.trace + events + fatal;
    PreemptedExitKeepsNewChild(s.trace, preempted, spawned, args, code != 0);
    assert r.trace[|s.trace|..] == events + fatal;
  }
}
