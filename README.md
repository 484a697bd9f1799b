# Capacitor runner: a verified model

This project models `CapacitorRunner`, the object in Quasar's webpack app
builder (`app-webpack/lib/capacitor/index.js`) that supervises the Capacitor
CLI for a mobile target. The runner has one process slot `pid`, where 0 means
idle. It remembers the application URL of its last `run`, and the target and
debug flag of the context given to `init`. `run` skips a URL it has already run
with, and it stops the child in the slot before it starts a new one. `stop`
kills the child in the slot and cleans up, and does nothing when idle. The Capacitor CLI's exit
callback always cleans up first, then either resolves or reports a fatal error.
`build` prepares the project, runs the CLI, and then packages natively
(`xcrun xcodebuild` on iOS, the Gradle wrapper elsewhere), opens the IDE, or
stops.

Files and modules:

- `wrappers.dfy` (`Wrappers`): `Option`, for fields that start out `undefined`.
- `text.dfy` (`Text`): JavaScript's `split` for a one-character separator, and
  the join it undoes.
- `native_build.dfy` (`NativeBuild`): the argument lists of the iOS and Android
  packaging steps.
- `transitions.dfy` (`Transitions`): the runner's state, with a ghost record
  (`trace`) of every call it makes into its collaborators, in order. Each
  operation is a pure function from the old state to the new one.
- `runner_lemmas.dfy` (`RunnerLemmas`): the runner invariant and the lemmas that
  every operation, and every sequence of operations, keeps it. Also
  pre-emption, debounce, and stale-exit properties.
- `capacitor_runner.dfy` (`Capacitor`): the class `CapacitorRunner`. Its fields
  are `pid`, `url`, `target`, `debug` and the ghost `trace`. Each method is
  proved to change them exactly as a function in `Transitions` says: the
  function of the same name, except that `RunCapacitorCommand` follows
  `StartCommand`, `OnShutdown` follows `Stop`, `BuildIos` follows `IosCalls`,
  `BuildAndroid` follows `AndroidCalls` and `Package` follows `PackageCalls`.
  `Cleanup`, `RunCapacitorCommand`, `OnExit` and `Build` leave any state
  satisfying the invariant. The other methods that take a valid state keep it,
  and the packaging steps (`Package`, `BuildIos`, `BuildAndroid`) neither need
  nor promise it.

The trace is read in two ways. `Transitions.Slot` is the pid of the last spawn
that no `Reset` has followed (0 if there is none). `Transitions.Running` is the
set of children spawned and not yet reported as exited; a kill does not remove
a child, its exit does.

The invariant (`Transitions.Valid`) says two things. First, `pid` is exactly
the trace's slot. Second, that pid, unless 0, is a child still running. The
converse does not hold: a running child need not be in the slot.
`RunnerLemmas.StaleExitEmptiesSlot` shows a case where the slot is 0 while a
child is still running.

Because of the asynchronous wait for the Capacitor CLI, `run` and `build` are
each two methods, and the exit callback is a third:

- `Run` and `Build` are the code before the `await`.
- `OnExit(child, code)` is the exit callback of the child `child`. The callback
  does not look at `child`; the model records it so that the trace says which
  child exited. Its result says whether the promise resolves.
- `RunResumed` and `BuildResumed` are the code after the `await`.

The host calls these in order. Values that come from outside the model are
arguments:

- the pid the operating system gives a spawned child (`spawned`);
- the dev server's type;
- `process.platform`;
- the outcome of a native build tool run (`SyncOutcome`).

Two behaviours of the code are worth knowing:

- Unlike `run`, `build` does not stop the child in the slot before it spawns
  (`app-webpack/lib/capacitor/index.js:55-60`): it overwrites `pid` without a
  kill, and `Transitions.Build` records no `Kill`.
- The exit callback does not check which child exited
  (`app-webpack/lib/capacitor/index.js:144-152`). A pre-empted child's late
  exit empties the slot and resets the configuration while the newer child,
  never killed, is still running (`RunnerLemmas.StaleExitEmptiesSlot`).

## Model

| member | source | states |
|---|---|---|
| Text.Split | app-webpack/lib/capacitor/index.js:89 | `split(' ')` gives at least one piece, no piece contains the separator, and joining the pieces with it gives the string back |
| Text.SplitJoin | app-webpack/lib/capacitor/index.js:89 | splitting the join of pieces that have no separator gives back the same pieces |
| NativeBuild.XcodebuildCommandLineJoins | app-webpack/lib/capacitor/index.js:83 | the template is its eight words joined by single spaces, with the configuration seventh |
| NativeBuild.XcodebuildCommandLineSplits | app-webpack/lib/capacitor/index.js:83-89 | splitting the xcodebuild template on spaces gives exactly its eight tokens, with the configuration seventh |
| NativeBuild.IosArgsFromTemplate | app-webpack/lib/capacitor/index.js:82-89 | xcrun's arguments are what splitting the template on spaces gives, then the packaged output directory, then the extra arguments: nine fixed arguments, `xcodebuild` first, the configuration seventh and `debug` exactly when the debug flag is set, the directory ninth |
| NativeBuild.XcodeConfiguration | app-webpack/lib/capacitor/index.js:82 | the configuration is `debug` exactly in a debug build, else `release`, and has no space |
| NativeBuild.IosArgs | app-webpack/lib/capacitor/index.js:89 | xcrun gets nine fixed arguments, the configuration seventh and the packaged output directory ninth, then the extra arguments unchanged |
| NativeBuild.GradleBin | app-webpack/lib/capacitor/index.js:116 | the wrapper is `./gradlew.bat` exactly on win32, else `./gradlew` |
| NativeBuild.GradleArgs | app-webpack/lib/capacitor/index.js:117 | the first argument is `assembleDebug` exactly when debug, else `assembleRelease`; the extra arguments follow unchanged |
| NativeBuild.AndroidOutputsComponents | app-webpack/lib/capacitor/index.js:106-108 | the Gradle outputs path, relative to the Capacitor directory, has the four components `android`, `app`, `build`, `outputs` |
| Transitions.Initial | app-webpack/lib/capacitor/index.js:15-17 | a new runner is idle, remembers no URL and has made no call |
| Transitions.Init | app-webpack/lib/capacitor/index.js:24-31 | target and debug come from the context; the cleartext fix is made exactly when the target is android; slot and URL are untouched |
| Transitions.Cleanup | app-webpack/lib/capacitor/index.js:157-160 | the slot is emptied, exactly one `Reset` is recorded, and the trace's slot is 0 |
| Transitions.Stop | app-webpack/lib/capacitor/index.js:130-136 | when idle nothing changes and nothing is killed; otherwise `Kill(pid)` then `Reset` are recorded and the slot is empty |
| Transitions.StartCommand | app-webpack/lib/capacitor/index.js:138-143 | the CLI is spawned with the given arguments, and its pid is at once the field `pid` and the pid the trace leaves in the slot |
| Transitions.OnExit | app-webpack/lib/capacitor/index.js:144-152 | whatever the code and whichever child exited, the exit is recorded, the slot is emptied and exactly one `Reset` follows; a non-zero code then records `Fatal`, a zero code records nothing more |
| Transitions.Run | app-webpack/lib/capacitor/index.js:33-48 | the same URL as last time changes nothing; a new URL records `Kill(old)` and `Reset` first if the slot holds a pid, then `Prepare` and `Spawn`, and remembers the URL and the new pid |
| Transitions.RunResumed | app-webpack/lib/capacitor/index.js:50-52 | SSL is prepared with HTTPS exactly when the server type is `https`, then the IDE is opened in the foreground; nothing else changes |
| Transitions.Build | app-webpack/lib/capacitor/index.js:55-60 | `Prepare` then `Spawn` are recorded with no kill and no URL check; the slot holds the new pid |
| Transitions.IosCalls | app-webpack/lib/capacitor/index.js:81-103 | xcrun runs with the iOS arguments; on failure the packaged output directory is removed |
| Transitions.AndroidCalls | app-webpack/lib/capacitor/index.js:105-128 | the old Gradle outputs are removed before Gradle runs; the outputs are copied to the packaged directory unless the failed run does not return |
| Transitions.PackageCalls | app-webpack/lib/capacitor/index.js:64-78 | nothing with skip-pkg; else the IDE is opened and the process exits with 0 with ide; else the iOS calls for an ios target; else the Android calls |
| Transitions.BuildCalls | app-webpack/lib/capacitor/index.js:62-78 | SSL is always prepared without HTTPS first, then exactly the packaging calls |
| Transitions.BuildResumed | app-webpack/lib/capacitor/index.js:62-78 | the rest of `build` records exactly the calls of `BuildCalls` and changes no field |
| RunnerLemmas.StopKeepsValid | app-webpack/lib/capacitor/index.js:130-136 | `stop` keeps the invariant and leaves the running children as they were |
| RunnerLemmas.RunKeepsValid | app-webpack/lib/capacitor/index.js:33-48 | `run` keeps the invariant whatever pid the new child gets |
| RunnerLemmas.OnExitKeepsValid | app-webpack/lib/capacitor/index.js:144-152 | the exit callback leaves any state satisfying the invariant, and only the exiting child stops running |
| RunnerLemmas.BuildKeepsValid | app-webpack/lib/capacitor/index.js:55-60 | `build` leaves any state satisfying the invariant |
| RunnerLemmas.BuildBranchOrder | app-webpack/lib/capacitor/index.js:64-78 | the IDE opens iff not skip-pkg and ide; Xcode runs iff neither and the target is ios; Gradle runs iff neither and the target is not ios; outputs are copied iff on the Gradle path and control comes back from Gradle |
| RunnerLemmas.BuildResumedKeepsValid | app-webpack/lib/capacitor/index.js:62-78 | the rest of `build` keeps the invariant |
| RunnerLemmas.BuildCallsQuiet | app-webpack/lib/capacitor/index.js:62-128 | the rest of `build` spawns nothing, resets nothing and reports no exit |
| RunnerLemmas.StepKeepsValid | app-webpack/lib/capacitor/index.js:24-160 | every operation keeps the invariant |
| RunnerLemmas.ReplayKeepsValid | app-webpack/lib/capacitor/index.js:24-160 | after any sequence of operations the slot holds the pid the trace leaves in it, and that pid, unless 0, is a child still running |
| RunnerLemmas.ReachableIsValid | app-webpack/lib/capacitor/index.js:15-17 | every state reached from a new runner by any sequence of calls satisfies the invariant |
| RunnerLemmas.RunTwiceSameUrl | app-webpack/lib/capacitor/index.js:37-39 | a second `run` with the same URL leaves the state of the first, so prepare and spawn happen once |
| RunnerLemmas.RunPreempts | app-webpack/lib/capacitor/index.js:41-48 | a new URL while the slot holds a pid records exactly `Kill(old)`, `Reset`, `Prepare`, `Spawn(new)`; the new pid differs from the old, because the old one is a running child and the operating system does not hand out the pid of one |
| RunnerLemmas.RunWhenIdle | app-webpack/lib/capacitor/index.js:41-48 | a new URL while idle records `Prepare`, `Spawn` and no kill |
| RunnerLemmas.StopIdempotent | app-webpack/lib/capacitor/index.js:131 | a second `stop` does nothing |
| RunnerLemmas.StaleExitEmptiesSlot | app-webpack/lib/capacitor/index.js:144-146 | when a run pre-empts the child in the slot and that child's exit arrives afterwards, the slot is emptied while the new child, never killed, is still running and the pre-empted one is not |
| Capacitor.CapacitorRunner.constructor | app-webpack/lib/capacitor/index.js:15-22 | the runner starts as `Transitions.Initial` and satisfies the invariant |
| Capacitor.CapacitorRunner.Init | app-webpack/lib/capacitor/index.js:24-31 | fields change as `Transitions.Init` says |
| Capacitor.CapacitorRunner.Cleanup | app-webpack/lib/capacitor/index.js:157-160 | fields change as `Transitions.Cleanup` says |
| Capacitor.CapacitorRunner.Stop | app-webpack/lib/capacitor/index.js:130-136 | fields change as `Transitions.Stop` says |
| Capacitor.CapacitorRunner.OnShutdown | app-webpack/lib/capacitor/index.js:19-21 | the shutdown hook acts as `stop` |
| Capacitor.CapacitorRunner.RunCapacitorCommand | app-webpack/lib/capacitor/index.js:138-143 | fields change as `Transitions.StartCommand` says |
| Capacitor.CapacitorRunner.OnExit | app-webpack/lib/capacitor/index.js:144-152 | fields change as `Transitions.OnExit` says for the exiting child; the promise resolves exactly when the code is 0 |
| Capacitor.CapacitorRunner.Run | app-webpack/lib/capacitor/index.js:33-48 | fields change as `Transitions.Run` says; `started` is false exactly for a repeated URL |
| Capacitor.CapacitorRunner.RunResumed | app-webpack/lib/capacitor/index.js:50-52 | fields change as `Transitions.RunResumed` says |
| Capacitor.CapacitorRunner.Build | app-webpack/lib/capacitor/index.js:55-60 | fields change as `Transitions.Build` says |
| Capacitor.CapacitorRunner.BuildResumed | app-webpack/lib/capacitor/index.js:62-78 | fields change as `Transitions.BuildResumed` says |
| Capacitor.CapacitorRunner.Package | app-webpack/lib/capacitor/index.js:64-78 | the trace grows by `Transitions.PackageCalls` and nothing else changes |
| Capacitor.CapacitorRunner.BuildIos | app-webpack/lib/capacitor/index.js:81-103 | the trace grows by `Transitions.IosCalls` and nothing else changes |
| Capacitor.CapacitorRunner.BuildAndroid | app-webpack/lib/capacitor/index.js:105-128 | the trace grows by `Transitions.AndroidCalls` and nothing else changes |

## Left out

- Spawning, killing and exiting processes. These are trace events. The child's
  pid is an argument. Only `RunnerLemmas.RunPreempts` and
  `RunnerLemmas.StaleExitEmptiesSlot` require it to be fresh (`Transitions.Fresh`):
  positive, and not the pid of a child still running. Pids of children that
  have exited may be handed out again.
  A spawn that fails is not modelled, because the spawn helper
  (`app-webpack/lib/helpers/spawn.js`) is not part of this model.
- Promise timing. The host calls the halves of `run` and `build` and the exit
  callback in order. The model does not say which continuation a resolving
  exit belongs to.
- Exit codes are integers, and 0 stands for every falsy code. A child killed by
  a signal may report `null`, which the code treats like 0.
- After `Fatal` or `Exit(0)` the host process ends. The model records the event
  and does not model the host's end.
- The native build helper's failure path, including whether control returns to
  the Android copy after a Gradle failure, is the `SyncOutcome` argument. The
  helper itself is not part of this model.
- File system effects (removing and copying directories) are recorded only as
  events. Paths other than the packaged output directory are fixed relative
  names (`android/app/build/outputs`), because the path resolver is not part of
  this model.
- The internals of the configuration preparer, the IDE opener, the Android
  cleartext fix, the Capacitor CLI path and the logger. These are only called.
  The configuration object passed to `prepare` is not modelled, and neither are
  the working directories passed to the spawn helpers.
- Registering the shutdown hook. `OnShutdown` is what the hook does.
- Log and warning text.
- `run` takes the application URL as a string. The code compares it with
  `undefined` before the first run, so an undefined `APP_URL` would be skipped.
  That case is not modelled.
- `init` keeps the context object itself, and `__buildIos` and `__buildAndroid`
  read its debug flag only when they run. The model copies the flag at `init`,
  so a later change to the context's flag is not seen.
- Calling `build` before `init`. Then `this.ctx` is undefined, and the code
  throws when it reads `ctx.debug`. The model reads the default `debug` (false)
  instead.
- The xcodebuild template literal (`NativeBuild.XcodebuildCommandLine`) is
  written as its words joined by single spaces. This is the same string.
- `NativeBuild.IosArgs` is defined by the template's tokens rather than by
  splitting the template. `NativeBuild.IosArgsFromTemplate` proves the two
  agree, so the split is not recomputed wherever the arguments appear.
