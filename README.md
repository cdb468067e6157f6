# Starter supervisor, modelled in Dafny

`Starter.exec()` in ClashForMagisk supervises the Clash engine runner. It wires
three engine callbacks (`onPrepare`, `onStarted`, `onStopped`) and a control
command handler (`START`, `STOP`, `RESTART`) around three pieces of state:

- the two marker files `RUNNING` and `STOPPED` in the data directory,
- the restart-pending flag (an `AtomicBoolean`),
- the calls made on the runner, `runner.start()` and `runner.stop()`.

The model has two layers.

- `lifecycle.dfy`, module `Lifecycle`: the state as a value (`State`), one
  function per callback or command (`AfterStarted`, `AfterStopped`,
  `AfterCommand`, joined in `Step`), and `Run`, which folds the steps over a
  trace of events. The lemmas about traces live here: the markers are never
  both present, which marker exists is decided by the last callback alone, a
  restart is pending exactly when a `RESTART` came after the last completed
  `onStopped`, every stop request is accounted for, and no `RESTART` yields
  more than one start.
- `starter.dfy`, module `Starter`: class `Supervisor`, whose fields the
  callbacks update in place, one method per callback and one for the command
  handler. Each method's postcondition equates the new state with the matching
  `Lifecycle` step applied to the old state, and keeps the invariant that the
  two markers are not both present.

Outcomes that come from code outside `Starter.java` are parameters: whether the
prepare and start scripts succeeded, how the stop script ended, and whether
creating a marker file succeeded. Runner calls are only recorded in
`requests`; how the runner reacts to them is not modelled.

Two details of the code shape the model:

- `onStopped` catches only `IOException` from the stop script
  (`Starter.java:67`), while the other callbacks catch every `Exception`. The
  stop script's outcome is therefore three-valued (`StopScript`). An unchecked
  exception leaves the callback after the markers were deleted: no `STOPPED`
  marker, and the restart flag is neither read nor cleared.
- A failed `createNewFile` is swallowed (`Starter.java:58`, `74-76`,
  `104-106`). The `created` parameter says whether the marker was made.
  "A stop ends with exactly `STOPPED`" therefore holds when the marker was
  created and the stop script did not throw an unchecked exception.

`STOP` does not clear the restart flag (Starter.java:89-91), so after
`START`, `RESTART`, `STOP` the next completed `onStopped` still calls
`runner.start()` (Starter.java:78-79); see `Lifecycle.StopDoesNotCancelRestart`.
`Starter.java` keeps no engine state (Preparing, Running, Stopping); any such
state would be in `ClashRunner`, whose source is not part of this model.

## Model

| member | source | states |
|---|---|---|
| `Starter.Supervisor.constructor` | module/src/main/java/com/github/kr328/clash/Starter.java:99-109 | after start-up the flag is clear, `RUNNING` is absent, `STOPPED` exists iff its creation succeeded, and exactly one `Start` was requested |
| `Starter.Supervisor.OnPrepare` | module/src/main/java/com/github/kr328/clash/Starter.java:33-41 | blocks the start exactly when the prepare script failed; has no modifies clause, so no marker and not the flag can change |
| `Starter.Supervisor.OnStarted` | module/src/main/java/com/github/kr328/clash/Starter.java:44-59 | the new state is `AfterStarted` of the old one; the markers stay exclusive |
| `Starter.Supervisor.OnStopped` | module/src/main/java/com/github/kr328/clash/Starter.java:62-81 | the new state is `AfterStopped` of the old one; the markers stay exclusive |
| `Starter.Supervisor.Command` | module/src/main/java/com/github/kr328/clash/Starter.java:84-97 | the new state is `AfterCommand` of the old one; the markers stay exclusive |
| `Starter.Supervisor.DeleteMarkers` | module/src/main/java/com/github/kr328/clash/Starter.java:99 | `Utils.deleteFiles(dataDir, "RUNNING", "STOPPED")`, also called at lines 45 and 63: both markers are absent afterwards |
| `Starter.Supervisor.RequestStart` | module/src/main/java/com/github/kr328/clash/Starter.java:109 | `runner.start()`, also called at lines 79 and 87: appends exactly one `Start` to the recorded calls and changes nothing else |
| `Starter.Supervisor.RequestStop` | module/src/main/java/com/github/kr328/clash/Starter.java:90 | `runner.stop()`, also called at lines 51 and 94: appends exactly one `Stop` to the recorded calls and changes nothing else |
| `Starter.Supervisor.TakeRestart` | module/src/main/java/com/github/kr328/clash/Starter.java:78 | `getAndSet(false)` returns the old flag and leaves it clear, in one step |
| `Lifecycle.AfterStarted` | module/src/main/java/com/github/kr328/clash/Starter.java:44-59 | no `STOPPED` afterwards; `RUNNING` iff the start script succeeded and the marker was created; a failed script adds exactly one `Stop` and a successful one adds no request; the flag is untouched |
| `Lifecycle.AfterStopped` | module/src/main/java/com/github/kr328/clash/Starter.java:62-81 | no `RUNNING` afterwards; unless the stop script threw an unchecked exception, `STOPPED` iff created, the flag is clear, and one `Start` is added iff the flag was set before; after an unchecked exception neither marker, flag and requests unchanged |
| `Lifecycle.AfterCommand` | module/src/main/java/com/github/kr328/clash/Starter.java:84-97 | no command touches the markers; `START` adds only `Start`, `STOP` only `Stop`, `RESTART` sets the flag and adds only `Stop`; any other string changes nothing |
| `Lifecycle.Step` | module/src/main/java/com/github/kr328/clash/Starter.java:31-97 | each callback or command only appends to the runner calls, and appends exactly the calls `Issued` names for it |
| `Lifecycle.Run` | module/src/main/java/com/github/kr328/clash/Starter.java:45-103 | over any trace the markers stay exclusive once they are, and the runner calls made earlier are kept as a prefix |
| `Lifecycle.MarkersFollowLastCallback` | module/src/main/java/com/github/kr328/clash/Starter.java:45-76 | after any trace, `RUNNING` exists iff the last marker-deleting callback was a successful `onStarted` with its marker created, and `STOPPED` iff it was an `onStopped` that got past the stop script and created its marker |
| `Lifecycle.RestartPendingAfterLastRestart` | module/src/main/java/com/github/kr328/clash/Starter.java:78-95 | after any trace a restart is pending iff the last event that wrote the flag was a `RESTART` command |
| `Lifecycle.NoRunningWithoutStart` | module/src/main/java/com/github/kr328/clash/Starter.java:45-58 | a trace with no successful, marked `onStarted` (for example, starts whose prepare script kept failing) never creates `RUNNING` |
| `Lifecycle.StopRequestsAccounted` | module/src/main/java/com/github/kr328/clash/Starter.java:49-95 | the number of `Stop` requests grows by exactly the number of `STOP` and `RESTART` commands plus failed start scripts |
| `Lifecycle.StartRequestsBounded` | module/src/main/java/com/github/kr328/clash/Starter.java:78-94 | `Start` requests plus a pending restart never grow by more than the `START` and `RESTART` commands: no restart is issued twice |
| `Lifecycle.StartRequestsFromBoot` | module/src/main/java/com/github/kr328/clash/Starter.java:78-109 | from start-up, `Start` requests number at most one plus the `START` and `RESTART` commands |
| `Lifecycle.RestartConsumedOnce` | module/src/main/java/com/github/kr328/clash/Starter.java:78-80 | `RESTART` then two completed `onStopped` callbacks issue `Stop` then exactly one `Start`, and leave the flag clear |
| `Lifecycle.StopDoesNotCancelRestart` | module/src/main/java/com/github/kr328/clash/Starter.java:78-95 | `RESTART`, `STOP`, then a completed `onStopped` issue `Stop`, `Stop`, `Start`: the later `STOP` does not cancel the restart |
| `Lifecycle.EscapedStopKeepsRestart` | module/src/main/java/com/github/kr328/clash/Starter.java:62-80 | an unchecked exception from the stop script keeps a pending restart, which the next completed `onStopped` then consumes |

## Left out

- `main`: argument check, usage message, `System.exit`, `Utils.waitForUserUnlocked` and logging (Starter.java:119-131); process entry and platform calls.
- The `synchronized`/`wait()` block that parks the main thread, and `finalize` (Starter.java:18-21, 111-116); lifecycle plumbing with no state to model.
- `new File(dataDir).mkdirs()` and the file paths themselves; only the presence of the two markers is modelled.
- `Utils.deleteFiles` is taken to always remove both markers; its source is not part of this model.
- `createNewFile` can also throw `SecurityException`, which the `IOException` handlers at lines 74 and 104 do not catch; only the `IOException` failure is modelled. `java.lang.Error` escaping any callback is not modelled either.
- `ClashRunner`, `ProxySetup`, `ControlObserver` and `Utils` are not part of this model: script outcomes are parameters, runner calls are entries in `requests`, and commands arrive as strings.
- Thread interleavings: each callback and each command is one atomic step, and `getAndSet(false)` is one read-and-clear. In `exec()`, `observer.start()` runs before `runner.start()`, so a command could be handled before the initial start request; the model treats start-up as one step.
- Logging (`Log.e`, `Log.w`, `printStackTrace`).
