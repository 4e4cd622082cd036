# Daemon supervision of Elvish's client start-up

When an Elvish client starts it calls `InitRuntime`
(`program/clientcommon/runtime.go`). That function fills in default
database, socket and log paths. It then decides what to do with the storage
daemon behind the socket:

- use the daemon that is already running;
- kill an outdated daemon and start a new one;
- start a daemon when there is none;
- or give up.

After starting a daemon it polls the daemon's `Version` RPC for at most
`daemonWaitLoops + 1` attempts, `daemonWaitOneLoop` apart. At shutdown,
`CleanupRuntime` closes the client that was kept.

The project has two modules:

- `ClientCommon` (`runtime.dfy`) holds the data model and the operations.
  - Every answer the operating system or the daemon could give is taken from an oracle record `Env`.
  - Every call and every message printed is recorded, in order, in a trace of `Action`s.
  - `Supervise` is the reference definition of the whole decision procedure: a chain of steps, each appending to the trace logged so far.
  - The imperative methods follow the Go code statement by statement: `InitRuntime`, `ConnectDaemon` (the body of the `if` at line 59) and `WaitForDaemon` (the loop at line 108). Each `goto spawnDaemonEnd` becomes a `return` with an explicit `Exit`.
  - Each method is proved to compute exactly what the reference definition gives.
- `SupervisorProperties` (`properties.dfy`) proves what the reference definition guarantees: the path defaults, every branch of the decision tree, and the bounds and stopping rules of the wait loop.

Three behaviours of the code are modelled as written:

- The wait loop polls the same `cl` that line 85 already closed when an outdated daemon was replaced. The model keeps that closed client (`Conn(sock, true)`), and `ReplacedClientAlreadyClosed` states it.
- `cl` is set to nil only on the `Pid` failure (line 82) and on the kill failure (line 93). So it is kept on a failed first `Version` call, on the invalid-database exit and on the timeout. `ClientNilExactly` states this.
- In the kill step, `p.Kill()` is called only when `os.FindProcess` returned an error. So a process that was found counts as killed without any signal being sent. `OutdatedDaemonKillOrder` states this.

## Model

| member | source | states |
|---|---|---|
| ClientCommon.Join | program/clientcommon/runtime.go:38-56 | joining a file name onto a directory gives a non-empty path that ends with the name |
| ClientCommon.WaitLoopExtends | program/clientcommon/runtime.go:108-121 | the wait loop only appends to the trace it is given: its trace is that trace followed by the loop's own calls, and its exit does not depend on it |
| ClientCommon.SpawnExtends | program/clientcommon/runtime.go:100-121 | spawning and waiting only appends to the trace, keeps the client it is given and decides its exit independently of the trace |
| ClientCommon.ProbeExtends | program/clientcommon/runtime.go:59-122 | the daemon interaction only appends to the trace logged before it; its client and exit do not depend on that trace |
| ClientCommon.InitRuntime | program/clientcommon/runtime.go:28-124 | the step-by-step path defaulting and daemon handling leave exactly the paths, daemon spec, trace, client and exit of the reference `Supervise` |
| ClientCommon.ConnectDaemon | program/clientcommon/runtime.go:59-123 | the probe, kill, spawn and wait sequence, with its early exits, produces exactly the trace, client and exit of the reference `Interaction` |
| ClientCommon.WaitForDaemon | program/clientcommon/runtime.go:108-121 | the polling loop produces exactly the trace and exit of the reference wait loop started at iteration 0 |
| ClientCommon.CleanupRuntime | program/clientcommon/runtime.go:136-143 | Close is called, once and first, exactly when a client is held; the close warning is printed, at most once, exactly when that Close fails; nothing else is done |
| SupervisorProperties.PollsStep | program/clientcommon/runtime.go:116-120 | a plain error before the last iteration adds one Version call and one sleep and hands over to the next iteration |
| SupervisorProperties.PollsShape | program/clientcommon/runtime.go:108-121 | the loop starts with a Version call, calls only Version and Sleep, prints only the upgrade notice and the timeout message, and leaves through one of its three exits |
| SupervisorProperties.PollsLast | program/clientcommon/runtime.go:109-119 | an iteration that stops the loop calls Version once, does not sleep, and prints at most one message |
| SupervisorProperties.PollsVersionCount | program/clientcommon/runtime.go:108-121 | from iteration i the loop makes between 1 and 101 - i Version calls |
| SupervisorProperties.PollsSleepCount | program/clientcommon/runtime.go:108-121 | the loop sleeps exactly once fewer than it calls Version |
| SupervisorProperties.PollsMessageCounts | program/clientcommon/runtime.go:113-118 | the upgrade notice is printed once on the invalid-database exit and otherwise never; likewise the timeout message on the timeout exit |
| SupervisorProperties.PollsSleepBetweenAttempts | program/clientcommon/runtime.go:108-121 | every sleep has a Version call just before and just after it: the loop never sleeps after an attempt that stopped it |
| SupervisorProperties.PollsStopAtFirstAnswer | program/clientcommon/runtime.go:109-115 | the loop stops at the first answer that is not a plain error: online on a version, with the upgrade notice on the invalid-database error, after exactly k - i + 1 Version calls and without the timeout message |
| SupervisorProperties.PollsTimeoutExactly | program/clientcommon/runtime.go:116-118 | the loop times out if and only if every remaining attempt, the one with i == daemonWaitLoops included, fails with a plain error; it has then made every remaining Version call |
| SupervisorProperties.WaitWithinBudget | program/clientcommon/runtime.go:108-121 | at most 101 Version calls and at most the wait budget slept; on a timeout the whole budget was slept |
| SupervisorProperties.PollsLack | program/clientcommon/runtime.go:108-121 | no action other than Version, Sleep and the loop's two messages occurs in the loop's trace |
| SupervisorProperties.SpawnAndWaitIs | program/clientcommon/runtime.go:100-121 | spawning adds Spawn, then the spawn warning when Spawn failed, then the whole wait loop, whose exit becomes the exit |
| SupervisorProperties.NoSocketBranch | program/clientcommon/runtime.go:60-121 | with no socket file the interaction is: create the client, stat, spawn, wait; the client is kept open |
| SupervisorProperties.ReplacedBranch | program/clientcommon/runtime.go:77-121 | when an outdated daemon is retired the interaction is: Version, Pid, Close, FindProcess (and Kill), spawn, wait; the kept client is the closed one |
| SupervisorProperties.KillFailedBranch | program/clientcommon/runtime.go:87-95 | when FindProcess and Kill both fail the kill warning ends the interaction with a nil client |
| SupervisorProperties.InteractionExits | program/clientcommon/runtime.go:59-122 | the client is nil exactly on the Pid and kill failures; a kept client is bound to the socket path; it is the closed one exactly when an outdated daemon was retired; the wait loop decides the exit exactly when the socket was missing or a daemon was retired |
| SupervisorProperties.UpToDateDaemonKept | program/clientcommon/runtime.go:65-77 | socket present and version not below the wanted one: the client is kept as created, and nothing is done after the one Version call, so no Pid, kill or spawn |
| SupervisorProperties.VersionFailureKeepsClient | program/clientcommon/runtime.go:65-75 | socket present but the first Version call fails: a warning, then the upgrade notice exactly when the error text is bolt's invalid-database text; no spawn or poll; the client is left unchanged |
| SupervisorProperties.PidFailureDropsClient | program/clientcommon/runtime.go:77-84 | outdated daemon whose Pid call fails: a warning, Close, a nil client, and no kill or spawn |
| SupervisorProperties.StatErrorStops | program/clientcommon/runtime.go:61-100 | a stat error other than not-exist ends the interaction right after stat, keeping the client |
| SupervisorProperties.OutdatedDaemonKillOrder | program/clientcommon/runtime.go:77-90 | on an outdated daemon with a known pid, Pid, Close and FindProcess follow the first Version call in that order, and Kill is called exactly when FindProcess failed |
| SupervisorProperties.OutdatedDaemonOutcome | program/clientcommon/runtime.go:87-108 | the kill step fails exactly when FindProcess and Kill both fail; the client is then nil and nothing is spawned; otherwise the daemon is spawned, the same closed client is kept and the wait loop decides the exit |
| SupervisorProperties.SpawnExactly | program/clientcommon/runtime.go:100-108 | Spawn is called exactly when the socket was missing or an outdated daemon was retired; after it, whether it failed or not, the wait loop decides the exit and a client is kept |
| SupervisorProperties.NoSocketSpawnsFirst | program/clientcommon/runtime.go:60-102 | with no socket file, Spawn comes right after stat, before any RPC; Pid and Kill are never called; the wait loop decides the exit |
| SupervisorProperties.UpgradeNoticeExactly | program/clientcommon/runtime.go:65-115 | the upgrade notice is printed exactly when the first Version call or the wait loop got bolt's invalid-database error |
| SupervisorProperties.ReplacedClientAlreadyClosed | program/clientcommon/runtime.go:85-100 | after a replacement the client kept is the one closed at line 85, so cleanup closes it again |
| SupervisorProperties.SuperviseSplits | program/clientcommon/runtime.go:32-59 | the run's trace starts with the two path warnings, each present when its lookup failed; when both paths are set, the daemon interaction on the resolved socket path follows and decides the client and exit |
| SupervisorProperties.PathDefaults | program/clientcommon/runtime.go:33-56 | dbpath becomes dataDir/db only when it was empty and the data directory was obtained; runDir falls back to the data directory; sockpath becomes runDir/sock only when it was empty, so it is never empty; the log prefix is always runDir/daemon.log- |
| SupervisorProperties.PathWarnings | program/clientcommon/runtime.go:33-47 | the run begins with the data-directory warning exactly when the data directory failed, then the fallback warning exactly when the secure run directory failed; each warning occurs in the whole trace exactly when its lookup failed |
| SupervisorProperties.InteractionPrintsNoPathWarning | program/clientcommon/runtime.go:59-122 | the daemon interaction never prints either path warning |
| SupervisorProperties.NoPathsNoInteraction | program/clientcommon/runtime.go:59 | with sockpath or dbpath empty after defaulting, no client is created and the trace holds only the path warnings: no stat, RPC, kill or spawn |
| SupervisorProperties.NoDaemonPathsExactly | program/clientcommon/runtime.go:33-59 | the daemon is left alone exactly when dbpath was empty and the data directory could not be obtained |
| SupervisorProperties.ClientNilExactly | program/clientcommon/runtime.go:58-123 | the client left for the evaluator is nil exactly when a path stayed empty, Pid failed or the kill step failed, so it is kept on a failed first Version call, on the invalid-database exit and on the timeout; a kept client is bound to the resolved socket path |

## Left out

- Real I/O is not modelled. The data and run directories, `os.Stat`, the RPCs, `os.FindProcess`, `Kill` and `Spawn` are answers in the oracle `Env`. Each wait-loop poll is the answer `poll(i)`.
- Daemon start-up timing: `time.Sleep` is recorded as a `Sleep` step. Durations are counted in milliseconds and not measured.
- `storedefs.EnsureDataDir` and `getSecureRunDir` are not part of this model. Their results are oracle inputs: a directory with a success flag, because the Go functions can return a directory together with an error.
- `daemonapi.Version` is the oracle input `wantVersion`, because its value is not in this file.
- `bolt.ErrInvalid` is represented by its text, "invalid database". The comparison is on error text, as in the source.
- `filepath.Join` is modelled as plain concatenation with a separator, and an empty directory is dropped. Path cleaning (`..`, doubled separators) is not modelled.
- The evaluator is not modelled: its creation, `SetLibDir`, `InstallDaemon` and the `re` module (lines 126-132). The model returns the client and paths that would be handed to it.
- The `logger` debug lines are not modelled. The standard-error messages are modelled as abstract notices, without their exact text or the error values printed with them.
- `ErrBadOwner` and `ErrBadPermission` (lines 145-148) are only declared here and used by code outside this model.
- Races between processes are not modelled, including pid reuse between `FindProcess` and `Kill`.
- The crash on the `FindProcess` failure path is not modelled. On Unix `os.FindProcess` never fails. On Windows it can fail, and it then returns a nil process, so line 89 calls `Kill` on nil and panics. The model treats `kill` as an oracle answer instead, so its `findProcess.Failure?` paths (Kill, then the kill warning or a spawn) stand for a crash in the source.
- CleanupRuntime: its client is the one `InitRuntime` leaves, passed as a parameter. How a second `Close` on an already closed client behaves is the answer `close`, an oracle input.
