/**
 * What the daemon supervision of InitRuntime guarantees, stated about the
 * reference definition in ClientCommon (which the imperative methods are
 * proved to compute).
 */
module SupervisorProperties {
  import opened ClientCommon

  // ---------------------------------------------------------------------
  // Vocabulary
  // ---------------------------------------------------------------------

  /** The paths left after defaulting let InitRuntime talk to a daemon (line 59). */
  predicate Engaged(sockpath: string, dbpath: string, env: Env) {
    var p := ResolvePaths(sockpath, dbpath, env).paths;
    p.sockpath != "" && p.dbpath != ""
  }

  /** A trace made only of Version calls, sleeps, the upgrade notice and the timeout message. */
  predicate OnlyPollOutput(t: seq<Action>) {
    forall a :: a in t ==>
      a == Version || a == Sleep || a == Print(UpgradeDbNotice) || a == Print(WaitTimeout(DaemonWaitTotalMs))
  }

  /** The environment lets InitRuntime retire an outdated daemon (lines 77-97). */
  predicate Replaces(env: Env) {
    && env.stat.Exists?
    && env.version.Ok? && env.version.value < env.wantVersion
    && env.pid.Ok?
    && (env.findProcess.Success? || env.kill.Success?)
  }

  /** What Spawn adds to the trace: the call, and the warning when it fails. */
  function SpawnLog(env: Env): seq<Action> {
    if env.spawn.Success? then [Spawn] else [Spawn, Print(SpawnWarning)]
  }

  // ---------------------------------------------------------------------
  // The wait loop (runtime.go:108-121)
  // ---------------------------------------------------------------------

  /** A plain error on an iteration before the last leads to a sleep and the next iteration. */
  lemma PollsStep(poll: nat -> Reply<int>, i: nat)
    requires i < DaemonWaitLoops && IsPlainError(poll(i))
    ensures Polls(poll, i).trace == [Version, Sleep] + Polls(poll, i + 1).trace
    ensures Polls(poll, i).exit == Polls(poll, i + 1).exit
  {
    WaitLoopExtends(poll, i + 1, [] + [Version] + [Sleep]);
  }

  /**
   * The loop from iteration i starts with a Version call, calls nothing but
   * Version and Sleep, prints nothing but the upgrade notice and the
   * timeout message, and leaves through one of its three exits.
   */
  lemma {:induction false} PollsShape(poll: nat -> Reply<int>, i: nat)
    requires i <= DaemonWaitLoops
    ensures |Polls(poll, i).trace| > 0 && Polls(poll, i).trace[0] == Version
    ensures OnlyPollOutput(Polls(poll, i).trace)
    ensures IsWaitExit(Polls(poll, i).exit)
    decreases DaemonWaitLoops - i
  {
    if i < DaemonWaitLoops && IsPlainError(poll(i)) {
      PollsStep(poll, i);
      PollsShape(poll, i + 1);
    }
  }

  /** An iteration that stops the loop calls Version once and at most prints one message. */
  lemma PollsLast(poll: nat -> Reply<int>, i: nat)
    requires i <= DaemonWaitLoops && !(i < DaemonWaitLoops && IsPlainError(poll(i)))
    ensures Polls(poll, i).trace == [Version]
            || Polls(poll, i).trace == [Version, Print(UpgradeDbNotice)]
            || Polls(poll, i).trace == [Version, Print(WaitTimeout(DaemonWaitTotalMs))]
    ensures Sleep !in Polls(poll, i).trace && multiset(Polls(poll, i).trace)[Version] == 1
  {
  }

  /** Counting an action in a concatenation of traces. */
  lemma CountAppend(a: seq<Action>, b: seq<Action>, x: Action)
    ensures multiset(a + b)[x] == multiset(a)[x] + multiset(b)[x]
  {
    assert multiset(a + b) == multiset(a) + multiset(b);
  }

  /** The loop from iteration i makes between 1 and DaemonWaitLoops - i + 1 Version calls. */
  lemma {:induction false} PollsVersionCount(poll: nat -> Reply<int>, i: nat)
    requires i <= DaemonWaitLoops
    ensures 1 <= multiset(Polls(poll, i).trace)[Version] <= DaemonWaitLoops - i + 1
    decreases DaemonWaitLoops - i
  {
    if i < DaemonWaitLoops && IsPlainError(poll(i)) {
      PollsStep(poll, i);
      PollsVersionCount(poll, i + 1);
      CountAppend([Version, Sleep], Polls(poll, i + 1).trace, Version);
    } else {
      PollsLast(poll, i);
    }
  }

  /** The loop sleeps once fewer than it calls Version: never after its last attempt. */
  lemma {:induction false} PollsSleepCount(poll: nat -> Reply<int>, i: nat)
    requires i <= DaemonWaitLoops
    ensures multiset(Polls(poll, i).trace)[Sleep] + 1 == multiset(Polls(poll, i).trace)[Version]
    decreases DaemonWaitLoops - i
  {
    if i < DaemonWaitLoops && IsPlainError(poll(i)) {
      PollsStep(poll, i);
      PollsSleepCount(poll, i + 1);
      CountAppend([Version, Sleep], Polls(poll, i + 1).trace, Version);
      CountAppend([Version, Sleep], Polls(poll, i + 1).trace, Sleep);
    } else {
      PollsLast(poll, i);
    }
  }

  /**
   * The loop prints the upgrade notice once when it leaves through the
   * invalid-database exit and the timeout message once when it times out,
   * and neither otherwise.
   */
  lemma {:induction false} PollsMessageCounts(poll: nat -> Reply<int>, i: nat)
    requires i <= DaemonWaitLoops
    ensures multiset(Polls(poll, i).trace)[Print(UpgradeDbNotice)]
            == if Polls(poll, i).exit == DatabaseNeedsUpgrade then 1 else 0
    ensures multiset(Polls(poll, i).trace)[Print(WaitTimeout(DaemonWaitTotalMs))]
            == if Polls(poll, i).exit == WaitTimedOut then 1 else 0
    decreases DaemonWaitLoops - i
  {
    if i < DaemonWaitLoops && IsPlainError(poll(i)) {
      PollsStep(poll, i);
      PollsMessageCounts(poll, i + 1);
      CountAppend([Version, Sleep], Polls(poll, i + 1).trace, Print(UpgradeDbNotice));
      CountAppend([Version, Sleep], Polls(poll, i + 1).trace, Print(WaitTimeout(DaemonWaitTotalMs)));
    }
  }

  /** Every sleep sits between two Version calls: the loop never sleeps after its last attempt. */
  lemma {:induction false} PollsSleepBetweenAttempts(poll: nat -> Reply<int>, i: nat)
    requires i <= DaemonWaitLoops
    ensures var t := Polls(poll, i).trace;
            forall k :: 0 <= k < |t| && t[k] == Sleep ==> 0 < k < |t| - 1 && t[k - 1] == Version && t[k + 1] == Version
    decreases DaemonWaitLoops - i
  {
    if i < DaemonWaitLoops && IsPlainError(poll(i)) {
      PollsStep(poll, i);
      PollsShape(poll, i + 1);
      PollsSleepBetweenAttempts(poll, i + 1);
      var t := Polls(poll, i).trace;
      var t' := Polls(poll, i + 1).trace;
      forall k | 0 <= k < |t| && t[k] == Sleep
        ensures 0 < k < |t| - 1 && t[k - 1] == Version && t[k + 1] == Version
      {
        if k >= 2 {
          assert t[k] == t'[k - 2];
        }
      }
    }
  }

  /**
   * If iteration k is the first whose answer is not a plain error, the loop
   * stops there: after k - i + 1 Version calls, online when the answer is a
   * version and with the upgrade notice when it is bolt's invalid-database
   * error, and without the timeout message.
   */
  lemma {:induction false} PollsStopAtFirstAnswer(poll: nat -> Reply<int>, i: nat, k: nat)
    requires i <= k <= DaemonWaitLoops
    requires forall j :: i <= j < k ==> IsPlainError(poll(j))
    requires !IsPlainError(poll(k))
    ensures Polls(poll, i).exit == if poll(k).Ok? then DaemonOnline else DatabaseNeedsUpgrade
    ensures multiset(Polls(poll, i).trace)[Version] == k - i + 1
    ensures Print(WaitTimeout(DaemonWaitTotalMs)) !in Polls(poll, i).trace
    ensures multiset(Polls(poll, i).trace)[Print(UpgradeDbNotice)] == if poll(k).Ok? then 0 else 1
    decreases k - i
  {
    if i < k {
      PollsStep(poll, i);
      PollsStopAtFirstAnswer(poll, i + 1, k);
      CountAppend([Version, Sleep], Polls(poll, i + 1).trace, Version);
      CountAppend([Version, Sleep], Polls(poll, i + 1).trace, Print(UpgradeDbNotice));
    } else {
      PollsMessageCounts(poll, i);
    }
  }

  /**
   * The loop times out exactly when every remaining attempt, up to and
   * including i == DaemonWaitLoops, fails with a plain error; it then has
   * made every remaining Version call.
   */
  lemma {:induction false} PollsTimeoutExactly(poll: nat -> Reply<int>, i: nat)
    requires i <= DaemonWaitLoops
    ensures Polls(poll, i).exit == WaitTimedOut
            <==> forall j :: i <= j <= DaemonWaitLoops ==> IsPlainError(poll(j))
    ensures Polls(poll, i).exit == WaitTimedOut
            ==> multiset(Polls(poll, i).trace)[Version] == DaemonWaitLoops - i + 1
    decreases DaemonWaitLoops - i
  {
    if IsPlainError(poll(i)) && i < DaemonWaitLoops {
      PollsStep(poll, i);
      PollsTimeoutExactly(poll, i + 1);
      CountAppend([Version, Sleep], Polls(poll, i + 1).trace, Version);
      if Polls(poll, i).exit == WaitTimedOut {
        forall j | i <= j <= DaemonWaitLoops ensures IsPlainError(poll(j)) {
          if j > i {
            assert i + 1 <= j;
          }
        }
      }
    } else if !IsPlainError(poll(i)) {
      assert !(forall j :: i <= j <= DaemonWaitLoops ==> IsPlainError(poll(j)));
    }
  }

  /**
   * The loop makes at most DaemonWaitLoops + 1 = 101 Version calls and sleeps
   * at most DaemonWaitTotalMs in all; on a timeout it has slept all of it.
   */
  lemma WaitWithinBudget(poll: nat -> Reply<int>)
    ensures multiset(Polls(poll, 0).trace)[Version] <= DaemonWaitLoops + 1
    ensures multiset(Polls(poll, 0).trace)[Sleep] * DaemonWaitOneLoopMs <= DaemonWaitTotalMs
    ensures Polls(poll, 0).exit == WaitTimedOut
            ==> multiset(Polls(poll, 0).trace)[Sleep] * DaemonWaitOneLoopMs == DaemonWaitTotalMs
  {
    PollsVersionCount(poll, 0);
    PollsSleepCount(poll, 0);
    PollsTimeoutExactly(poll, 0);
  }

  /** The wait loop calls nothing but Version and Sleep and prints nothing but its two messages. */
  lemma PollsLack(poll: nat -> Reply<int>, x: Action)
    requires x != Version && x != Sleep && x != Print(UpgradeDbNotice) && x != Print(WaitTimeout(DaemonWaitTotalMs))
    ensures x !in Polls(poll, 0).trace && multiset(Polls(poll, 0).trace)[x] == 0
  {
    PollsShape(poll, 0);
  }

  // ---------------------------------------------------------------------
  // The daemon interaction, branch by branch (runtime.go:60-122)
  // ---------------------------------------------------------------------

  /** Spawning appends the spawn call (and its warning) and then the whole wait loop. */
  lemma SpawnAndWaitIs(cl: Client, env: Env, log: seq<Action>)
    ensures SpawnAndWait(cl, env, log)
            == Stage(log + SpawnLog(env) + Polls(env.poll, 0).trace, cl, Polls(env.poll, 0).exit)
  {
    var l := if env.spawn.Success? then log + [Spawn] else log + [Spawn] + [Print(SpawnWarning)];
    assert l == log + SpawnLog(env);
    WaitLoopExtends(env.poll, 0, l);
  }

  /** No socket file: spawn at once and wait. */
  lemma NoSocketBranch(sock: string, env: Env)
    requires env.stat.NotExist?
    ensures Interaction(sock, env)
            == Stage([NewClient, Stat] + SpawnLog(env) + Polls(env.poll, 0).trace, Conn(sock, false), Polls(env.poll, 0).exit)
  {
    SpawnAndWaitIs(Conn(sock, false), env, [] + [NewClient] + [Stat]);
  }

  /** The trace of the kill step on an outdated daemon whose pid is p. */
  function KillLog(p: int, env: Env): seq<Action> {
    [NewClient, Stat, Version, Pid, Close, FindProcess(p)] + (if env.findProcess.Failure? then [Kill] else [])
  }

  /** An outdated daemon was retired: spawn and wait, polling the client closed before. */
  lemma ReplacedBranch(sock: string, env: Env)
    requires Replaces(env)
    ensures Interaction(sock, env)
            == Stage(KillLog(env.pid.value, env) + SpawnLog(env) + Polls(env.poll, 0).trace,
                     Conn(sock, true), Polls(env.poll, 0).exit)
  {
    var k := KillStep(env.pid.value, env, [] + [NewClient] + [Stat] + [Version] + [Pid] + [Close]);
    assert k.trace == KillLog(env.pid.value, env);
    SpawnAndWaitIs(Conn(sock, true), env, k.trace);
  }

  /** The kill step failed: drop the client. */
  lemma KillFailedBranch(sock: string, env: Env)
    requires env.stat.Exists? && env.version.Ok? && env.version.value < env.wantVersion && env.pid.Ok?
    requires env.findProcess.Failure? && env.kill.Failure?
    ensures Interaction(sock, env) == Stage(KillLog(env.pid.value, env) + [Print(KillWarning)], Nil, KillFailed)
  {
  }

  /** Every exit of the interaction, and which client it leaves. */
  lemma InteractionExits(sock: string, env: Env)
    ensures var s := Interaction(sock, env);
            && s.exit != NoDaemonPaths
            && (s.client == Nil <==> s.exit == PidRpcFailed || s.exit == KillFailed)
            && (s.client.Conn? ==> s.client.sock == sock)
            && (s.client == Conn(sock, true) <==> Replaces(env))
            && (IsWaitExit(s.exit) <==> env.stat.NotExist? || Replaces(env))
  {
    PollsShape(env.poll, 0);
    if env.stat.NotExist? {
      NoSocketBranch(sock, env);
    } else if Replaces(env) {
      ReplacedBranch(sock, env);
    }
  }

  // ---------------------------------------------------------------------
  // Properties of the daemon interaction
  // ---------------------------------------------------------------------

  /**
   * When the socket exists and the daemon reports a version at least the
   * wanted one, the client is kept as created and the only calls are the
   * client's creation, stat and one Version: neither Pid, FindProcess,
   * Kill nor Spawn is invoked.
   */
  lemma UpToDateDaemonKept(sock: string, env: Env)
    requires env.stat.Exists? && env.version.Ok? && env.version.value >= env.wantVersion
    ensures var s := Interaction(sock, env);
            && s.exit == DaemonUpToDate
            && s.client == Conn(sock, false)
            && s.trace == [NewClient, Stat, Version]
  {
  }

  /**
   * When the socket exists but the first Version call fails, a warning is
   * printed, followed by the upgrade notice exactly when the error text is
   * bolt's invalid-database text; nothing is spawned or polled, and the
   * client is left as created.
   */
  lemma VersionFailureKeepsClient(sock: string, env: Env)
    requires env.stat.Exists? && env.version.Err?
    ensures var s := Interaction(sock, env);
            && s.exit == VersionRpcFailed
            && s.client == Conn(sock, false)
            && s.trace == [NewClient, Stat, Version, Print(VersionRpcWarning)]
                          + (if IsBoltInvalid(env.version.error) then [Print(UpgradeDbNotice)] else [])
  {
  }

  /**
   * When Pid fails on an outdated daemon, a warning is printed, the client
   * is closed and dropped, and nothing is killed or spawned.
   */
  lemma PidFailureDropsClient(sock: string, env: Env)
    requires env.stat.Exists? && env.version.Ok? && env.version.value < env.wantVersion && env.pid.Err?
    ensures var s := Interaction(sock, env);
            && s.exit == PidRpcFailed && s.client == Nil
            && s.trace == [NewClient, Stat, Version, Pid, Print(PidRpcWarning), Close]
  {
  }

  /**
   * Any stat error other than a missing socket file ends the interaction
   * right after stat, keeping the client as created.
   */
  lemma StatErrorStops(sock: string, env: Env)
    requires env.stat.StatError?
    ensures Interaction(sock, env) == Stage([NewClient, Stat], Conn(sock, false), StatFailed)
  {
  }

  /**
   * On an outdated daemon whose pid is known, Pid, Close and FindProcess are
   * called in that order right after the first Version call, and Kill is
   * called exactly when FindProcess failed: a process that was found counts
   * as killed although no signal is sent.
   */
  lemma OutdatedDaemonKillOrder(sock: string, env: Env)
    requires env.stat.Exists? && env.version.Ok? && env.version.value < env.wantVersion && env.pid.Ok?
    ensures var s := Interaction(sock, env);
            && |s.trace| >= 6
            && s.trace[..6] == [NewClient, Stat, Version, Pid, Close, FindProcess(env.pid.value)]
            && (Kill in s.trace <==> env.findProcess.Failure?)
  {
    var pre := KillLog(env.pid.value, env);
    if Replaces(env) {
      ReplacedBranch(sock, env);
      PollsLack(env.poll, Kill);
      assert (pre + SpawnLog(env) + Polls(env.poll, 0).trace)[..6] == pre[..6];
    } else {
      KillFailedBranch(sock, env);
      assert (pre + [Print(KillWarning)])[..6] == pre[..6];
    }
  }

  /**
   * On an outdated daemon whose pid is known, the kill step fails exactly
   * when FindProcess and Kill both fail; the client is then dropped and
   * nothing is spawned. Otherwise the new daemon is spawned, the wait loop
   * decides the exit, and the client kept is the one closed before the
   * kill step.
   */
  lemma OutdatedDaemonOutcome(sock: string, env: Env)
    requires env.stat.Exists? && env.version.Ok? && env.version.value < env.wantVersion && env.pid.Ok?
    ensures var s := Interaction(sock, env);
            && (s.exit == KillFailed <==> env.findProcess.Failure? && env.kill.Failure?)
            && (s.exit == KillFailed ==> s.client == Nil && Spawn !in s.trace)
            && (s.exit != KillFailed ==> s.client == Conn(sock, true) && IsWaitExit(s.exit) && Spawn in s.trace)
  {
    if Replaces(env) {
      ReplacedBranch(sock, env);
      PollsShape(env.poll, 0);
    } else {
      KillFailedBranch(sock, env);
    }
  }

  /**
   * Spawn is called exactly when stat reported a missing socket file or an
   * outdated daemon was retired; once it is called, whether or not it
   * failed, the wait loop decides the exit and the client is kept.
   */
  lemma SpawnExactly(sock: string, env: Env)
    ensures var s := Interaction(sock, env);
            && (Spawn in s.trace <==> env.stat.NotExist? || Replaces(env))
            && (Spawn in s.trace ==> IsWaitExit(s.exit) && s.client.Conn?)
  {
    InteractionExits(sock, env);
    if env.stat.NotExist? {
      NoSocketBranch(sock, env);
    } else if Replaces(env) {
      ReplacedBranch(sock, env);
    } else if env.stat.Exists? && env.version.Ok? && env.version.value < env.wantVersion && env.pid.Ok? {
      KillFailedBranch(sock, env);
    }
  }

  /**
   * With no socket file, Spawn is the first call after stat, before any
   * RPC, neither Pid nor Kill is ever called, and the wait loop decides
   * the exit.
   */
  lemma NoSocketSpawnsFirst(sock: string, env: Env)
    requires env.stat.NotExist?
    ensures var s := Interaction(sock, env);
            && |s.trace| >= 3
            && s.trace[..3] == [NewClient, Stat, Spawn]
            && Pid !in s.trace && Kill !in s.trace
            && IsWaitExit(s.exit)
  {
    NoSocketBranch(sock, env);
    PollsShape(env.poll, 0);
    var pre := [NewClient, Stat] + SpawnLog(env);
    assert (pre + Polls(env.poll, 0).trace)[..3] == pre[..3];
  }

  /**
   * The upgrade notice is printed exactly when the first Version call or
   * the wait loop got bolt's invalid-database error.
   */
  lemma UpgradeNoticeExactly(sock: string, env: Env)
    ensures var s := Interaction(sock, env);
            Print(UpgradeDbNotice) in s.trace
            <==> s.exit == DatabaseNeedsUpgrade
                 || (s.exit == VersionRpcFailed && env.version.Err? && IsBoltInvalid(env.version.error))
  {
    if env.stat.NotExist? {
      NoSocketBranch(sock, env);
      PollsShape(env.poll, 0);
      PollsMessageCounts(env.poll, 0);
    } else if Replaces(env) {
      ReplacedBranch(sock, env);
      PollsShape(env.poll, 0);
      PollsMessageCounts(env.poll, 0);
    } else if env.stat.Exists? && env.version.Ok? && env.version.value < env.wantVersion && env.pid.Ok? {
      KillFailedBranch(sock, env);
    }
  }

  /**
   * After an outdated daemon was replaced, the client kept is the one
   * already closed at line 85, so CleanupRuntime, which closes every
   * non-nil client, closes it a second time.
   */
  lemma ReplacedClientAlreadyClosed(sock: string, env: Env)
    requires Replaces(env)
    ensures var s := Interaction(sock, env);
            s.client == Conn(sock, true) && Close in s.trace
  {
    ReplacedBranch(sock, env);
  }

  // ---------------------------------------------------------------------
  // The whole run: path defaulting (runtime.go:32-57) and the guard of line 59
  // ---------------------------------------------------------------------

  /** The path warnings come first; the interaction follows when the paths are set. */
  lemma SuperviseSplits(binpath: string, sockpath: string, dbpath: string, env: Env)
    ensures var r := ResolvePaths(sockpath, dbpath, env);
            && r.trace == (if env.dataDir.ok then [] else [Print(DataDirWarning)])
                          + (if env.secureRunDir.ok then [] else [Print(RunDirFallbackWarning)])
            && r.trace <= Supervise(binpath, sockpath, dbpath, env).trace
    ensures var r := ResolvePaths(sockpath, dbpath, env);
            var o := Supervise(binpath, sockpath, dbpath, env);
            Engaged(sockpath, dbpath, env)
            ==> o.trace == r.trace + Interaction(r.paths.sockpath, env).trace
                && o.client == Interaction(r.paths.sockpath, env).client
                && o.exit == Interaction(r.paths.sockpath, env).exit
  {
    var r := ResolvePaths(sockpath, dbpath, env);
    ProbeExtends(r.paths.sockpath, env, r.trace);
  }

  /**
   * dbpath becomes dataDir/db only when it was empty and the data directory
   * was obtained; runDir falls back to the data directory when the secure
   * run directory fails; sockpath becomes runDir/sock only when it was empty,
   * so it is never empty afterwards; LogPathPrefix is always
   * runDir/daemon.log-.
   */
  lemma PathDefaults(binpath: string, sockpath: string, dbpath: string, env: Env)
    ensures var o := Supervise(binpath, sockpath, dbpath, env);
            && o.paths.dataDir == env.dataDir.dir
            && o.paths.dbpath == (if dbpath == "" && env.dataDir.ok then Join(env.dataDir.dir, "db") else dbpath)
            && o.paths.runDir == (if env.secureRunDir.ok then env.secureRunDir.dir else env.dataDir.dir)
            && o.paths.sockpath == (if sockpath == "" then Join(o.paths.runDir, "sock") else sockpath)
            && o.paths.sockpath != ""
            && o.daemon == Daemon(binpath, o.paths.dbpath, o.paths.sockpath, Join(o.paths.runDir, "daemon.log-"))
  {
  }

  /**
   * The run begins with the path warnings: the data-directory warning
   * exactly when the data directory could not be obtained, then the
   * fallback warning exactly when the secure run directory could not.
   */
  lemma PathWarnings(binpath: string, sockpath: string, dbpath: string, env: Env)
    ensures var w := (if env.dataDir.ok then [] else [Print(DataDirWarning)])
                     + (if env.secureRunDir.ok then [] else [Print(RunDirFallbackWarning)]);
            w <= Supervise(binpath, sockpath, dbpath, env).trace
    ensures var o := Supervise(binpath, sockpath, dbpath, env);
            && (Print(DataDirWarning) in o.trace <==> !env.dataDir.ok)
            && (Print(RunDirFallbackWarning) in o.trace <==> !env.secureRunDir.ok)
  {
    SuperviseSplits(binpath, sockpath, dbpath, env);
    InteractionPrintsNoPathWarning(ResolvePaths(sockpath, dbpath, env).paths.sockpath, env);
  }

  /** The daemon interaction never prints either path warning. */
  lemma InteractionPrintsNoPathWarning(sock: string, env: Env)
    ensures Print(DataDirWarning) !in Interaction(sock, env).trace
    ensures Print(RunDirFallbackWarning) !in Interaction(sock, env).trace
  {
    var w := Polls(env.poll, 0).trace;
    if env.stat.NotExist? {
      NoSocketBranch(sock, env);
      PollsLack(env.poll, Print(DataDirWarning));
      PollsLack(env.poll, Print(RunDirFallbackWarning));
      SpawnedLacks([NewClient, Stat], env, w, DataDirWarning);
      SpawnedLacks([NewClient, Stat], env, w, RunDirFallbackWarning);
    } else if Replaces(env) {
      ReplacedBranch(sock, env);
      PollsLack(env.poll, Print(DataDirWarning));
      PollsLack(env.poll, Print(RunDirFallbackWarning));
      SpawnedLacks(KillLog(env.pid.value, env), env, w, DataDirWarning);
      SpawnedLacks(KillLog(env.pid.value, env), env, w, RunDirFallbackWarning);
    } else if env.stat.StatError? {
      StatErrorStops(sock, env);
    } else if env.version.Err? {
      VersionFailureKeepsClient(sock, env);
    } else if env.version.value >= env.wantVersion {
      UpToDateDaemonKept(sock, env);
    } else if env.pid.Err? {
      PidFailureDropsClient(sock, env);
    } else {
      KillFailedBranch(sock, env);
    }
  }

  /** A message other than the spawn warning, absent before and after a spawn, is absent from the whole. */
  lemma SpawnedLacks(pre: seq<Action>, env: Env, w: seq<Action>, n: Notice)
    requires n != SpawnWarning
    requires Print(n) !in pre && Print(n) !in w
    ensures Print(n) !in pre + SpawnLog(env) + w
  {
  }

  /**
   * When sockpath or dbpath is empty after defaulting, no client is created
   * and nothing is asked of the socket or the processes: the trace holds
   * the path warnings only.
   */
  lemma NoPathsNoInteraction(binpath: string, sockpath: string, dbpath: string, env: Env)
    requires var o := Supervise(binpath, sockpath, dbpath, env); o.paths.sockpath == "" || o.paths.dbpath == ""
    ensures var o := Supervise(binpath, sockpath, dbpath, env);
            && o.client == Nil
            && o.exit == NoDaemonPaths
            && (forall a :: a in o.trace ==> a == Print(DataDirWarning) || a == Print(RunDirFallbackWarning))
  {
  }

  /**
   * The daemon is left alone exactly when dbpath stays empty, that is when
   * it was empty and the data directory could not be obtained.
   */
  lemma NoDaemonPathsExactly(binpath: string, sockpath: string, dbpath: string, env: Env)
    ensures Supervise(binpath, sockpath, dbpath, env).exit == NoDaemonPaths
            <==> dbpath == "" && !env.dataDir.ok
  {
    SuperviseSplits(binpath, sockpath, dbpath, env);
    InteractionExits(ResolvePaths(sockpath, dbpath, env).paths.sockpath, env);
  }

  /**
   * The client InitRuntime leaves is nil exactly when defaulting left a path
   * empty, Pid failed or the kill step failed; in particular it is kept
   * after a failed first Version call and after the wait loop's
   * invalid-database and timeout exits. A kept client is bound to sockpath.
   */
  lemma ClientNilExactly(binpath: string, sockpath: string, dbpath: string, env: Env)
    ensures var o := Supervise(binpath, sockpath, dbpath, env);
            && (o.client == Nil <==> o.exit == NoDaemonPaths || o.exit == PidRpcFailed || o.exit == KillFailed)
            && (o.client.Conn? ==> o.client.sock == o.paths.sockpath)
  {
    SuperviseSplits(binpath, sockpath, dbpath, env);
    InteractionExits(ResolvePaths(sockpath, dbpath, env).paths.sockpath, env);
  }
}
