/**
 * Daemon supervision performed when an Elvish client starts up
 * (program/clientcommon/runtime.go).
 *
 * InitRuntime fills in default paths, then decides whether to reuse the
 * daemon listening on the socket, replace an outdated one, spawn a new one,
 * or give up. Every call it makes into the operating system or over the
 * socket is replaced by an answer taken from an oracle record `Env`; every
 * call and every message printed is recorded, in order, in a trace.
 *
 * `Supervise` is a recursive reference definition of the whole decision
 * procedure, written as a state machine that threads the trace logged so
 * far through its steps. The imperative methods `InitRuntime`,
 * `ConnectDaemon` and `WaitForDaemon` follow the Go code statement by
 * statement (each `goto spawnDaemonEnd` becomes a `return` with an explicit
 * Exit) and are proved to compute exactly what the reference describes.
 */
module ClientCommon {

  // ---------------------------------------------------------------------
  // Constants (runtime.go:18-22)
  // ---------------------------------------------------------------------

  /** Time slept between two polls of the spawned daemon, in milliseconds. */
  const DaemonWaitOneLoopMs: nat := 10
  /** The poll loop runs for i = 0 .. DaemonWaitLoops, both included. */
  const DaemonWaitLoops: nat := 100
  /** The wait budget that the timeout message reports, in milliseconds. */
  const DaemonWaitTotalMs: nat := DaemonWaitOneLoopMs * DaemonWaitLoops

  /** The text of bolt.ErrInvalid, which the source compares error texts against. */
  const BoltErrInvalidText: string := "invalid database"

  // ---------------------------------------------------------------------
  // Answers of the environment
  // ---------------------------------------------------------------------

  /** An error value; the source only ever inspects its text. */
  datatype Error = Error(text: string)

  /** `err.Error() == bolt.ErrInvalid.Error()` */
  predicate IsBoltInvalid(e: Error) {
    e.text == BoltErrInvalidText
  }

  /** The answer to an RPC that returns a value or an error. */
  datatype Reply<T> = Ok(value: T) | Err(error: Error)

  /** The answer to a call that only returns an error. */
  datatype Status = Success | Failure(error: Error)

  /** What os.Stat says about the socket path. */
  datatype StatReply = Exists | NotExist | StatError(error: Error)

  /**
   * The answer of storedefs.EnsureDataDir or getSecureRunDir: a directory
   * and whether an error came with it (the Go functions return both, and
   * InitRuntime keeps the data directory even when an error came with it).
   */
  datatype DirReply = DirReply(dir: string, ok: bool)

  /**
   * The oracle: the answer to every environment call InitRuntime can make.
   * `poll(i)` is the answer to the Version call on iteration i of the wait
   * loop. `wantVersion` stands for daemonapi.Version.
   */
  datatype Env = Env(
    dataDir: DirReply,        // storedefs.EnsureDataDir()
    secureRunDir: DirReply,   // getSecureRunDir()
    stat: StatReply,          // os.Stat(sockpath)
    version: Reply<int>,      // the first cl.Version()
    pid: Reply<int>,          // cl.Pid()
    findProcess: Status,      // os.FindProcess(pid)
    kill: Status,             // p.Kill()
    spawn: Status,            // toSpawn.Spawn()
    poll: nat -> Reply<int>,  // cl.Version() inside the wait loop
    wantVersion: int)         // daemonapi.Version

  // ---------------------------------------------------------------------
  // What InitRuntime does and produces
  // ---------------------------------------------------------------------

  /** The messages InitRuntime and CleanupRuntime print on standard error. */
  datatype Notice =
    | DataDirWarning          // runtime.go:35
    | RunDirFallbackWarning   // runtime.go:45
    | VersionRpcWarning       // runtime.go:67
    | UpgradeDbNotice         // runtime.go:72 and 114
    | PidRpcWarning           // runtime.go:80
    | KillWarning             // runtime.go:92
    | SpawnWarning            // runtime.go:104
    | WaitTimeout(ms: nat)    // runtime.go:117, reporting daemonWaitTotal
    | CloseWarning            // runtime.go:140

  /** One step of the trace: an environment call, a sleep, or a message. */
  datatype Action =
    | NewClient               // daemonapi.NewClient(sockpath)
    | Stat                    // os.Stat(sockpath)
    | Version                 // cl.Version()
    | Pid                     // cl.Pid()
    | Close                   // cl.Close()
    | FindProcess(pid: int)   // os.FindProcess(pid)
    | Kill                    // p.Kill()
    | Spawn                   // toSpawn.Spawn()
    | Sleep                   // time.Sleep(daemonWaitOneLoop)
    | Print(notice: Notice)

  /** The client variable `cl`: nil, or a client bound to a socket path. */
  datatype Client = Nil | Conn(sock: string, closed: bool)

  /** The paths InitRuntime settles on. */
  datatype Paths = Paths(dataDir: string, dbpath: string, sockpath: string, runDir: string)

  /** The daemon.Daemon value `toSpawn`. */
  datatype Daemon = Daemon(binPath: string, dbPath: string, sockPath: string, logPathPrefix: string)

  /** Where control reaches the label spawnDaemonEnd from. */
  datatype Exit =
    | NoDaemonPaths         // sockpath or dbpath empty: the guard at line 59 fails
    | StatFailed            // os.Stat failed with an error other than not-exist
    | DaemonUpToDate        // the running daemon is recent enough
    | VersionRpcFailed      // goto at line 74
    | PidRpcFailed          // goto at line 83
    | KillFailed            // goto at line 94
    | DaemonOnline          // goto at line 112
    | DatabaseNeedsUpgrade  // goto at line 115
    | WaitTimedOut          // goto at line 118

  /** Everything InitRuntime leaves behind at spawnDaemonEnd. */
  datatype Outcome = Outcome(paths: Paths, daemon: Daemon, trace: seq<Action>, client: Client, exit: Exit)

  /** The exits through which the wait loop leaves. */
  predicate IsWaitExit(x: Exit) {
    x == DaemonOnline || x == DatabaseNeedsUpgrade || x == WaitTimedOut
  }

  /** A poll answer that neither stops nor aborts the wait loop. */
  predicate IsPlainError(r: Reply<int>) {
    r.Err? && !IsBoltInvalid(r.error)
  }

  // ---------------------------------------------------------------------
  // Reference definition
  //
  // Every step takes the trace logged so far and returns it extended; the
  // lemmas *Extends below show that a step only ever appends.
  // ---------------------------------------------------------------------

  /** filepath.Join of a directory and a file name (no path cleaning). */
  function Join(dir: string, name: string): (p: string)
    requires name != ""
    ensures p != ""
    ensures |p| >= |name| && p[|p| - |name|..] == name
  {
    if dir == "" then name else dir + "/" + name
  }

  /** The path defaults of runtime.go:32-50 and the messages they print. */
  datatype Resolved = Resolved(paths: Paths, trace: seq<Action>)

  function ResolvePaths(sockpath: string, dbpath: string, env: Env): Resolved {
    var dataDir := env.dataDir.dir;
    var t := if env.dataDir.ok then [] else [Print(DataDirWarning)];
    var db := if env.dataDir.ok && dbpath == "" then Join(dataDir, "db") else dbpath;
    var runDir := if env.secureRunDir.ok then env.secureRunDir.dir else dataDir;
    var t := if env.secureRunDir.ok then t else t + [Print(RunDirFallbackWarning)];
    var sock := if sockpath == "" then Join(runDir, "sock") else sockpath;
    Resolved(Paths(dataDir, db, sock, runDir), t)
  }

  /** The trace and exit of the wait loop (runtime.go:108-121), from iteration i on. */
  datatype WaitResult = WaitResult(trace: seq<Action>, exit: Exit)

  function WaitLoop(poll: nat -> Reply<int>, i: nat, log: seq<Action>): WaitResult
    requires i <= DaemonWaitLoops
    decreases DaemonWaitLoops - i
  {
    var log := log + [Version];
    var r := poll(i);
    if r.Ok? then WaitResult(log, DaemonOnline)
    else if IsBoltInvalid(r.error) then WaitResult(log + [Print(UpgradeDbNotice)], DatabaseNeedsUpgrade)
    else if i == DaemonWaitLoops then WaitResult(log + [Print(WaitTimeout(DaemonWaitTotalMs))], WaitTimedOut)
    else WaitLoop(poll, i + 1, log + [Sleep])
  }

  /** The wait loop from iteration i on, started with an empty log. */
  function Polls(poll: nat -> Reply<int>, i: nat): WaitResult
    requires i <= DaemonWaitLoops
  {
    WaitLoop(poll, i, [])
  }

  /** The wait loop appends to the log it is given and does not look at it. */
  lemma {:induction false} WaitLoopExtends(poll: nat -> Reply<int>, i: nat, log: seq<Action>)
    requires i <= DaemonWaitLoops
    ensures WaitLoop(poll, i, log).trace == log + Polls(poll, i).trace
    ensures WaitLoop(poll, i, log).exit == Polls(poll, i).exit
    decreases DaemonWaitLoops - i
  {
    var r := poll(i);
    if r.Err? && !IsBoltInvalid(r.error) && i < DaemonWaitLoops {
      WaitLoopExtends(poll, i + 1, log + [Version] + [Sleep]);
      WaitLoopExtends(poll, i + 1, [] + [Version] + [Sleep]);
      AppendAssoc(log, [Version, Sleep], Polls(poll, i + 1).trace);
    }
  }

  /** The trace, client and exit of the daemon interaction (runtime.go:60-122). */
  datatype Stage = Stage(trace: seq<Action>, client: Client, exit: Exit)

  /** Spawn, then poll whatever client is held (runtime.go:100-121). */
  function SpawnAndWait(cl: Client, env: Env, log: seq<Action>): Stage {
    var log := log + [Spawn];
    var log := if env.spawn.Success? then log else log + [Print(SpawnWarning)];
    var w := WaitLoop(env.poll, 0, log);
    Stage(w.trace, cl, w.exit)
  }

  /** The kill step of runtime.go:87-90: Kill is called only when FindProcess failed. */
  datatype KillResult = KillResult(trace: seq<Action>, killed: bool)

  function KillStep(pid: int, env: Env, log: seq<Action>): KillResult {
    var log := log + [FindProcess(pid)];
    if env.findProcess.Failure? then KillResult(log + [Kill], env.kill.Success?)
    else KillResult(log, true)
  }

  function Probe(sock: string, env: Env, log: seq<Action>): Stage {
    var cl := Conn(sock, false);
    var log := log + [NewClient] + [Stat];
    match env.stat
    case StatError(_) => Stage(log, cl, StatFailed)
    case NotExist => SpawnAndWait(cl, env, log)
    case Exists =>
      var log := log + [Version];
      match env.version
      case Err(e) =>
        var log := log + [Print(VersionRpcWarning)];
        Stage(if IsBoltInvalid(e) then log + [Print(UpgradeDbNotice)] else log, cl, VersionRpcFailed)
      case Ok(v) =>
        if v >= env.wantVersion then Stage(log, cl, DaemonUpToDate)
        else
          var log := log + [Pid];
          match env.pid
          case Err(_) => Stage(log + [Print(PidRpcWarning)] + [Close], Nil, PidRpcFailed)
          case Ok(p) =>
            var k := KillStep(p, env, log + [Close]);
            if !k.killed then Stage(k.trace + [Print(KillWarning)], Nil, KillFailed)
            else SpawnAndWait(cl.(closed := true), env, k.trace)
  }

  /** The daemon interaction started with an empty log. */
  function Interaction(sock: string, env: Env): Stage {
    Probe(sock, env, [])
  }

  /** The daemon interaction appends to the log it is given and does not look at it. */
  lemma ProbeExtends(sock: string, env: Env, log: seq<Action>)
    ensures Probe(sock, env, log).trace == log + Interaction(sock, env).trace
    ensures Probe(sock, env, log).client == Interaction(sock, env).client
    ensures Probe(sock, env, log).exit == Interaction(sock, env).exit
  {
    var t0 := log + [NewClient] + [Stat];
    var u0 := [] + [NewClient] + [Stat];
    assert t0 == log + u0;
    if env.stat.NotExist? {
      SpawnExtends(Conn(sock, false), env, log, t0, u0);
    } else if env.stat.Exists? && env.version.Ok? && env.version.value < env.wantVersion && env.pid.Ok? {
      var t1 := t0 + [Version] + [Pid] + [Close];
      var u1 := u0 + [Version] + [Pid] + [Close];
      assert t1 == log + u1;
      var k := KillStep(env.pid.value, env, t1);
      var k' := KillStep(env.pid.value, env, u1);
      assert k.trace == log + k'.trace;
      if k.killed {
        SpawnExtends(Conn(sock, true), env, log, k.trace, k'.trace);
      }
    }
  }

  /** SpawnAndWait on a log that extends another by a fixed prefix. */
  lemma SpawnExtends(cl: Client, env: Env, prefix: seq<Action>, t: seq<Action>, u: seq<Action>)
    requires t == prefix + u
    ensures SpawnAndWait(cl, env, t).trace == prefix + SpawnAndWait(cl, env, u).trace
    ensures SpawnAndWait(cl, env, t).client == cl
    ensures SpawnAndWait(cl, env, t).exit == SpawnAndWait(cl, env, u).exit
  {
    var t2 := if env.spawn.Success? then t + [Spawn] else t + [Spawn] + [Print(SpawnWarning)];
    var u2 := if env.spawn.Success? then u + [Spawn] else u + [Spawn] + [Print(SpawnWarning)];
    assert t2 == prefix + u2;
    WaitLoopExtends(env.poll, 0, t2);
    WaitLoopExtends(env.poll, 0, u2);
    AppendAssoc(prefix, u2, Polls(env.poll, 0).trace);
  }

  /**
   * Concatenation of traces is associative. Dafny knows this; calling the
   * lemma names the one regrouping a proof needs, which keeps it cheap.
   */
  lemma AppendAssoc(a: seq<Action>, b: seq<Action>, c: seq<Action>)
    ensures a + b + c == a + (b + c)
  {
  }

  /** What InitRuntime(binpath, sockpath, dbpath) leaves at spawnDaemonEnd. */
  function Supervise(binpath: string, sockpath: string, dbpath: string, env: Env): Outcome {
    var r := ResolvePaths(sockpath, dbpath, env);
    var p := r.paths;
    var d := Daemon(binpath, p.dbpath, p.sockpath, Join(p.runDir, "daemon.log-"));
    if p.sockpath != "" && p.dbpath != "" then
      var s := Probe(p.sockpath, env, r.trace);
      Outcome(p, d, s.trace, s.client, s.exit)
    else
      Outcome(p, d, r.trace, Nil, NoDaemonPaths)
  }

  // ---------------------------------------------------------------------
  // The imperative model
  // ---------------------------------------------------------------------

  /**
   * InitRuntime (runtime.go:28-124) up to the label spawnDaemonEnd. The
   * parameters sockpath0 and dbpath0 are the caller's arguments, which the
   * body reassigns as the locals sockpath and dbpath.
   */
  method InitRuntime(binpath: string, sockpath0: string, dbpath0: string, env: Env) returns (o: Outcome)
    ensures o == Supervise(binpath, sockpath0, dbpath0, env)
  {
    var trace: seq<Action> := [];
    var sockpath, dbpath := sockpath0, dbpath0;

    var dataDir := env.dataDir.dir;
    if !env.dataDir.ok {
      trace := trace + [Print(DataDirWarning)];
      // Matches the warning-only log of ResolvePaths; without it the postcondition fails.
      assert trace == [Print(DataDirWarning)];
    } else if dbpath == "" {
      dbpath := Join(dataDir, "db");
    }

    var runDir := env.secureRunDir.dir;
    if !env.secureRunDir.ok {
      trace := trace + [Print(RunDirFallbackWarning)];
      runDir := dataDir;
    }
    if sockpath == "" {
      sockpath := Join(runDir, "sock");
    }

    var toSpawn := Daemon(binpath, dbpath, sockpath, Join(runDir, "daemon.log-"));
    var cl: Client := Nil;
    var exit := NoDaemonPaths;
    if sockpath != "" && dbpath != "" {
      var daemonTrace;
      daemonTrace, cl, exit := ConnectDaemon(sockpath, env);
      ProbeExtends(sockpath, env, trace);
      trace := trace + daemonTrace;
    }
    o := Outcome(Paths(dataDir, dbpath, sockpath, runDir), toSpawn, trace, cl, exit);
  }

  /**
   * The body of the `if` at runtime.go:59-123: probe, replace or spawn the
   * daemon. Every `goto spawnDaemonEnd` is a `return` with its Exit.
   */
  method ConnectDaemon(sockpath: string, env: Env) returns (trace: seq<Action>, cl: Client, exit: Exit)
    ensures Stage(trace, cl, exit) == Interaction(sockpath, env)
  {
    trace := [];
    cl := Conn(sockpath, false);
    trace := trace + [NewClient];
    var statErr := env.stat;
    trace := trace + [Stat];
    var killed := false;
    exit := StatFailed;
    if statErr.Exists? {
      trace := trace + [Version];
      if env.version.Err? {
        trace := trace + [Print(VersionRpcWarning)];
        if IsBoltInvalid(env.version.error) {
          trace := trace + [Print(UpgradeDbNotice)];
        }
        exit := VersionRpcFailed;
        return;
      }
      var version := env.version.value;
      exit := DaemonUpToDate;
      if version < env.wantVersion {
        trace := trace + [Pid];
        if env.pid.Err? {
          trace := trace + [Print(PidRpcWarning)];
          trace := trace + [Close];
          cl := Nil;
          exit := PidRpcFailed;
          return;
        }
        var pid := env.pid.value;
        trace := trace + [Close];
        cl := cl.(closed := true);
        trace := trace + [FindProcess(pid)];
        var err := env.findProcess;
        if err.Failure? {
          trace := trace + [Kill];
          err := env.kill;
        }
        if err.Failure? {
          trace := trace + [Print(KillWarning)];
          cl := Nil;
          exit := KillFailed;
          return;
        }
        killed := true;
      }
    }
    if statErr.NotExist? || killed {
      trace := trace + [Spawn];
      if env.spawn.Failure? {
        trace := trace + [Print(SpawnWarning)];
      }
      var waitTrace;
      waitTrace, exit := WaitForDaemon(env.poll);
      WaitLoopExtends(env.poll, 0, trace);
      trace := trace + waitTrace;
    }
  }

  /**
   * The wait loop of runtime.go:108-121: poll Version up to
   * DaemonWaitLoops + 1 times, sleeping between attempts.
   */
  method WaitForDaemon(poll: nat -> Reply<int>) returns (trace: seq<Action>, exit: Exit)
    ensures WaitResult(trace, exit) == Polls(poll, 0)
  {
    trace := [];
    var i: nat := 0;
    while i <= DaemonWaitLoops
      invariant i <= DaemonWaitLoops
      invariant Polls(poll, 0) == WaitLoop(poll, i, trace)
      decreases DaemonWaitLoops - i
    {
      trace := trace + [Version];
      var reply := poll(i);
      if reply.Ok? {
        exit := DaemonOnline;
        return;
      } else if IsBoltInvalid(reply.error) {
        trace := trace + [Print(UpgradeDbNotice)];
        exit := DatabaseNeedsUpgrade;
        return;
      } else if i == DaemonWaitLoops {
        trace := trace + [Print(WaitTimeout(DaemonWaitTotalMs))];
        exit := WaitTimedOut;
        return;
      }
      trace := trace + [Sleep];
      i := i + 1;
    }
    assert false;
  }

  /**
   * CleanupRuntime (runtime.go:136-143): close the client InitRuntime left,
   * if there is one, and warn when closing fails. `close` is the answer of
   * Close.
   */
  method CleanupRuntime(cl: Client, close: Status) returns (trace: seq<Action>)
    ensures (Close in trace) <==> cl.Conn?
    ensures cl.Conn? ==> |trace| >= 1 && trace[0] == Close
    ensures multiset(trace)[Close] <= 1
    ensures (Print(CloseWarning) in trace) <==> cl.Conn? && close.Failure?
    ensures multiset(trace)[Print(CloseWarning)] <= 1
    ensures forall a :: a in trace ==> a == Close || a == Print(CloseWarning)
  {
    trace := [];
    if cl.Conn? {
      trace := trace + [Close];
      if close.Failure? {
        trace := trace + [Print(CloseWarning)];
      }
    }
  }
}
