/**
 What a boot, an idle snapshot and a stop request come to, in terms of what they are given and of nothing
 the code computes with.
 */
module BootOutcomes {
  import opened Wrappers
  import opened Lifecycle

  // ---------------------------------------------------------------- ports

  /** The draws before the `i`-th all came up with ports that are taken. */
  ghost predicate TakenBefore(draws: seq<Option<nat>>, reserved: set<nat>, i: nat) {
    forall j :: 0 <= j < i ==> j < |draws| && draws[j].Some? && draws[j].value in reserved
  }

  /** Of the first 32 draws, the first that is not taken is `port`. */
  ghost predicate FirstFree(draws: seq<Option<nat>>, reserved: set<nat>, port: nat) {
    && port !in reserved
    && exists i: nat :: i < 32 && i < |draws| && draws[i] == Some(port) && TakenBefore(draws, reserved, i)
  }

  /** One of the first 32 binds fails before a port was found. */
  ghost predicate NoBind(draws: seq<Option<nat>>, reserved: set<nat>) {
    exists i: nat :: i < 32 && (i >= |draws| || draws[i].None?) && TakenBefore(draws, reserved, i)
  }

  lemma {:induction false} FreePortFrom(draws: seq<Option<nat>>, reserved: set<nat>, from: nat, port: nat)
    requires from <= 32 && TakenBefore(draws, reserved, from)
    ensures FreePort(draws, reserved, from) == Ok(port) <==> FirstFree(draws, reserved, port)
    ensures FreePort(draws, reserved, from) == Err(BindFailed) <==> NoBind(draws, reserved)
    ensures FreePort(draws, reserved, from) == Err(PortsExhausted) <==> TakenBefore(draws, reserved, 32)
    decreases 32 - from
  {
    if from < 32 {
      if from < |draws| && draws[from].Some? && draws[from].value in reserved {
        FreePortFrom(draws, reserved, from + 1, port);
      } else if from < |draws| && draws[from].Some? {
        assert draws[from] == Some(draws[from].value) && TakenBefore(draws, reserved, from);
      }
    }
  }

  /** A port is granted exactly when it is the first free one; a failure is a failed bind or 32 taken ports. */
  lemma AllocationIsFirstFree(draws: seq<Option<nat>>, reserved: set<nat>, port: nat)
    ensures FreePort(draws, reserved, 0) == Ok(port) <==> FirstFree(draws, reserved, port)
    ensures FreePort(draws, reserved, 0) == Err(BindFailed) <==> NoBind(draws, reserved)
    ensures FreePort(draws, reserved, 0) == Err(PortsExhausted) <==> TakenBefore(draws, reserved, 32)
  {
    FreePortFrom(draws, reserved, 0, port);
  }

  // ---------------------------------------------------------------- boots

  predicate Live(s: SupState, name: string) {
    name in s.apps && s.apps[name].state.Running?
  }

  /** The boot gets as far as a port, and that port is `port`. */
  ghost predicate Granted(s: SupState, name: string, env: BootEnv, port: nat) {
    !Live(s, name) && env.envFileOk && FirstFree(env.draws, s.reserved, port)
  }

  ghost predicate SomeGranted(s: SupState, name: string, env: BootEnv) {
    exists port :: Granted(s, name, env, port)
  }

  /** What has to go wrong, and what before it has to go right, for each error. */
  ghost predicate FailsWith(s: SupState, name: string, env: BootEnv, e: UpError) {
    match e
    case AlreadyRunning => Live(s, name)
    case EnvFileUnreadable => !Live(s, name) && !env.envFileOk
    case BindFailed => !Live(s, name) && env.envFileOk && NoBind(env.draws, s.reserved)
    case PortsExhausted => !Live(s, name) && env.envFileOk && TakenBefore(env.draws, s.reserved, 32)
    case LogDirFailed => SomeGranted(s, name, env) && !env.logDirOk
    case NotSpawned => SomeGranted(s, name, env) && env.logDirOk && env.spawn == SpawnFailed
    case PidUnknown => SomeGranted(s, name, env) && env.logDirOk && env.spawn == NoPid
    case LogFailed => SomeGranted(s, name, env) && env.logDirOk && env.spawn.Spawned? && !env.logOpens
  }

  /** And for the pid. */
  ghost predicate Succeeds(s: SupState, name: string, env: BootEnv, pid: nat) {
    SomeGranted(s, name, env) && env.logDirOk && env.spawn == Spawned(pid) && env.logOpens
  }

  /** A boot succeeds exactly when everything goes right, and each error has its cause, in the code's order. */
  lemma UpExactly(s: SupState, name: string, env: BootEnv, pid: nat, e: UpError)
    ensures UpResult(s, name, env) == Ok(pid) <==> Succeeds(s, name, env, pid)
    ensures UpResult(s, name, env) == Err(e) <==> FailsWith(s, name, env, e)
  {
    AllocationIsFirstFree(env.draws, s.reserved, 0);
    GrantedExactly(s, name, env);
  }

  lemma GrantedExactly(s: SupState, name: string, env: BootEnv)
    ensures SomeGranted(s, name, env) <==>
            !Live(s, name) && env.envFileOk && FreePort(env.draws, s.reserved, 0).Ok?
    ensures SomeGranted(s, name, env) ==> Granted(s, name, env, FreePort(env.draws, s.reserved, 0).value)
  {
    var port := FreePort(env.draws, s.reserved, 0);
    if port.Ok? {
      AllocationIsFirstFree(env.draws, s.reserved, port.value);
      assert !Live(s, name) && env.envFileOk ==> Granted(s, name, env, port.value);
    }
    if p :| Granted(s, name, env, p) {
      AllocationIsFirstFree(env.draws, s.reserved, p);
    }
  }

  /** The entry, port, watcher and event of a boot that succeeded. */
  ghost predicate Started(s: SupState, name: string, idle: Option<nat>, pid: nat, port: nat, s': SupState) {
    && s'.apps == s.apps[name := AppRuntime(Running(pid, port), false, s.clock, idle)]
    && s'.reserved == s.reserved + {port} && s'.leaked == s.leaked && s'.clock == s.clock
    && s'.watchers == s.watchers[|s.history| := Watcher(name, pid, port, None)]
    && s'.history == s.history + [Booted(name, pid, port, s.clock)]
  }

  /** What a boot returns and leaves behind. */
  ghost predicate BootEnds(s: SupState, name: string, idle: Option<nat>, env: BootEnv, r: Result<nat, UpError>,
                           s': SupState)
  {
    match r
    case Ok(pid) =>
      && Succeeds(s, name, env, pid)
      && exists port :: Granted(s, name, env, port) && Started(s, name, idle, pid, port, s')
    case Err(e) =>
      && FailsWith(s, name, env, e)
      && (e != LogFailed ==> s' == s)
      && (e == LogFailed ==> exists port :: Granted(s, name, env, port) && Lost(s, port, s'))
  }

  /** Nothing changed but that `port` is taken for good. */
  predicate Lost(s: SupState, port: nat, s': SupState) {
    s' == s.(reserved := s.reserved + {port}, leaked := s.leaked + {port})
  }

  lemma BootEndsSo(s: SupState, name: string, idle: Option<nat>, env: BootEnv)
    ensures BootEnds(s, name, idle, env, UpResult(s, name, env), Apply(s, Boot(name, idle, env)))
  {
    var r := UpResult(s, name, env);
    UpExactly(s, name, env, if r.Ok? then r.value else 0, if r.Err? then r.error else AlreadyRunning);
    GrantedExactly(s, name, env);
    if r.Ok? {
      assert Started(s, name, idle, r.value, FreePort(env.draws, s.reserved, 0).value, Apply(s, Boot(name, idle, env)));
    }
  }

  // ---------------------------------------------------------------- stop requests and snapshots

  /** `idle` is how long ago the latest activity of the running incarnation was. */
  ghost predicate QuietFor(s: SupState, name: string, idle: nat) {
    && (forall i :: LastSettled(s.history, name) <= i < |s.history| && 0 <= i && Activity(s.history[i], name) ==>
          s.history[i].at + idle <= s.clock)
    && (exists i :: LastSettled(s.history, name) <= i < |s.history| && 0 <= i && Activity(s.history[i], name)
                    && s.history[i].at + idle == s.clock)
  }

  /** The snapshot holds exactly the running apps, each with the time since its latest activity and its own window. */
  lemma CandidatesExactly(s: SupState, name: string, idle: nat, window: Option<nat>)
    requires Inv(s)
    ensures name in Candidates(s) <==> Live(s, name)
    ensures name in Candidates(s) && Candidates(s)[name] == (idle, window) <==>
            Live(s, name) && QuietFor(s, name, idle) && s.apps[name].idleTimeout == window
  {
    assert EntryOk(s, name);
    if Live(s, name) {
      QuietExactly(s, name, idle);
    }
  }

  lemma QuietExactly(s: SupState, name: string, idle: nat)
    requires EntryOk(s, name) && IsRunning(s, name)
    ensures QuietFor(s, name, idle) <==> IdleFor(s, name) == idle
  {
    var last := s.apps[name].lastRequest;
    assert StampedSince(s.history, name, LastSettled(s.history, name), last);
    var i :| 0 <= i < |s.history| && LastSettled(s.history, name) <= i && Activity(s.history[i], name)
             && s.history[i].at == last;
  }

  /** An explicit stop is taken exactly when the app runs; only the scanner's asks for a window. */
  lemma ExplicitStopTaken(s: SupState, name: string)
    ensures StopTaken(s, name, None) <==> Live(s, name)
  {}
}
