/** Which ports are reserved, over every run, and the one way a port is lost. */
module Ports {
  import opened Wrappers
  import opened Lifecycle
  import opened LifecycleProofs

  // ---------------------------------------------------------------- what a failed boot gives back

  /** The boot gets as far as spawning the child, and then the log file does not open. */
  predicate Leaks(s: SupState, name: string, env: BootEnv) {
    Precheck(s, name, env).Ok? && env.spawn.Spawned? && !env.logOpens
  }

  /** A failed boot leaves the ports, and everything else, as they were, unless it fails at opening the log. */
  lemma FailedBootExactly(s: SupState, name: string, idle: Option<nat>, env: BootEnv)
    ensures UpResult(s, name, env) == Err(LogFailed) <==> Leaks(s, name, env)
    ensures UpResult(s, name, env).Err? ==>
              (Up(s, name, idle, env).reserved == s.reserved <==> !Leaks(s, name, env))
    ensures UpResult(s, name, env).Err? ==> (Up(s, name, idle, env) == s <==> !Leaks(s, name, env))
    ensures Leaks(s, name, env) ==> Up(s, name, idle, env).watchers == s.watchers
  {
    if Leaks(s, name, env) {
      var port := Precheck(s, name, env).value;
      assert port in Up(s, name, idle, env).reserved;
    }
  }

  /** A leak from the start: the port is taken, and nothing runs or is watched. */
  lemma LeakHappens(name: string, pid: nat, port: nat)
    ensures var s := Run(INIT, [Boot(name, None, BootEnv(true, [Some(port)], true, Spawned(pid), false))]);
            s.reserved == {port} && s.watchers == map[] && s.apps == map[]
  {
    var env := BootEnv(true, [Some(port)], true, Spawned(pid), false);
    RunOne(INIT, Boot(name, None, env));
    assert FreePort(env.draws, {}, 0) == Ok(port);
  }

  // ---------------------------------------------------------------- over a run

  predicate LeakedAt(s: SupState, a: Action, port: nat) {
    a.Boot? && Leaks(s, a.name, a.env) && Precheck(s, a.name, a.env) == Ok(port)
  }

  /** Some boot on the way got `port` and failed at opening its log. */
  predicate LeakedDuring(s: SupState, acts: seq<Action>, port: nat) {
    acts != [] &&
    var front := acts[..|acts| - 1];
    LeakedDuring(s, front, port) || LeakedAt(Run(s, front), acts[|acts| - 1], port)
  }

  lemma ApplyLeaks(s: SupState, a: Action, port: nat)
    ensures port in Apply(s, a).leaked <==> port in s.leaked || LeakedAt(s, a, port)
  {
    if a.Boot? {
      FailedBootExactly(s, a.name, a.idle, a.env);
    }
  }

  /** The leaked ports are exactly those of boots that failed at opening the log. */
  lemma {:induction false} LeakedExactly(s: SupState, acts: seq<Action>, port: nat)
    ensures port in Run(s, acts).leaked <==> port in s.leaked || LeakedDuring(s, acts, port)
    decreases |acts|
  {
    if acts != [] {
      var front := acts[..|acts| - 1];
      LeakedExactly(s, front, port);
      ApplyLeaks(Run(s, front), acts[|acts| - 1], port);
    }
  }

  predicate UsesPort(s: SupState, name: string, port: nat) {
    StateIn(s.apps, name).Running? && StateIn(s.apps, name).port == port
  }

  lemma WatchedPort(s: SupState, port: nat)
    requires Inv(s)
    ensures (exists n :: UsesPort(s, n, port)) <==> exists id :: id in s.watchers && s.watchers[id].port == port
  {
    if n :| UsesPort(s, n, port) {
      assert EntryOk(s, n);
      assert WatcherOk(s, LastSettled(s.history, n));
    }
    if id :| id in s.watchers && s.watchers[id].port == port {
      assert WatcherOk(s, id);
      assert UsesPort(s, s.watchers[id].name, port);
    }
  }

  /**
   A port is reserved exactly when a running app has it or a boot that failed at opening its log once got
   it, and never both.
   */
  lemma ReservedExactly(acts: seq<Action>, port: nat)
    ensures var s := Run(INIT, acts);
            && (port in s.reserved <==> (exists n :: UsesPort(s, n, port)) || LeakedDuring(INIT, acts, port))
            && !((exists n :: UsesPort(s, n, port)) && LeakedDuring(INIT, acts, port))
  {
    EveryRun(acts);
    LeakedExactly(INIT, acts, port);
    WatchedPort(Run(INIT, acts), port);
  }

  /** Two running apps never share a port. */
  lemma PortsDistinct(acts: seq<Action>, m: string, n: string, port: nat)
    ensures UsesPort(Run(INIT, acts), m, port) && UsesPort(Run(INIT, acts), n, port) ==> m == n
  {
    EveryRun(acts);
    var s := Run(INIT, acts);
    if UsesPort(s, m, port) && UsesPort(s, n, port) {
      assert EntryOk(s, m) && EntryOk(s, n);
      var i, j := LastSettled(s.history, m), LastSettled(s.history, n);
      assert WatcherOk(s, i) && WatcherOk(s, j);
      assert s.watchers[i].port == s.watchers[j].port;
    }
  }

  /** A leaked port is lost for good: it stays reserved, and no later boot is granted it. */
  lemma LeakedForGood(acts: seq<Action>, more: seq<Action>, port: nat, name: string, env: BootEnv)
    requires LeakedDuring(INIT, acts, port)
    ensures var s := Run(INIT, acts + more);
            && port in s.reserved && !(exists n :: UsesPort(s, n, port))
            && Precheck(s, name, env) != Ok(port)
  {
    LeakedExactly(INIT, acts, port);
    RunConcat(INIT, acts, more);
    LeakedExactly(Run(INIT, acts), more, port);
    LeakedExactly(INIT, acts + more, port);
    ReservedExactly(acts + more, port);
  }
}
