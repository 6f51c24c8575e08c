/**
 The supervisor's shared state and the atomic steps that change it.

 Every region the daemon runs under the supervisor mutex is one `Action`, and so is each thing the
 outside world does to a child. A run is any sequence of actions: every interleaving of requests,
 control commands, watchers and scanner sweeps is one of them. `history` records what happened, and
 the index of a `Booted` event identifies the incarnation it started.
 */
module Lifecycle {
  import opened Wrappers

  const PORT_ALLOC_ATTEMPTS: nat := 32

  datatype AppState = Stopped | Running(pid: nat, port: nat) | Crashed(exitCode: int)

  datatype AppRuntime = AppRuntime(
    state: AppState, intentionalStop: bool, lastRequest: nat, idleTimeout: Option<nat>)

  /** What waiting for a child yields: a code, a signal, neither, or a failed wait. */
  datatype ExitStatus = Code(code: int) | Signal(signal: nat) | NoCode | WaitFailed

  /** A detached watcher task; `exit` is set once its child is gone and it only needs the mutex. */
  datatype Watcher = Watcher(name: string, pid: nat, port: nat, exit: Option<ExitStatus>)

  datatype Event =
    | Booted(name: string, pid: nat, port: nat, at: nat)
    | Touched(name: string, at: nat)
    | StopBegun(name: string)
    | Exited(name: string, incarnation: nat, status: ExitStatus)
    | Forgotten(name: string)

  datatype SupState = SupState(
    apps: map<string, AppRuntime>,
    reserved: set<nat>,
    watchers: map<nat, Watcher>,
    leaked: set<nat>,
    history: seq<Event>,
    clock: nat)

  datatype Spawn = SpawnFailed | NoPid | Spawned(pid: nat)

  /** What the outside world answers during one boot. A missing or `None` draw is a failed bind. */
  datatype BootEnv = BootEnv(
    envFileOk: bool, draws: seq<Option<nat>>, logDirOk: bool, spawn: Spawn, logOpens: bool)

  datatype UpError =
    | AlreadyRunning | EnvFileUnreadable | BindFailed | PortsExhausted
    | LogDirFailed | NotSpawned | PidUnknown | LogFailed

  datatype Action =
    | Tick(ms: nat)
    | Boot(name: string, idle: Option<nat>, env: BootEnv)
    | BeginStop(name: string, minIdle: Option<nat>)
    | ChildExit(id: nat, status: ExitStatus)
    | WriteBack(id: nat)
    | Touch(name: string)
    | Forget(name: string)

  const INIT := SupState(map[], {}, map[], {}, [], 0)

  // ---------------------------------------------------------------- steps

  function StateIn(apps: map<string, AppRuntime>, name: string): AppState {
    if name in apps then apps[name].state else Stopped
  }

  predicate IsRunning(s: SupState, name: string) {
    StateIn(s.apps, name).Running?
  }

  function ExitCode(status: ExitStatus): int {
    match status
    case Code(c) => c
    case Signal(sig) => 128 + sig
    case NoCode => -1
    case WaitFailed => -1
  }

  function Draw(draws: seq<Option<nat>>, i: nat): Option<nat> {
    if i < |draws| then draws[i] else None
  }

  /** The first drawn port that is not reserved, looking at draws `i..32`. */
  function FreePort(draws: seq<Option<nat>>, reserved: set<nat>, i: nat): (r: Result<nat, UpError>)
    requires i <= PORT_ALLOC_ATTEMPTS
    ensures r.Ok? ==> r.value !in reserved
    ensures r == Err(BindFailed) || r == Err(PortsExhausted) || r.Ok?
    decreases PORT_ALLOC_ATTEMPTS - i
  {
    if i == PORT_ALLOC_ATTEMPTS then Err(PortsExhausted)
    else match Draw(draws, i)
      case None => Err(BindFailed)
      case Some(p) => if p !in reserved then Ok(p) else FreePort(draws, reserved, i + 1)
  }

  /** The port a boot would take, or why it stops before reserving one. */
  function Precheck(s: SupState, name: string, env: BootEnv): (r: Result<nat, UpError>)
    ensures r.Ok? ==> !IsRunning(s, name) && r.value !in s.reserved
    ensures r == Err(AlreadyRunning) <==> IsRunning(s, name)
    ensures r != Err(LogFailed)
  {
    if IsRunning(s, name) then Err(AlreadyRunning)
    else if !env.envFileOk then Err(EnvFileUnreadable)
    else
      var port := FreePort(env.draws, s.reserved, 0);
      if port.Ok? && !env.logDirOk then Err(LogDirFailed) else port
  }

  function UpResult(s: SupState, name: string, env: BootEnv): (r: Result<nat, UpError>)
    ensures r == Err(AlreadyRunning) <==> IsRunning(s, name)
    ensures r.Ok? ==> Precheck(s, name, env).Ok?
  {
    match Precheck(s, name, env)
    case Err(e) => Err(e)
    case Ok(_) =>
      match env.spawn
      case SpawnFailed => Err(NotSpawned)
      case NoPid => Err(PidUnknown)
      case Spawned(pid) => if env.logOpens then Ok(pid) else Err(LogFailed)
  }

  /** A new incarnation under watch; its id is the index of its boot event. */
  function Launched(s: SupState, name: string, idle: Option<nat>, pid: nat, port: nat): SupState {
    s.(apps := s.apps[name := AppRuntime(Running(pid, port), false, s.clock, idle)],
    reserved := s.reserved + {port},
    watchers := s.watchers[|s.history| := Watcher(name, pid, port, None)],
    history := s.history + [Booted(name, pid, port, s.clock)])
  }

  function Up(s: SupState, name: string, idle: Option<nat>, env: BootEnv): SupState {
    match UpResult(s, name, env)
    case Ok(pid) => Launched(s, name, idle, pid, Precheck(s, name, env).value)
    case Err(LogFailed) =>
      // the child runs unwatched and its port is never given back
      if Precheck(s, name, env).Ok? then
        var port := Precheck(s, name, env).value;
        s.(reserved := s.reserved + {port}, leaked := s.leaked + {port})
      else s
    case Err(_) => s
  }

  /** How long ago `name` last saw a request; a clock behind the stamp counts as no time at all. */
  function IdleFor(s: SupState, name: string): nat
    requires name in s.apps
  {
    if s.clock >= s.apps[name].lastRequest then s.clock - s.apps[name].lastRequest else 0
  }

  /** Every running app with its idle time and window. */
  function Candidates(s: SupState): map<string, (nat, Option<nat>)> {
    map n | n in s.apps && IsRunning(s, n) :: (IdleFor(s, n), s.apps[n].idleTimeout)
  }

  predicate StopTaken(s: SupState, name: string, minIdle: Option<nat>) {
    IsRunning(s, name) && (minIdle.None? || IdleFor(s, name) >= minIdle.value)
  }

  function WithStopFlag(s: SupState, name: string, minIdle: Option<nat>): SupState {
    if !StopTaken(s, name, minIdle) then s
    else s.(apps := s.apps[name := s.apps[name].(intentionalStop := true)], history := s.history + [StopBegun(name)])
  }

  function AfterExit(rt: AppRuntime, status: ExitStatus): AppRuntime {
    rt.(state := if rt.intentionalStop || ExitCode(status) == 0 then Stopped else Crashed(ExitCode(status)),
    intentionalStop := false)
  }

  predicate CanWriteBack(s: SupState, id: nat) {
    id in s.watchers && s.watchers[id].exit.Some?
  }

  /** The watcher knows only its app's name, its port and the exit status. */
  function WriteBackState(s: SupState, id: nat): SupState {
    if !CanWriteBack(s, id) then s
    else
      var w := s.watchers[id];
      s.(apps := if w.name in s.apps then s.apps[w.name := AfterExit(s.apps[w.name], w.exit.value)] else s.apps,
      reserved := s.reserved - {w.port},
      watchers := s.watchers - {id},
      history := s.history + [Exited(w.name, id, w.exit.value)])
  }

  function TouchState(s: SupState, name: string): SupState {
    if !IsRunning(s, name) then s
    else s.(apps := s.apps[name := s.apps[name].(lastRequest := s.clock)],
    history := s.history + [Touched(name, s.clock)])
  }

  function ForgetState(s: SupState, name: string): SupState {
    if name !in s.apps || IsRunning(s, name) then s
    else s.(apps := s.apps - {name}, history := s.history + [Forgotten(name)])
  }

  function Apply(s: SupState, a: Action): SupState {
    match a
    case Tick(ms) => s.(clock := s.clock + ms)
    case Boot(name, idle, env) => Up(s, name, idle, env)
    case BeginStop(name, minIdle) => WithStopFlag(s, name, minIdle)
    case ChildExit(id, status) =>
      if id in s.watchers && s.watchers[id].exit.None?
      then s.(watchers := s.watchers[id := s.watchers[id].(exit := Some(status))]) else s
    case WriteBack(id) => WriteBackState(s, id)
    case Touch(name) => TouchState(s, name)
    case Forget(name) => ForgetState(s, name)
  }

  function Run(s: SupState, acts: seq<Action>): SupState {
    if acts == [] then s else Apply(Run(s, acts[..|acts| - 1]), acts[|acts| - 1])
  }

  lemma {:induction false} RunConcat(s: SupState, a: seq<Action>, b: seq<Action>)
    ensures Run(s, a + b) == Run(Run(s, a), b)
    decreases |b|
  {
    if b == [] {
      assert a + b == a;
    } else {
      var n := |b| - 1;
      assert (a + b)[..|a + b| - 1] == a + b[..n];
      RunConcat(s, a, b[..n]);
    }
  }

  lemma RunOne(s: SupState, a: Action)
    ensures Run(s, [a]) == Apply(s, a)
  {}

  lemma RunThree(s: SupState, a: Action, b: Action, c: Action)
    ensures Run(s, [a, b, c]) == Apply(Apply(Apply(s, a), b), c)
  {
    assert [a, b, c][..2] == [a, b] && [a, b][..1] == [a];
    RunOne(s, a);
  }

  // ---------------------------------------------------------------- what the history says

  /** A boot, an exit or a forget settles what a name's state is. */
  predicate Settles(e: Event, name: string) {
    e.name == name && (e.Booted? || e.Exited? || e.Forgotten?)
  }

  function LastSettled(h: seq<Event>, name: string): (i: int)
    ensures -1 <= i < |h|
    ensures i >= 0 ==> Settles(h[i], name)
    ensures forall j :: i < j < |h| ==> !Settles(h[j], name)
  {
    if h == [] then -1
    else if Settles(h[|h| - 1], name) then |h| - 1
    else LastSettled(h[..|h| - 1], name)
  }

  ghost predicate StopAsked(h: seq<Event>, name: string, from: int, to: int) {
    exists i :: 0 <= i && from < i < to && i < |h| && h[i] == StopBegun(name)
  }

  /** What event `e`, at index `i` of `h`, leaves its app in. */
  ghost function StateLeft(h: seq<Event>, e: Event, i: nat): AppState {
    match e
    case Booted(_, pid, port, _) => Running(pid, port)
    case Exited(name, incarnation, status) =>
      if ExitCode(status) == 0 || StopAsked(h, name, incarnation, i) then Stopped else Crashed(ExitCode(status))
    case _ => Stopped
  }

  /**
   The state a name ought to have, read off the history alone: a crash is an unsuccessful exit of an
   incarnation in which nobody asked for a stop.
   */
  ghost function StateOf(h: seq<Event>, name: string): AppState {
    var i := LastSettled(h, name);
    if i < 0 then Stopped else StateLeft(h, h[i], i)
  }

  function Boots(h: seq<Event>, name: string): nat {
    if h == [] then 0
    else Boots(h[..|h| - 1], name) + (if h[|h| - 1].Booted? && h[|h| - 1].name == name then 1 else 0)
  }

  function Exits(h: seq<Event>, name: string): nat {
    if h == [] then 0
    else Exits(h[..|h| - 1], name) + (if h[|h| - 1].Exited? && h[|h| - 1].name == name then 1 else 0)
  }

  ghost predicate ExitLogged(h: seq<Event>, id: nat, from: nat) {
    exists j :: from <= j < |h| && h[j].Exited? && h[j].incarnation == id
  }

  // ---------------------------------------------------------------- invariants

  /** A request or the boot itself, at time `e.at`. */
  predicate Activity(e: Event, name: string) {
    e.name == name && (e.Booted? || e.Touched?)
  }

  /** No activity of `name` since index `from` is later than `t`. */
  ghost predicate QuietSince(h: seq<Event>, name: string, from: int, t: nat) {
    forall i :: 0 <= i < |h| && from <= i && Activity(h[i], name) ==> h[i].at <= t
  }

  /** The latest stamp comes from an activity of this incarnation. */
  ghost predicate StampedSince(h: seq<Event>, name: string, from: int, t: nat) {
    exists i :: 0 <= i < |h| && from <= i && Activity(h[i], name) && h[i].at == t
  }

  /**
   The entry of one name agrees with its history: the state, the stop flag, the activity stamp, and,
   when it runs, the pending watcher of its latest incarnation.
   */
  ghost predicate EntryOk(s: SupState, n: string) {
    && StateIn(s.apps, n) == StateOf(s.history, n)
    && Boots(s.history, n) == Exits(s.history, n) + (if IsRunning(s, n) then 1 else 0)
    && (n in s.apps ==>
          (s.apps[n].intentionalStop <==>
           IsRunning(s, n) && StopAsked(s.history, n, LastSettled(s.history, n), |s.history|)))
    && (IsRunning(s, n) ==>
          && LastSettled(s.history, n) in s.watchers
          && s.watchers[LastSettled(s.history, n)].name == n
          && s.apps[n].lastRequest <= s.clock
          && QuietSince(s.history, n, LastSettled(s.history, n), s.apps[n].lastRequest)
          && StampedSince(s.history, n, LastSettled(s.history, n), s.apps[n].lastRequest))
  }

  /** A pending watcher belongs to the latest incarnation of its name, which runs with its pid and port. */
  ghost predicate WatcherOk(s: SupState, id: nat)
    requires id in s.watchers
  {
    var w := s.watchers[id];
    && id < |s.history| && s.history[id].Booted? && s.history[id].name == w.name
    && id == LastSettled(s.history, w.name)
    && StateIn(s.apps, w.name) == Running(w.pid, w.port)
  }

  /** Reserved ports are the ports of pending watchers and the leaked ones, all different. */
  ghost predicate PortsOk(s: SupState) {
    && (forall id <- s.watchers :: s.watchers[id].port !in s.leaked)
    && (forall i, j :: i in s.watchers && j in s.watchers && i != j ==> s.watchers[i].port != s.watchers[j].port)
    && s.reserved == (set id <- s.watchers :: s.watchers[id].port) + s.leaked
  }

  /** Every boot whose watcher is gone has its exit on record, and every exit names an earlier boot. */
  ghost predicate ExitsOk(s: SupState) {
    && (forall i :: 0 <= i < |s.history| && s.history[i].Booted? && i !in s.watchers ==>
          ExitLogged(s.history, i, i + 1))
    && (forall j :: 0 <= j < |s.history| && s.history[j].Exited? ==>
          && s.history[j].incarnation < j && s.history[s.history[j].incarnation].Booted?
          && s.history[s.history[j].incarnation].name == s.history[j].name)
  }

  ghost predicate Inv(s: SupState) {
    && (forall n: string :: EntryOk(s, n))
    && (forall id <- s.watchers :: WatcherOk(s, id))
    && PortsOk(s)
    && ExitsOk(s)
  }
}
