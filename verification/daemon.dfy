/**
 The daemon as a set of tasks stepping over shared state. A task is a program point; between two steps
 of it anything else may run. A region run under a mutex is one step, taken in two parts: acquire, then
 do the work and release. The registry lock and the per-name boot locks are kept over several steps.
 Saving the registry file is atomic, and loads read it without a lock.
 */
module Daemon {
  import opened Wrappers
  import opened Lifecycle
  import opened Labels
  import opened Ordering
  import opened Sans
  import opened LeafCert
  import opened BootLocks

  datatype Gate = Http | Https

  datatype Lock = RegistryLock | TableLock(gate: Gate) | BootLock(id: nat) | SupervisorMutex

  /** One scanner sweep: what is left of its candidates, and the registered names if the load worked. */
  datatype Sweep = Sweep(pending: map<string, (nat, Option<nat>)>, registered: Option<set<string>>)

  /** A removal or prune in progress: the names chosen, the registry in memory, names still to do, names done. */
  datatype Job = Job(plan: set<string>, mem: map<string, string>, todo: seq<string>, gone: set<string>)

  /** What follows a stop. */
  datatype Cont =
    | AfterDown
    | AfterRestart(name: string)
    | AfterDereg(job: Job)
    | AfterReap(name: string, sweep: Sweep)
    | AfterIdle(sweep: Sweep)

  /** Points of a request inside its boot lock. */
  datatype HeldAt = AtCheck | AtBoot | AtPoll | AtProbe | AtSleep

  datatype RequestPc =
    | ReqLoad(gate: Gate, name: string)
    | ReqSweep(gate: Gate, name: string)
    | ReqUpgrade(gate: Gate, name: string)
    | ReqLock(gate: Gate, name: string, lock: nat)
    | ReqHeld(gate: Gate, name: string, lock: nat, at: HeldAt)
    | ReqTouch(name: string)

  datatype StopAt = Begin(minIdle: Option<nat>) | Wait | Look

  datatype CommandPc =
    | UpLoad(name: string)
    | UpBoot(name: string)
    | RestartState(name: string)
    | Query(name: string)
    | Stop(name: string, at: StopAt, k: Cont)

  datatype JobAt = JobState | JobForget | JobSave

  datatype RegistryPc =
    | AddCheck(name: string, tag: Option<string>, path: string)
    | AddLoad(key: string, path: string)
    | AddSave(key: string, path: string, mem: map<string, string>)
    | DeregLoad(only: Option<string>)
    | Dereg(job: Job, at: JobAt)

  datatype CertPc =
    | ReloadCheck(saved: map<string, string>)
    | ReloadInstall(saved: map<string, string>, sans: seq<string>)
    | TlsLoad
    | TlsInstall(leaf: Leaf)

  datatype ScannerPc =
    | ScanSleep
    | ScanSnapshot
    | ScanLoad(candidates: map<string, (nat, Option<nat>)>)
    | ScanNext(sweep: Sweep)
    | ScanForget(name: string, sweep: Sweep)

  /** A proxied request, a control command or stop, a registry change, a certificate change, the scanner. */
  datatype Pc =
    | Request(req: RequestPc)
    | Command(cmd: CommandPc)
    | Registry(reg: RegistryPc)
    | Cert(cert: CertPc)
    | Scanner(scan: ScannerPc)

  datatype Task = Task(pc: Pc, holding: bool)

  /** Successful registry saves, in order. */
  datatype Commit = Added(key: string, path: string) | Dropped(names: set<string>)

  datatype State = State(
    sup: SupState,
    registry: map<string, string>,
    commits: seq<Commit>,
    tables: map<Gate, map<string, nat>>,
    nextLock: nat,
    leaf: Option<Leaf>,
    disk: Option<OnDisk>,
    reloaded: bool,
    tasks: map<nat, Task>)

  /** What the outside world decides in one step. */
  datatype Choice = Choice(ok: bool, more: bool, pick: string, absent: set<string>, idle: Option<nat>, env: BootEnv)

  const START := State(Lifecycle.INIT, map[], [], map[], 0, None, None, false, map[])

  // ---------------------------------------------------------------- locks

  /** The lock a task carries from step to step at this point. */
  function Keeps(pc: Pc): Option<Lock> {
    match pc
    case Request(ReqUpgrade(g, _)) => Some(TableLock(g))
    case Request(ReqHeld(_, _, l, _)) => Some(BootLock(l))
    case Command(Stop(_, _, AfterDereg(_))) => Some(RegistryLock)
    case Registry(AddSave(_, _, _)) => Some(RegistryLock)
    case Registry(Dereg(_, _)) => Some(RegistryLock)
    case Cert(ReloadCheck(_)) => Some(RegistryLock)
    case Cert(ReloadInstall(_, _)) => Some(RegistryLock)
    case _ => None
  }

  /** The lock a task must take before its next step. */
  function Wants(pc: Pc): Option<Lock> {
    match pc
    case Request(ReqSweep(g, _)) => Some(TableLock(g))
    case Request(ReqLock(_, _, l)) => Some(BootLock(l))
    case Request(ReqHeld(_, _, _, at)) => if at.AtProbe? || at.AtSleep? then None else Some(SupervisorMutex)
    case Request(ReqTouch(_)) => Some(SupervisorMutex)
    case Command(UpLoad(_)) => None
    case Command(Stop(_, Wait, _)) => None
    case Command(_) => Some(SupervisorMutex)
    case Registry(AddLoad(_, _)) => Some(RegistryLock)
    case Registry(DeregLoad(_)) => Some(RegistryLock)
    case Registry(Dereg(_, at)) => if at.JobSave? then None else Some(SupervisorMutex)
    case Scanner(ScanSnapshot) => Some(SupervisorMutex)
    case Scanner(ScanForget(_, _)) => Some(SupervisorMutex)
    case _ => None
  }

  predicate Holds(tk: Task, l: Lock) {
    Keeps(tk.pc) == Some(l) || (tk.holding && Wants(tk.pc) == Some(l))
  }

  predicate Free(s: State, l: Lock) {
    forall t <- s.tasks :: !Holds(s.tasks[t], l)
  }

  datatype Ref = Ref(gate: Gate, name: string, lock: nat)

  /** The boot lock a task has a strong reference to. */
  function RefOf(pc: Pc): Option<Ref> {
    match pc
    case Request(ReqLock(g, n, l)) => Some(Ref(g, n, l))
    case Request(ReqHeld(g, n, l, _)) => Some(Ref(g, n, l))
    case _ => None
  }

  function LiveLocks(tasks: map<nat, Task>): set<nat> {
    set t | t in tasks && RefOf(tasks[t].pc).Some? :: RefOf(tasks[t].pc).value.lock
  }

  function Table(s: State, g: Gate): map<string, nat> {
    if g in s.tables then s.tables[g] else map[]
  }

  // ---------------------------------------------------------------- what one step of a task does

  function Without(reg: map<string, string>, names: set<string>): map<string, string> {
    map k | k in reg && k !in names :: reg[k]
  }

  function Resume(k: Cont, stopped: bool): Option<Pc> {
    match k
    case AfterDown => None
    case AfterRestart(n) => if stopped then Some(Command(UpLoad(n))) else None
    case AfterDereg(job) => Some(Registry(Dereg(job, JobForget)))
    case AfterReap(n, sweep) => Some(Scanner(ScanForget(n, sweep)))
    case AfterIdle(sweep) => Some(Scanner(ScanNext(sweep)))
  }

  function NextJob(job: Job): Job
    requires job.todo != []
  {
    Job(job.plan, Without(job.mem, {job.todo[0]}), job.todo[1..], job.gone + {job.todo[0]})
  }

  /** Steps of a proxied request. */
  function RequestExec(s: State, pc: RequestPc, c: Choice): (State, Option<Pc>) {
    match pc
    case ReqLoad(g, n) => (s, if c.ok && n in s.registry then Some(Request(ReqSweep(g, n))) else None)
    case ReqSweep(g, n) =>
      (s.(tables := s.tables[g := Retain(Table(s, g), LiveLocks(s.tasks))]), Some(Request(ReqUpgrade(g, n))))
    case ReqUpgrade(g, n) =>
      var lock := Chosen(Table(s, g), n, LiveLocks(s.tasks), s.nextLock);
      (s.(tables := s.tables[g := Table(s, g)[n := lock]],
          nextLock := if lock == s.nextLock then lock + 1 else s.nextLock),
       Some(Request(ReqLock(g, n, lock))))
    case ReqLock(g, n, l) => (s, Some(Request(ReqHeld(g, n, l, AtCheck))))
    case ReqHeld(g, n, l, at) => HeldExec(s, pc, at, c)
    case ReqTouch(n) => (s.(sup := Apply(s.sup, Touch(n))), None)
  }

  /** Boot if not running, then poll; leaving the boot lock ends `ensure_running`. */
  function HeldExec(s: State, pc: RequestPc, at: HeldAt, c: Choice): (State, Option<Pc>)
    requires pc.ReqHeld?
  {
    match at
    case AtCheck => (s, Some(Request(pc.(at := if IsRunning(s.sup, pc.name) then AtPoll else AtBoot))))
    case AtBoot =>
      (s.(sup := Apply(s.sup, Boot(pc.name, c.idle, c.env))),
       if UpResult(s.sup, pc.name, c.env).Ok? then Some(Request(pc.(at := AtPoll))) else None)
    case AtPoll =>
      (s, match StateIn(s.sup.apps, pc.name)
          case Running(_, _) => Some(Request(pc.(at := AtProbe)))
          case Crashed(_) => None
          case Stopped => if c.more then Some(Request(pc.(at := AtSleep))) else None)
    case AtProbe =>
      (s, if c.ok then Some(Request(ReqTouch(pc.name))) else if c.more then Some(Request(pc.(at := AtSleep))) else None)
    case AtSleep => (s, Some(Request(pc.(at := AtPoll))))
  }

  /** Steps of the control commands and of stops. */
  function CommandExec(s: State, pc: CommandPc, c: Choice): (State, Option<Pc>) {
    match pc
    case UpLoad(n) => (s, if c.ok && n in s.registry then Some(Command(UpBoot(n))) else None)
    case UpBoot(n) => (s.(sup := Apply(s.sup, Boot(n, c.idle, c.env))), None)
    case RestartState(n) =>
      (s, Some(Command(if IsRunning(s.sup, n) then Stop(n, Begin(None), AfterRestart(n)) else UpLoad(n))))
    case Query(n) => (s, if c.more then Some(Command(Query(n))) else None)
    case Stop(n, Begin(minIdle), k) =>
      (s.(sup := Apply(s.sup, BeginStop(n, minIdle))),
       if StopTaken(s.sup, n, minIdle) then Some(Command(Stop(n, Wait, k))) else Resume(k, false))
    case Stop(n, Wait, k) => (s, Some(Command(Stop(n, Look, k))))
    case Stop(n, Look, k) =>
      (s, if !IsRunning(s.sup, n) then Resume(k, true)
          else if c.more then Some(Command(Stop(n, Wait, k))) else Resume(k, false))
  }

  /** Steps of add, remove and prune. */
  function RegistryExec(s: State, pc: RegistryPc, c: Choice): (State, Option<Pc>) {
    match pc
    case AddCheck(name, tag, path) =>
      (s, match AddKey(name, tag)
          case Ok(key) => if c.ok then Some(Registry(AddLoad(key, path))) else None
          case Err(_) => None)
    case AddLoad(key, path) =>
      (s, if c.ok && key !in s.registry then Some(Registry(AddSave(key, path, s.registry))) else None)
    case AddSave(key, path, mem) =>
      if !c.ok then (s, None)
      else (s.(registry := mem[key := path], commits := s.commits + [Added(key, path)], reloaded := false),
            Some(Cert(ReloadCheck(mem[key := path]))))
    case DeregLoad(only) =>
      if !c.ok then (s, None)
      else
        var todo := match only
          case Some(n) => if n in s.registry then [n] else []
          case None => InOrder(s.registry.Keys * c.absent);
        (s, if todo == [] then None else Some(Registry(Dereg(Job(Elements(todo), s.registry, todo, {}), JobState))))
    case Dereg(job, at) => JobExec(s, job, at, c)
  }

  /** For each name: stop it if it runs, forget it, drop it from memory; save at the end. */
  function JobExec(s: State, job: Job, at: JobAt, c: Choice): (State, Option<Pc>) {
    match at
    case JobState =>
      (s, Some(if job.todo != [] && IsRunning(s.sup, job.todo[0])
               then Command(Stop(job.todo[0], Begin(None), AfterDereg(job)))
               else Registry(Dereg(job, JobForget))))
    case JobForget =>
      if job.todo == [] then (s, None)
      else
        var rest := NextJob(job);
        (s.(sup := Apply(s.sup, Forget(job.todo[0]))),
         Some(Registry(Dereg(rest, if rest.todo == [] then JobSave else JobState))))
    case JobSave =>
      if !c.ok then (s, None)
      else (s.(registry := job.mem, commits := s.commits + [Dropped(job.gone)], reloaded := false),
            Some(Cert(ReloadCheck(job.mem))))
  }

  /**
   The certificate reload a registry change ends with, and the HTTPS listener coming up: `sans` is the
   list the registry calls for now.
   */
  function CertStep(s: State, pc: CertPc, c: Choice, sans: seq<string>): (State, Option<Pc>) {
    match pc
    case ReloadCheck(saved) =>
      if !c.ok || s.leaf.None? then (s, None)
      else if s.leaf.value.sans == sans then (s.(reloaded := true), None)
      else (s, Some(Cert(ReloadInstall(saved, sans))))
    case ReloadInstall(saved, wanted) =>
      var issue := CertifiedKey(s.disk, wanted, c.ok);
      if issue.key.None? then (s, None)
      else (s.(leaf := Some(Leaf(wanted, issue.key.value)), disk := issue.disk, reloaded := true), None)
    case TlsLoad =>
      var issue := CertifiedKey(s.disk, sans, c.more);
      if !c.ok || issue.key.None? then (s, None)
      else (s.(disk := issue.disk), Some(Cert(TlsInstall(Leaf(sans, issue.key.value)))))
    case TlsInstall(leaf) => (if s.leaf.None? then s.(leaf := Some(leaf)) else s, None)
  }

  /** Missing from a registry that was loaded; a failed load makes nobody an orphan. */
  predicate Orphan(registered: Option<set<string>>, name: string) {
    registered.Some? && name !in registered.value
  }

  predicate Due(candidate: (nat, Option<nat>)) {
    candidate.1.Some? && candidate.0 >= candidate.1.value
  }

  /** Steps of the idle scanner. */
  function ScannerExec(s: State, pc: ScannerPc, c: Choice): (State, Option<Pc>) {
    match pc
    case ScanSleep => (s, Some(Scanner(ScanSnapshot)))
    case ScanSnapshot =>
      var candidates := Candidates(s.sup);
      (s, Some(Scanner(if candidates == map[] then ScanSleep else ScanLoad(candidates))))
    case ScanLoad(candidates) =>
      (s, Some(Scanner(ScanNext(Sweep(candidates, if c.ok then Some(s.registry.Keys) else None)))))
    case ScanNext(sweep) =>
      if sweep.pending == map[] then (s, Some(Scanner(ScanSleep)))
      else if c.pick !in sweep.pending then (s, Some(Scanner(pc)))
      else
        var n := c.pick;
        var rest := sweep.(pending := sweep.pending - {n});
        (s, Some(
         if Orphan(sweep.registered, n) then Command(Stop(n, Begin(None), AfterReap(n, rest)))
         else if Due(sweep.pending[n]) then Command(Stop(n, Begin(sweep.pending[n].1), AfterIdle(rest)))
         else Scanner(ScanNext(rest))))
    case ScanForget(n, sweep) => (s.(sup := Apply(s.sup, Forget(n))), Some(Scanner(ScanNext(sweep))))
  }

  /** The new shared state, and where the task goes; `None` ends it. */
  function Exec(s: State, pc: Pc, c: Choice): (State, Option<Pc>) {
    match pc
    case Request(req) => RequestExec(s, req, c)
    case Command(cmd) => CommandExec(s, cmd, c)
    case Registry(reg) => RegistryExec(s, reg, c)
    case Cert(cert) => CertStep(s, cert, c, RegistrySans(s.registry.Keys))
    case Scanner(scan) => ScannerExec(s, scan, c)
  }

  // ---------------------------------------------------------------- steps and runs

  /** Where tasks begin: a request, a command, a registry change, the scanner, the HTTPS listener. */
  predicate CanStart(pc: Pc) {
    match pc
    case Request(req) => req.ReqLoad?
    case Command(Stop(_, at, k)) => at == Begin(None) && k.AfterDown?
    case Command(cmd) => !cmd.UpBoot?
    case Registry(reg) => reg.AddCheck? || reg.DeregLoad?
    case Cert(cert) => cert.TlsLoad?
    case Scanner(scan) => scan.ScanSleep?
  }

  /**
   `Cancel` is a client that hangs up: its request is dropped wherever it waits, with what it holds. One
   dropped while its boot opens the log file leaves what a failed open leaves.
   */
  datatype Label =
    | Spawn(t: nat, pc: Pc)
    | Acquire(t: nat)
    | Do(t: nat, c: Choice)
    | Cancel(t: nat)
    | Watch(id: nat)
    | Outside(a: Action)

  predicate Enabled(s: State, lab: Label) {
    match lab
    case Spawn(t, pc) => t !in s.tasks && CanStart(pc)
    case Acquire(t) =>
      t in s.tasks && !s.tasks[t].holding && Wants(s.tasks[t].pc).Some? && Free(s, Wants(s.tasks[t].pc).value)
    case Do(t, _) => t in s.tasks && (s.tasks[t].holding || Wants(s.tasks[t].pc).None?)
    case Cancel(t) => t in s.tasks && s.tasks[t].pc.Request?
    case Watch(id) => CanWriteBack(s.sup, id) && Free(s, SupervisorMutex)
    case Outside(a) => a.Tick? || a.ChildExit?
  }

  function Next(s: State, lab: Label): State {
    if !Enabled(s, lab) then s
    else match lab
      case Spawn(t, pc) => s.(tasks := s.tasks[t := Task(pc, false)])
      case Acquire(t) => s.(tasks := s.tasks[t := s.tasks[t].(holding := true)])
      case Do(t, c) =>
        var (s', pc) := Exec(s, s.tasks[t].pc, c);
        s'.(tasks := if pc.Some? then s.tasks[t := Task(pc.value, false)] else s.tasks - {t})
      case Cancel(t) => s.(tasks := s.tasks - {t})
      case Watch(id) => s.(sup := Apply(s.sup, WriteBack(id)))
      case Outside(a) => s.(sup := Apply(s.sup, a))
  }

  function RunAll(s: State, labels: seq<Label>): State {
    if labels == [] then s else Next(RunAll(s, labels[..|labels| - 1]), labels[|labels| - 1])
  }
}
