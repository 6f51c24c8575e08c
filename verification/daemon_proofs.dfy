/** What every reachable state of the daemon satisfies, whatever the interleaving. */
module DaemonProofs {
  import opened Wrappers
  import opened Lifecycle
  import opened LifecycleProofs
  import opened Labels
  import opened Ordering
  import opened Sans
  import opened BootLocks
  import opened Daemon

  // ---------------------------------------------------------------- invariants

  ghost predicate OneHolder(s: State) {
    forall t, u, l: Lock :: t in s.tasks && u in s.tasks && t != u && Holds(s.tasks[t], l) ==> !Holds(s.tasks[u], l)
  }

  /** Whoever refers to a boot lock refers to the one in the table. */
  ghost predicate RefsOk(s: State) {
    forall t <- s.tasks :: RefOf(s.tasks[t].pc).Some? ==> RefOk(s, RefOf(s.tasks[t].pc).value)
  }

  predicate RefOk(s: State, r: Ref) {
    r.name in Table(s, r.gate) && Table(s, r.gate)[r.name] == r.lock
  }

  /** A lock belongs to one gate and one name, for good. */
  ghost predicate TablesOk(s: State) {
    && (forall g: Gate, n: string :: n in Table(s, g) ==> Table(s, g)[n] < s.nextLock)
    && (forall g: Gate, n: string, h: Gate, m: string ::
          n in Table(s, g) && m in Table(s, h) && Table(s, g)[n] == Table(s, h)[m] ==> g == h && n == m)
  }

  function Committed(reg: map<string, string>, commit: Commit): map<string, string> {
    if commit.Added? then reg[commit.key := commit.path] else Without(reg, commit.names)
  }

  function ReplayCommits(commits: seq<Commit>): map<string, string> {
    if commits == [] then map[] else Committed(ReplayCommits(commits[..|commits| - 1]), commits[|commits| - 1])
  }

  ghost predicate RegistryOk(s: State) {
    && s.registry == ReplayCommits(s.commits)
    && forall k <- s.registry :: ValidKey(k)
  }

  function JobOf(pc: Pc): Option<Job> {
    match pc
    case Registry(Dereg(job, _)) => Some(job)
    case Command(Stop(_, _, AfterDereg(job))) => Some(job)
    case _ => None
  }

  /** The reap in progress: the app being reaped and the sweep it belongs to. */
  function ReapOf(pc: Pc): Option<(string, Sweep)> {
    match pc
    case Command(Stop(_, _, AfterReap(n, sweep))) => Some((n, sweep))
    case Scanner(ScanForget(n, sweep)) => Some((n, sweep))
    case _ => None
  }

  ghost predicate JobOk(s: State, job: Job) {
    && job.mem == Without(s.registry, job.gone)
    && job.gone + Elements(job.todo) == job.plan
    && job.plan <= s.registry.Keys
    && (forall n <- job.todo :: n !in job.gone)
    && NoRepeats(job.todo)
  }

  /** What a task remembers of the registry is still so. */
  ghost predicate MemoryOk(s: State, pc: Pc) {
    match pc
    case Request(_) => true
    case Command(Stop(_, _, AfterDereg(job))) => JobOk(s, job) && job.todo != []
    case Command(Stop(_, _, AfterReap(n, sweep))) => sweep.registered.Some? && n !in sweep.registered.value
    case Command(_) => true
    case Registry(AddLoad(key, _)) => ValidKey(key)
    case Registry(AddSave(key, _, mem)) => ValidKey(key) && mem == s.registry && key !in mem
    case Registry(Dereg(job, at)) => JobOk(s, job) && (at.JobSave? <==> job.todo == [])
    case Registry(_) => true
    case Cert(ReloadCheck(saved)) => saved == s.registry
    case Cert(ReloadInstall(saved, sans)) => saved == s.registry && sans == RegistrySans(s.registry.Keys)
    case Cert(TlsInstall(leaf)) => multiset(leaf.sans) == multiset(leaf.key)
    case Cert(TlsLoad) => true
    case Scanner(ScanForget(n, sweep)) => sweep.registered.Some? && n !in sweep.registered.value
    case Scanner(_) => true
  }

  ghost predicate MemoriesOk(s: State) {
    forall t <- s.tasks :: MemoryOk(s, s.tasks[t].pc)
  }

  ghost predicate LeafOk(s: State) {
    && (s.leaf.Some? ==> multiset(s.leaf.value.sans) == multiset(s.leaf.value.key))
    && (s.reloaded ==> s.leaf.Some? && s.leaf.value.sans == RegistrySans(s.registry.Keys))
  }

  ghost predicate SystemInv(s: State) {
    && Inv(s.sup) && OneHolder(s) && RefsOk(s) && TablesOk(s)
    && RegistryOk(s) && MemoriesOk(s) && LeafOk(s)
  }

  // ---------------------------------------------------------------- what each group of steps may touch

  /** The lifecycle action a step performs, if any. */
  function ActionOf(pc: Pc, c: Choice): Option<Action> {
    match pc
    case Request(ReqHeld(_, n, _, AtBoot)) => Some(Boot(n, c.idle, c.env))
    case Request(ReqTouch(n)) => Some(Touch(n))
    case Command(UpBoot(n)) => Some(Boot(n, c.idle, c.env))
    case Command(Stop(n, Begin(minIdle), _)) => Some(BeginStop(n, minIdle))
    case Registry(Dereg(job, JobForget)) => if job.todo == [] then None else Some(Forget(job.todo[0]))
    case Scanner(ScanForget(n, _)) => Some(Forget(n))
    case _ => None
  }

  function Acted(s: SupState, a: Option<Action>): SupState {
    if a.Some? then Apply(s, a.value) else s
  }

  /** A step keeps at most a lock its task already had or just took. */
  predicate OwnLock(pc: Pc, next: Option<Pc>) {
    next.Some? ==> Keeps(next.value) in {None, Keeps(pc), Wants(pc)}
  }

  lemma RequestSteps(s: State, pc: RequestPc, c: Choice)
    ensures var (s', next) := RequestExec(s, pc, c);
            && s' == s.(sup := Acted(s.sup, ActionOf(Request(pc), c)), tables := s'.tables, nextLock := s'.nextLock)
            && OwnLock(Request(pc), next) && (next.Some? ==> next.value.Request?)
            && (!pc.ReqSweep? && !pc.ReqUpgrade? ==> s'.tables == s.tables && s'.nextLock == s.nextLock)
            && (!pc.ReqUpgrade? && next.Some? && RefOf(next.value).Some? ==> RefOf(next.value) == RefOf(Request(pc)))
  {}

  lemma CommandSteps(s: State, pc: CommandPc, c: Choice)
    ensures var (s', next) := CommandExec(s, pc, c);
            && s' == s.(sup := Acted(s.sup, ActionOf(Command(pc), c)))
            && OwnLock(Command(pc), next) && (next.Some? ==> !next.value.Request?)
  {}

  lemma RegistrySteps(s: State, pc: RegistryPc, c: Choice)
    ensures var (s', next) := RegistryExec(s, pc, c);
            && s' == s.(sup := Acted(s.sup, ActionOf(Registry(pc), c)),
                        registry := s'.registry, commits := s'.commits, reloaded := s'.reloaded)
            && OwnLock(Registry(pc), next) && (next.Some? ==> !next.value.Request?)
            && (Keeps(Registry(pc)).None? ==> s' == s)
  {}

  lemma CertSteps(s: State, pc: CertPc, c: Choice, sans: seq<string>)
    ensures var (s', next) := CertStep(s, pc, c, sans);
            && s' == s.(leaf := s'.leaf, disk := s'.disk, reloaded := s'.reloaded)
            && OwnLock(Cert(pc), next) && (next.Some? ==> next.value.Cert?)
  {}

  lemma ScannerSteps(s: State, pc: ScannerPc, c: Choice)
    ensures var (s', next) := ScannerExec(s, pc, c);
            && s' == s.(sup := Acted(s.sup, ActionOf(Scanner(pc), c)))
            && OwnLock(Scanner(pc), next) && (next.Some? ==> !next.value.Request?)
  {}

  /** Common to all steps: at most one lifecycle action, no lock kept that was not held, tasks untouched. */
  lemma AnyStep(s: State, pc: Pc, c: Choice)
    ensures var (s', next) := Exec(s, pc, c);
            && s'.sup == Acted(s.sup, ActionOf(pc, c)) && s'.tasks == s.tasks
            && OwnLock(pc, next)
            && (!(pc.Request? && (pc.req.ReqSweep? || pc.req.ReqUpgrade?)) ==>
                s'.tables == s.tables && s'.nextLock == s.nextLock)
            && (!(pc.Request? && pc.req.ReqUpgrade?) && next.Some? && RefOf(next.value).Some? ==>
                RefOf(next.value) == RefOf(pc))
  {
    match pc
    case Request(req) => RequestSteps(s, req, c);
    case Command(cmd) => CommandSteps(s, cmd, c);
    case Registry(reg) => RegistrySteps(s, reg, c);
    case Cert(cert) => CertSteps(s, cert, c, RegistrySans(s.registry.Keys));
    case Scanner(scan) => ScannerSteps(s, scan, c);
  }

  // ---------------------------------------------------------------- the supervisor's part

  /** A step of the system is at most one step of the supervisor. */
  lemma StepIsLifecycleStep(s: State, lab: Label)
    ensures Next(s, lab).sup == s.sup || exists a :: Next(s, lab).sup == Apply(s.sup, a)
  {
    if Enabled(s, lab) {
      match lab
      case Spawn(t, pc) =>
      case Acquire(t) =>
      case Do(t, c) => AnyStep(s, s.tasks[t].pc, c);
      case Cancel(_) =>
      case Watch(id) => assert Next(s, lab).sup == Apply(s.sup, WriteBack(id));
      case Outside(a) => assert Next(s, lab).sup == Apply(s.sup, a);
    }
  }

  lemma SupervisorKept(s: State, lab: Label)
    requires Inv(s.sup)
    ensures Inv(Next(s, lab).sup)
  {
    StepIsLifecycleStep(s, lab);
    if Next(s, lab).sup != s.sup {
      var a :| Next(s, lab).sup == Apply(s.sup, a);
      ApplyInv(s.sup, a);
    }
  }

  // ---------------------------------------------------------------- locks

  lemma OneHolderKept(s: State, lab: Label)
    requires OneHolder(s)
    ensures OneHolder(Next(s, lab))
  {
    if Enabled(s, lab) {
      var s' := Next(s, lab);
      match lab
      case Spawn(t, pc) =>
        assert Keeps(pc).None?;
      case Acquire(t) =>
      case Do(t, c) =>
        AnyStep(s, s.tasks[t].pc, c);
        forall l: Lock | t in s'.tasks && Holds(s'.tasks[t], l) ensures Holds(s.tasks[t], l) {}
        assert forall u <- s'.tasks :: u != t ==> s'.tasks[u] == s.tasks[u];
      case Cancel(_) =>
      case Watch(_) =>
      case Outside(_) =>
    }
  }

  /** Whoever changes the supervisor's state holds its mutex. */
  lemma ActionsUnderMutex(s: State, t: nat, c: Choice)
    requires Enabled(s, Do(t, c)) && ActionOf(s.tasks[t].pc, c).Some?
    ensures Holds(s.tasks[t], SupervisorMutex)
  {}

  /** And whoever does not wait for the mutex neither reads that state: with any other he goes the same way. */
  lemma ReadsUnderMutex(s: State, sup: SupState, pc: Pc, c: Choice)
    requires Wants(pc) != Some(SupervisorMutex)
    ensures Exec(s.(sup := sup), pc, c) == (Exec(s, pc, c).0.(sup := sup), Exec(s, pc, c).1)
  {
    match pc
    case Request(req) => RequestReads(s, sup, req, c);
    case Command(cmd) => CommandReads(s, sup, cmd, c);
    case Registry(reg) => RegistryReads(s, sup, reg, c);
    case Cert(cert) => CertReads(s, sup, cert, c, RegistrySans(s.registry.Keys));
    case Scanner(scan) => ScannerReads(s, sup, scan, c);
  }

  lemma RequestReads(s: State, sup: SupState, pc: RequestPc, c: Choice)
    requires Wants(Request(pc)) != Some(SupervisorMutex)
    ensures RequestExec(s.(sup := sup), pc, c) == (RequestExec(s, pc, c).0.(sup := sup), RequestExec(s, pc, c).1)
  {}

  lemma CommandReads(s: State, sup: SupState, pc: CommandPc, c: Choice)
    requires Wants(Command(pc)) != Some(SupervisorMutex)
    ensures CommandExec(s.(sup := sup), pc, c) == (CommandExec(s, pc, c).0.(sup := sup), CommandExec(s, pc, c).1)
  {}

  lemma RegistryReads(s: State, sup: SupState, pc: RegistryPc, c: Choice)
    requires Wants(Registry(pc)) != Some(SupervisorMutex)
    ensures RegistryExec(s.(sup := sup), pc, c) == (RegistryExec(s, pc, c).0.(sup := sup), RegistryExec(s, pc, c).1)
  {}

  lemma CertReads(s: State, sup: SupState, pc: CertPc, c: Choice, sans: seq<string>)
    ensures var (s', next) := CertStep(s, pc, c, sans);
            CertStep(s.(sup := sup), pc, c, sans) == (s'.(sup := sup), next)
  {}

  lemma ScannerReads(s: State, sup: SupState, pc: ScannerPc, c: Choice)
    requires Wants(Scanner(pc)) != Some(SupervisorMutex)
    ensures ScannerExec(s.(sup := sup), pc, c) == (ScannerExec(s, pc, c).0.(sup := sup), ScannerExec(s, pc, c).1)
  {}

  // ---------------------------------------------------------------- boot locks

  lemma SweepKeepsRefs(s: State, g: Gate)
    requires RefsOk(s) && TablesOk(s)
    ensures var s' := s.(tables := s.tables[g := Retain(Table(s, g), LiveLocks(s.tasks))]);
            RefsOk(s') && TablesOk(s')
  {
    var s' := s.(tables := s.tables[g := Retain(Table(s, g), LiveLocks(s.tasks))]);
    forall t | t in s.tasks && RefOf(s.tasks[t].pc).Some? ensures RefOk(s', RefOf(s.tasks[t].pc).value) {
      assert RefOk(s, RefOf(s.tasks[t].pc).value);
      assert RefOf(s.tasks[t].pc).value.lock in LiveLocks(s.tasks);
    }
    SubTables(s, s');
  }

  lemma SubTables(s: State, s': State)
    requires TablesOk(s) && s'.nextLock == s.nextLock
    requires forall g: Gate, n: string :: n in Table(s', g) ==> n in Table(s, g) && Table(s', g)[n] == Table(s, g)[n]
    ensures TablesOk(s')
  {}

  lemma UpgradeKeepsRefs(s: State, g: Gate, name: string, lock: nat, s': State)
    requires RefsOk(s)
    requires lock == Chosen(Table(s, g), name, LiveLocks(s.tasks), s.nextLock)
    requires s'.tables == s.tables[g := Table(s, g)[name := lock]] && s'.tasks == s.tasks
    ensures RefsOk(s') && RefOk(s', Ref(g, name, lock))
  {
    forall t | t in s.tasks && RefOf(s.tasks[t].pc).Some? ensures RefOk(s', RefOf(s.tasks[t].pc).value) {
      var r := RefOf(s.tasks[t].pc).value;
      assert RefOk(s, r);
      assert r.lock in LiveLocks(s.tasks);
    }
  }

  lemma UpgradeKeepsTables(s: State, g: Gate, name: string, lock: nat, s': State)
    requires TablesOk(s)
    requires lock == s.nextLock || (name in Table(s, g) && lock == Table(s, g)[name])
    requires s'.tables == s.tables[g := Table(s, g)[name := lock]]
             && s'.nextLock == if lock == s.nextLock then lock + 1 else s.nextLock
    ensures TablesOk(s')
  {
    forall h: Gate, n: string | n in Table(s', h)
      ensures h == g && n == name ==> Table(s', h)[n] == lock
      ensures !(h == g && n == name) ==> n in Table(s, h) && Table(s', h)[n] == Table(s, h)[n]
    {}
    if lock != s.nextLock {
      SubTables(s, s');
    }
  }

  lemma UpgradeKeeps(s: State, pc: RequestPc, c: Choice)
    requires RefsOk(s) && TablesOk(s) && pc.ReqUpgrade?
    ensures var (mid, next) := RequestExec(s, pc, c);
            RefsOk(mid) && TablesOk(mid) && next.Some? && RefOf(next.value).Some? && RefOk(mid, RefOf(next.value).value)
  {
    var lock := Chosen(Table(s, pc.gate), pc.name, LiveLocks(s.tasks), s.nextLock);
    var mid := RequestExec(s, pc, c).0;
    UpgradeKeepsRefs(s, pc.gate, pc.name, lock, mid);
    UpgradeKeepsTables(s, pc.gate, pc.name, lock, mid);
  }

  lemma RefsKept(s: State, lab: Label)
    requires RefsOk(s) && TablesOk(s)
    ensures RefsOk(Next(s, lab)) && TablesOk(Next(s, lab))
  {
    if Enabled(s, lab) {
      var s' := Next(s, lab);
      if lab.Do? {
        var pc := s.tasks[lab.t].pc;
        AnyStep(s, pc, lab.c);
        if pc.Request? && pc.req.ReqSweep? {
          SweepKeepsRefs(s, pc.req.gate);
          SameTables(RequestExec(s, pc.req, lab.c).0, s');
        } else if pc.Request? && pc.req.ReqUpgrade? {
          UpgradeKeeps(s, pc.req, lab.c);
          SameTables(RequestExec(s, pc.req, lab.c).0, s');
        } else {
          assert RefOf(pc).Some? ==> RefOk(s, RefOf(pc).value);
          SameTables(s, s');
        }
      } else {
        SameTables(s, s');
      }
    }
  }

  lemma SameTables(s: State, s': State)
    requires RefsOk(s) && TablesOk(s)
    requires s'.tables == s.tables && s'.nextLock == s.nextLock
    requires forall t <- s'.tasks :: RefOf(s'.tasks[t].pc).Some? ==>
      RefOk(s, RefOf(s'.tasks[t].pc).value)
    ensures RefsOk(s') && TablesOk(s')
  {
    assert forall g: Gate :: Table(s', g) == Table(s, g);
  }

  // ---------------------------------------------------------------- the registry

  lemma ReplayOneMore(commits: seq<Commit>, commit: Commit)
    ensures ReplayCommits(commits + [commit]) == Committed(ReplayCommits(commits), commit)
  {}

  lemma SaveKeepsRegistry(s: State, pc: RegistryPc, c: Choice)
    requires RegistryOk(s) && MemoryOk(s, Registry(pc))
    ensures RegistryOk(RegistryExec(s, pc, c).0)
  {
    match pc
    case AddSave(key, path, mem) => ReplayOneMore(s.commits, Added(key, path));
    case Dereg(job, JobSave) => ReplayOneMore(s.commits, Dropped(job.gone));
    case _ => RegistrySteps(s, pc, c);
  }

  lemma NextJobOk(s: State, job: Job)
    requires JobOk(s, job) && job.todo != []
    ensures JobOk(s, NextJob(job))
  {}

  lemma FirstJobOk(s: State, todo: seq<string>)
    requires Elements(todo) <= s.registry.Keys && NoRepeats(todo)
    ensures JobOk(s, Job(Elements(todo), s.registry, todo, {}))
  {}

  lemma RegistryMemory(s: State, pc: RegistryPc, c: Choice)
    requires RegistryOk(s) && MemoryOk(s, Registry(pc))
    ensures var (s', next) := RegistryExec(s, pc, c);
            next.Some? ==> MemoryOk(s', next.value)
  {
    match pc
    case DeregLoad(only) =>
      match only {
        case Some(n) => if n in s.registry { FirstJobOk(s, [n]); }
        case None => FirstJobOk(s, InOrder(s.registry.Keys * c.absent));
      }
    case Dereg(job, JobForget) => NextJobOk(s, job);
    case Dereg(job, JobState) =>
    case Dereg(job, JobSave) =>
    case _ =>
  }

  lemma CommandMemory(s: State, pc: CommandPc, c: Choice)
    requires MemoryOk(s, Command(pc))
    ensures var (s', next) := CommandExec(s, pc, c);
            next.Some? ==> MemoryOk(s', next.value)
  {
    CommandSteps(s, pc, c);
    if pc.Stop? {
      var (s', next) := CommandExec(s, pc, c);
      if pc.k.AfterDereg? {
        SameRegistryMemory(s, s', Command(pc));
      }
    }
  }

  lemma ScannerMemory(s: State, pc: ScannerPc, c: Choice)
    requires MemoryOk(s, Scanner(pc))
    ensures var (s', next) := ScannerExec(s, pc, c);
            next.Some? ==> MemoryOk(s', next.value)
  {}

  lemma CertMemory(s: State, pc: CertPc, c: Choice)
    requires MemoryOk(s, Cert(pc))
    ensures var (s', next) := CertStep(s, pc, c, RegistrySans(s.registry.Keys));
            next.Some? ==> MemoryOk(s', next.value)
  {
    CertSteps(s, pc, c, RegistrySans(s.registry.Keys));
  }

  /** A memory depends on nothing but the registry, and only under the registry lock. */
  lemma SameRegistryMemory(s: State, s': State, pc: Pc)
    requires MemoryOk(s, pc)
    requires s'.registry == s.registry || Keeps(pc) != Some(RegistryLock)
    ensures MemoryOk(s', pc)
  {}

  lemma OwnMemory(s: State, pc: Pc, c: Choice)
    requires RegistryOk(s) && MemoryOk(s, pc)
    ensures var (s', next) := Exec(s, pc, c);
            next.Some? ==> MemoryOk(s', next.value)
  {
    match pc
    case Request(req) => RequestSteps(s, req, c);
    case Command(cmd) => CommandMemory(s, cmd, c);
    case Registry(reg) => RegistryMemory(s, reg, c);
    case Cert(cert) => CertMemory(s, cert, c);
    case Scanner(scan) => ScannerMemory(s, scan, c);
  }

  /** The registry changes only in the hands of the registry lock's holder. */
  lemma RegistryNeedsLock(s: State, pc: Pc, c: Choice)
    ensures Keeps(pc) != Some(RegistryLock) ==>
              Exec(s, pc, c).0.registry == s.registry && Exec(s, pc, c).0.commits == s.commits
    ensures !pc.Registry? ==> Exec(s, pc, c).0.registry == s.registry && Exec(s, pc, c).0.commits == s.commits
  {
    match pc
    case Request(req) => RequestSteps(s, req, c);
    case Command(cmd) => CommandSteps(s, cmd, c);
    case Registry(reg) => RegistrySteps(s, reg, c);
    case Cert(cert) => CertSteps(s, cert, c, RegistrySans(s.registry.Keys));
    case Scanner(scan) => ScannerSteps(s, scan, c);
  }

  lemma MemoriesKept(s: State, lab: Label)
    requires OneHolder(s) && RegistryOk(s) && MemoriesOk(s)
    ensures MemoriesOk(Next(s, lab))
  {
    if Enabled(s, lab) {
      var s' := Next(s, lab);
      if lab.Do? {
        var t, pc := lab.t, s.tasks[lab.t].pc;
        RegistryNeedsLock(s, pc, lab.c);
        OwnMemory(s, pc, lab.c);
        forall u <- s'.tasks ensures MemoryOk(s', s'.tasks[u].pc) {
          if u == t {
            SameRegistryMemory(Exec(s, pc, lab.c).0, s', s'.tasks[u].pc);
          } else {
            if Keeps(pc) == Some(RegistryLock) {
              assert Holds(s.tasks[t], RegistryLock) && !Holds(s.tasks[u], RegistryLock);
            }
            SameRegistryMemory(s, s', s.tasks[u].pc);
          }
        }
      } else {
        forall u <- s'.tasks ensures MemoryOk(s', s'.tasks[u].pc) {
          if u in s.tasks {
            SameRegistryMemory(s, s', s.tasks[u].pc);
          }
        }
      }
    }
  }

  lemma RegistryKept(s: State, lab: Label)
    requires RegistryOk(s) && MemoriesOk(s)
    ensures RegistryOk(Next(s, lab))
  {
    if Enabled(s, lab) && lab.Do? {
      var pc := s.tasks[lab.t].pc;
      RegistryNeedsLock(s, pc, lab.c);
      if pc.Registry? {
        assert MemoryOk(s, pc);
        SaveKeepsRegistry(s, pc.reg, lab.c);
      }
    }
  }

  // ---------------------------------------------------------------- the certificate

  lemma CertKeepsLeaf(s: State, pc: CertPc, c: Choice, sans: seq<string>)
    requires LeafOk(s) && MemoryOk(s, Cert(pc)) && sans == RegistrySans(s.registry.Keys)
    ensures LeafOk(CertStep(s, pc, c, sans).0)
  {
    CertSteps(s, pc, c, sans);
  }

  lemma LeafKept(s: State, lab: Label)
    requires LeafOk(s) && MemoriesOk(s)
    ensures LeafOk(Next(s, lab))
  {
    if Enabled(s, lab) && lab.Do? {
      var pc := s.tasks[lab.t].pc;
      assert MemoryOk(s, pc);
      match pc
      case Request(req) => RequestSteps(s, req, lab.c);
      case Command(cmd) => CommandSteps(s, cmd, lab.c);
      case Registry(reg) => RegistryLeaf(s, reg, lab.c);
      case Cert(cert) => CertKeepsLeaf(s, cert, lab.c, RegistrySans(s.registry.Keys));
      case Scanner(scan) => ScannerSteps(s, scan, lab.c);
    }
  }

  lemma RegistryLeaf(s: State, pc: RegistryPc, c: Choice)
    requires LeafOk(s)
    ensures LeafOk(RegistryExec(s, pc, c).0)
  {
    RegistrySteps(s, pc, c);
  }

  // ---------------------------------------------------------------- every run

  lemma StepInv(s: State, lab: Label)
    requires SystemInv(s)
    ensures SystemInv(Next(s, lab))
  {
    SupervisorKept(s, lab);
    OneHolderKept(s, lab);
    RefsKept(s, lab);
    MemoriesKept(s, lab);
    RegistryKept(s, lab);
    LeafKept(s, lab);
  }

  lemma {:induction false} RunAllInv(s: State, labels: seq<Label>)
    requires SystemInv(s)
    ensures SystemInv(RunAll(s, labels))
    decreases |labels|
  {
    if labels != [] {
      RunAllInv(s, labels[..|labels| - 1]);
      StepInv(RunAll(s, labels[..|labels| - 1]), labels[|labels| - 1]);
    }
  }

  lemma EveryReachable(labels: seq<Label>)
    ensures SystemInv(RunAll(START, labels))
  {
    InitInv();
    RunAllInv(START, labels);
  }

  ghost predicate Reachable(s: State) {
    exists labels :: s == RunAll(START, labels)
  }

  lemma ReachableInv(s: State)
    requires Reachable(s)
    ensures SystemInv(s)
  {
    var labels :| s == RunAll(START, labels);
    EveryReachable(labels);
  }

  lemma ReachableNext(s: State, lab: Label)
    requires Reachable(s)
    ensures Reachable(Next(s, lab))
  {
    var labels :| s == RunAll(START, labels);
    var more := labels + [lab];
    assert more[..|labels|] == labels;
    assert Next(s, lab) == RunAll(START, more);
  }

  lemma ReachableStart()
    ensures Reachable(START)
  {
    assert START == RunAll(START, []);
  }
}
