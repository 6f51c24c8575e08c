/** What the daemon promises, over every run. */
module DaemonTheorems {
  import opened Wrappers
  import opened Lifecycle
  import opened LifecycleProofs
  import opened Hosts
  import opened Ordering
  import opened Sans
  import opened LeafCert
  import opened Daemon
  import opened DaemonProofs

  // ---------------------------------------------------------------- no deadlock

  predicate Blocked(s: State, t: nat)
    requires t in s.tasks
  {
    var tk := s.tasks[t];
    !tk.holding && Wants(tk.pc).Some? && !Free(s, Wants(tk.pc).value)
  }

  /** What a kept lock allows one to wait for: nothing under a table lock, else only the supervisor mutex. */
  lemma LockOrder(pc: Pc)
    ensures Keeps(pc) != Some(SupervisorMutex)
    ensures Keeps(pc).Some? ==> Wants(pc) in {None, Some(SupervisorMutex)}
    ensures Keeps(pc).Some? && Keeps(pc).value.TableLock? ==> Wants(pc).None?
    ensures Keeps(pc) == None || Keeps(pc) != Wants(pc)
  {}

  /** A task that is not blocked has an enabled step, whatever the outside world answers. */
  lemma UnblockedMoves(s: State, t: nat, c: Choice)
    requires t in s.tasks
    ensures !Blocked(s, t) ==> Enabled(s, Acquire(t)) || Enabled(s, Do(t, c))
  {}

  /** A blocked task waits for a task that can move, or for one that waits for the mutex of one that can. */
  lemma BlockedBehindMover(s: State, t: nat)
    requires t in s.tasks && Blocked(s, t)
    ensures exists u :: u in s.tasks && u != t && Holds(s.tasks[u], Wants(s.tasks[t].pc).value) &&
              (!Blocked(s, u) ||
               (Wants(s.tasks[u].pc) == Some(SupervisorMutex) &&
                exists v :: v in s.tasks && Holds(s.tasks[v], SupervisorMutex) && !Blocked(s, v)))
  {}

  /** As long as a task is unfinished, some unfinished task can step, whatever the outside world answers. */
  lemma NoDeadlock(s: State, c: Choice)
    requires s.tasks != map[]
    ensures exists t :: t in s.tasks && (Enabled(s, Acquire(t)) || Enabled(s, Do(t, c)))
  {
    var t :| t in s.tasks;
    if Blocked(s, t) {
      BlockedBehindMover(s, t);
    }
    var u :| u in s.tasks && !Blocked(s, u);
    UnblockedMoves(s, u, c);
  }

  // ---------------------------------------------------------------- single flight

  /** All references ever held at once for a name through one gate are to the same lock, and to no other's. */
  lemma OneLockPerName(labels: seq<Label>, t: nat, u: nat)
    requires var s := RunAll(START, labels);
             t in s.tasks && u in s.tasks && RefOf(s.tasks[t].pc).Some? && RefOf(s.tasks[u].pc).Some?
    ensures var s := RunAll(START, labels);
            var a, b := RefOf(s.tasks[t].pc).value, RefOf(s.tasks[u].pc).value;
            a.gate == b.gate && a.name == b.name <==> a.lock == b.lock
  {
    EveryReachable(labels);
    var s := RunAll(START, labels);
    assert RefOk(s, RefOf(s.tasks[t].pc).value) && RefOk(s, RefOf(s.tasks[u].pc).value);
  }

  /** `pc` is inside the boot lock of `n` at gate `g`. */
  predicate InSection(pc: Pc, g: Gate, n: string) {
    pc.Request? && pc.req.ReqHeld? && pc.req.gate == g && pc.req.name == n
  }

  predicate AboutToBoot(pc: Pc, n: string) {
    pc == Command(UpBoot(n)) || (pc.Request? && pc.req.ReqHeld? && pc.req.at.AtBoot? && pc.req.name == n)
  }

  lemma AloneInSection(s: State, g: Gate, n: string, t: nat, u: nat)
    requires OneHolder(s) && RefsOk(s)
    requires t in s.tasks && u in s.tasks && InSection(s.tasks[t].pc, g, n) && InSection(s.tasks[u].pc, g, n)
    ensures t == u
  {
    assert RefOk(s, RefOf(s.tasks[t].pc).value) && RefOk(s, RefOf(s.tasks[u].pc).value);
    var l := s.tasks[t].pc.req.lock;
    assert Holds(s.tasks[t], BootLock(l)) && Holds(s.tasks[u], BootLock(l));
  }

  /** Nobody but requests through `g` is about to boot `n`. */
  predicate OnlyThrough(s: State, g: Gate, n: string) {
    forall t <- s.tasks :: AboutToBoot(s.tasks[t].pc, n) ==> InSection(s.tasks[t].pc, g, n)
  }

  predicate BootsFresh(s: State, n: string) {
    forall t <- s.tasks :: AboutToBoot(s.tasks[t].pc, n) ==> !IsRunning(s.sup, n)
  }

  lemma ActionBoots(pc: Pc, c: Choice, n: string)
    ensures ActionOf(pc, c).Some? && ActionOf(pc, c).value.Boot? && ActionOf(pc, c).value.name == n <==>
            AboutToBoot(pc, n)
  {}

  /** A task gets ready to boot after reading the registry, or, inside its lock, after seeing the app down. */
  lemma NextAboutToBoot(s: State, pc: Pc, c: Choice, n: string)
    ensures var next := Exec(s, pc, c).1;
            next.Some? && AboutToBoot(next.value, n) ==>
              || pc == Command(UpLoad(n))
              || (pc.Request? && pc.req.ReqHeld? && pc.req.at.AtCheck? && pc.req.name == n && !IsRunning(s.sup, n) &&
                  Exec(s, pc, c).0.sup == s.sup && RefOf(next.value) == RefOf(pc))
  {
    match pc
    case Request(req) =>
    case Command(cmd) => CommandSteps(s, cmd, c);
    case Registry(reg) => RegistrySteps(s, reg, c);
    case Cert(cert) => CertSteps(s, cert, c, RegistrySans(s.registry.Keys));
    case Scanner(scan) => ScannerSteps(s, scan, c);
  }

  lemma BootsFreshKept(s: State, lab: Label, g: Gate, n: string)
    requires SystemInv(s) && OnlyThrough(s, g, n) && BootsFresh(s, n)
    requires OnlyThrough(Next(s, lab), g, n)
    ensures BootsFresh(Next(s, lab), n)
  {
    if Enabled(s, lab) {
      match lab
      case Do(t, c) => BootsFreshDo(s, t, c, g, n);
      case Watch(id) => OnlyBootStarts(s.sup, WriteBack(id), n);
      case Outside(a) => OnlyBootStarts(s.sup, a, n);
      case Spawn(_, _) =>
      case Acquire(_) =>
      case Cancel(_) =>
    }
  }

  lemma BootsFreshDo(s: State, t: nat, c: Choice, g: Gate, n: string)
    requires SystemInv(s) && OnlyThrough(s, g, n) && BootsFresh(s, n) && Enabled(s, Do(t, c))
    requires OnlyThrough(Next(s, Do(t, c)), g, n)
    ensures BootsFresh(Next(s, Do(t, c)), n)
  {
    var s' := Next(s, Do(t, c));
    var pc := s.tasks[t].pc;
    AnyStep(s, pc, c);
    ActionBoots(pc, c, n);
    NextAboutToBoot(s, pc, c, n);
    if !AboutToBoot(pc, n) && ActionOf(pc, c).Some? {
      OnlyBootStarts(s.sup, ActionOf(pc, c).value, n);
    }
    forall u <- s'.tasks | AboutToBoot(s'.tasks[u].pc, n) ensures !IsRunning(s'.sup, n) {
      if u != t && AboutToBoot(pc, n) {
        AloneInSection(s, g, n, t, u);
      }
    }
  }

  /** Single flight, over a whole run: no boot of `n` is ever turned away as already running. */
  lemma {:induction false} SingleFlight(labels: seq<Label>, g: Gate, n: string)
    requires forall k :: 0 <= k <= |labels| ==> OnlyThrough(RunAll(START, labels[..k]), g, n)
    ensures BootsFresh(RunAll(START, labels), n)
    ensures var s := RunAll(START, labels);
            forall t, c: Choice :: t in s.tasks && AboutToBoot(s.tasks[t].pc, n) ==>
              UpResult(s.sup, n, c.env) != Err(AlreadyRunning)
    decreases |labels|
  {
    if labels != [] {
      var before := labels[..|labels| - 1];
      forall k | 0 <= k <= |before| ensures OnlyThrough(RunAll(START, before[..k]), g, n) {
        assert before[..k] == labels[..k];
      }
      SingleFlight(before, g, n);
      EveryReachable(before);
      assert labels[..|labels| - 1] == before && labels[..|labels|] == labels;
      BootsFreshKept(RunAll(START, before), labels[|labels| - 1], g, n);
    }
  }

  // ---------------------------------------------------------------- the served certificate

  /** In every state the served key carries the stored list, whatever its order. */
  lemma ServedMatchesStored(labels: seq<Label>)
    ensures var s := RunAll(START, labels);
            s.leaf.Some? ==> multiset(s.leaf.value.key) == multiset(s.leaf.value.sans)
  {
    EveryReachable(labels);
  }

  /** Once a reload has succeeded after the last save, the list served is the registry's. */
  lemma ServedIsCurrent(labels: seq<Label>, k: string)
    requires RunAll(START, labels).reloaded && k in RunAll(START, labels).registry
    ensures var s := RunAll(START, labels);
            && s.leaf.Some? && s.leaf.value.sans == RegistrySans(s.registry.Keys)
            && exists san :: san in s.leaf.value.key && Matches(san, HostOf(k))
  {
    EveryReachable(labels);
    var s := RunAll(START, labels);
    RegisteredCovered(s.registry.Keys, k);
    var san :| san in RegistrySans(s.registry.Keys) && Matches(san, HostOf(k));
    SameMultisetSameElements(s.leaf.value.sans, s.leaf.value.key);
    assert san in Elements(s.leaf.value.sans);
    assert san in s.leaf.value.key;
  }

  predicate Reloading(pc: Pc) {
    pc.Cert? && (pc.cert.ReloadCheck? || pc.cert.ReloadInstall?)
  }

  /** The reload kept the served pair, or it succeeded and serves the registry's names. */
  ghost predicate ReloadEnds(s: State, s': State, pc: CertPc)
    requires pc.ReloadCheck? || pc.ReloadInstall?
  {
    && s'.registry == s.registry == pc.saved
    && (s'.leaf == s.leaf ||
        (s'.reloaded && s'.leaf.Some? && s'.leaf.value.sans == RegistrySans(s.registry.Keys)))
    && (pc.ReloadCheck? ==> s'.leaf == s.leaf && s'.disk == s.disk)
  }

  /**
   How a mutation's reload ends: it succeeds on the very registry just saved, with no other change in
   between, or it leaves the served pair as it was.
   */
  lemma ReloadOutcome(labels: seq<Label>, s: State, t: nat, c: Choice)
    requires s == RunAll(START, labels) && Enabled(s, Do(t, c)) && Reloading(s.tasks[t].pc)
    ensures ReloadEnds(s, Next(s, Do(t, c)), s.tasks[t].pc.cert)
  {
    EveryReachable(labels);
    assert MemoryOk(s, s.tasks[t].pc);
    ReloadStep(s, t, c, s.tasks[t].pc.cert);
  }

  lemma ReloadStep(s: State, t: nat, c: Choice, pc: CertPc)
    requires Enabled(s, Do(t, c)) && s.tasks[t].pc == Cert(pc) && MemoryOk(s, Cert(pc)) && Reloading(Cert(pc))
    ensures ReloadEnds(s, Next(s, Do(t, c)), pc)
  {
    CertNext(s, t, c);
    CertOutcome(s, pc, c, RegistrySans(s.registry.Keys));
  }

  lemma CertNext(s: State, t: nat, c: Choice)
    requires Enabled(s, Do(t, c)) && s.tasks[t].pc.Cert?
    ensures var s' := Next(s, Do(t, c));
            var done := CertStep(s, s.tasks[t].pc.cert, c, RegistrySans(s.registry.Keys)).0;
            s'.registry == done.registry && s'.leaf == done.leaf && s'.disk == done.disk && s'.reloaded == done.reloaded
  {}

  lemma CertOutcome(s: State, pc: CertPc, c: Choice, sans: seq<string>)
    requires pc.ReloadCheck? || (pc.ReloadInstall? && pc.sans == sans)
    ensures var s' := CertStep(s, pc, c, sans).0;
            && s'.registry == s.registry
            && (s'.leaf == s.leaf || (s'.reloaded && s'.leaf == Some(Leaf(sans, s'.leaf.value.key))))
            && (pc.ReloadCheck? ==> s'.leaf == s.leaf && s'.disk == s.disk)
  {}
}
