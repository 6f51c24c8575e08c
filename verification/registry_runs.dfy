/** What concurrent adds, removals and prunes do to the registry, over every run. */
module RegistryRuns {
  import opened Wrappers
  import opened Labels
  import opened Ordering
  import opened Daemon
  import opened DaemonProofs

  /** The registry file is the successful saves replayed in lock order, and holds only valid keys. */
  lemma RegistryIsReplay(labels: seq<Label>)
    ensures var s := RunAll(START, labels);
            s.registry == ReplayCommits(s.commits) && forall k <- s.registry :: ValidKey(k)
  {
    EveryReachable(labels);
  }

  /** A prune plans the entries it was told are absent, a removal its one name, and only registered ones. */
  lemma PlanAtLoad(s: State, only: Option<string>, c: Choice)
    ensures var next := RegistryExec(s, DeregLoad(only), c).1;
            next.Some? ==> (
              && JobOf(next.value).Some?
              && JobOf(next.value).value.plan == (if only.Some? then {only.value} else s.registry.Keys * c.absent)
              && JobOf(next.value).value.plan <= s.registry.Keys)
  {
    match only
    case Some(n) => assert Elements([n]) == {n};
    case None =>
  }

  /** The plan does not change on the way. */
  lemma PlanKept(s: State, pc: Pc, c: Choice)
    requires JobOf(pc).Some?
    ensures var next := Exec(s, pc, c).1;
            next.Some? && JobOf(next.value).Some? ==> JobOf(next.value).value.plan == JobOf(pc).value.plan
  {
    match pc
    case Command(Stop(_, _, AfterDereg(job))) =>
    case Registry(Dereg(job, at)) =>
  }

  /** What one more save does to the registry: add a key that was free, or drop exactly the plan. */
  lemma CommitExact(labels: seq<Label>, t: nat, c: Choice)
    requires Enabled(RunAll(START, labels), Do(t, c))
    ensures var s := RunAll(START, labels);
            var pc := s.tasks[t].pc;
            var s' := Next(s, Do(t, c));
            || (s'.commits == s.commits && s'.registry == s.registry)
            || (pc.Registry? && pc.reg.AddSave? && s'.commits == s.commits + [Added(pc.reg.key, pc.reg.path)]
                && pc.reg.key !in s.registry && s'.registry == s.registry[pc.reg.key := pc.reg.path])
            || (JobOf(pc).Some? && s'.commits == s.commits + [Dropped(JobOf(pc).value.plan)]
                && JobOf(pc).value.plan <= s.registry.Keys && s'.registry == Without(s.registry, JobOf(pc).value.plan))
  {
    EveryReachable(labels);
    var s := RunAll(START, labels);
    var pc := s.tasks[t].pc;
    assert MemoryOk(s, pc);
    RegistryNeedsLock(s, pc, c);
    if pc.Registry? {
      CommitOf(s, pc.reg, c);
    }
  }

  /** The same for one registry step on its own. */
  lemma CommitOf(s: State, pc: RegistryPc, c: Choice)
    requires MemoryOk(s, Registry(pc))
    ensures var s' := RegistryExec(s, pc, c).0;
            || (s'.commits == s.commits && s'.registry == s.registry)
            || (pc.AddSave? && s'.commits == s.commits + [Added(pc.key, pc.path)]
                && pc.key !in s.registry && s'.registry == s.registry[pc.key := pc.path])
            || (pc.Dereg? && s'.commits == s.commits + [Dropped(pc.job.plan)]
                && pc.job.plan <= s.registry.Keys && s'.registry == Without(s.registry, pc.job.plan))
  {
    match pc
    case AddSave(key, path, mem) =>
    case Dereg(job, JobSave) =>
      assert job.gone == job.plan by { assert Elements([]) == {}; }
    case Dereg(_, _) => RegistryPlain(s, pc, c);
    case _ => RegistrySteps(s, pc, c);
  }

  lemma RegistryPlain(s: State, pc: RegistryPc, c: Choice)
    requires !pc.AddSave? && !(pc.Dereg? && pc.at.JobSave?)
    ensures RegistryExec(s, pc, c).0.registry == s.registry && RegistryExec(s, pc, c).0.commits == s.commits
  {}

  // ---------------------------------------------------------------- a removal or prune, from its load to its save

  predicate InJob(s: State, t: nat) {
    t in s.tasks && JobOf(s.tasks[t].pc).Some?
  }

  function PlanOf(s: State, t: nat): set<string>
    requires InJob(s, t)
  {
    JobOf(s.tasks[t].pc).value.plan
  }

  lemma OwnJobStep(s: State, pc: Pc, c: Choice)
    requires JobOf(pc).Some?
    ensures var (s', next) := Exec(s, pc, c);
            next.Some? && JobOf(next.value).Some? ==>
              s'.registry == s.registry && s'.commits == s.commits &&
              JobOf(next.value).value.plan == JobOf(pc).value.plan
  {
    PlanKept(s, pc, c);
    match pc
    case Command(cmd) => CommandSteps(s, cmd, c);
    case Registry(Dereg(job, at)) =>
  }

  /** While a task is at a removal or prune nobody changes the registry, and the task keeps its plan. */
  lemma JobStep(s: State, lab: Label, t: nat)
    requires SystemInv(s) && InJob(s, t) && InJob(Next(s, lab), t)
    ensures Next(s, lab).registry == s.registry && Next(s, lab).commits == s.commits
    ensures PlanOf(Next(s, lab), t) == PlanOf(s, t)
  {
    if Enabled(s, lab) && lab.Do? {
      AnyStep(s, s.tasks[lab.t].pc, lab.c);
      if lab.t == t {
        OwnJobStep(s, s.tasks[t].pc, lab.c);
      } else {
        OthersKeepRegistry(s, t, lab.t, lab.c);
      }
    }
  }

  lemma OthersKeepRegistry(s: State, t: nat, u: nat, c: Choice)
    requires OneHolder(s) && InJob(s, t) && u in s.tasks && u != t
    ensures var s' := Exec(s, s.tasks[u].pc, c).0;
            s'.registry == s.registry && s'.commits == s.commits
  {
    assert Holds(s.tasks[t], RegistryLock) && !Holds(s.tasks[u], RegistryLock);
    RegistryNeedsLock(s, s.tasks[u].pc, c);
  }

  ghost predicate InJobThroughout(s: State, labels: seq<Label>, t: nat) {
    forall k :: 0 <= k <= |labels| ==> InJob(RunAll(s, labels[..k]), t)
  }

  lemma {:induction false} JobRun(s: State, labels: seq<Label>, t: nat)
    requires SystemInv(s) && InJobThroughout(s, labels, t)
    ensures InJob(s, t) && InJob(RunAll(s, labels), t)
    ensures RunAll(s, labels).registry == s.registry && RunAll(s, labels).commits == s.commits
    ensures PlanOf(RunAll(s, labels), t) == PlanOf(s, t)
    decreases |labels|
  {
    assert labels[..0] == [] && labels[..|labels|] == labels;
    if labels != [] {
      var before := labels[..|labels| - 1];
      forall k | 0 <= k <= |before| ensures InJob(RunAll(s, before[..k]), t) {
        assert before[..k] == labels[..k];
      }
      JobRun(s, before, t);
      RunAllInv(s, before);
      JobStep(RunAll(s, before), labels[|labels| - 1], t);
    }
  }

  /** The names a removal or prune is to drop: its one name, or the registered ones confirmed absent. */
  function Planned(s: State, only: Option<string>, absent: set<string>): set<string> {
    if only.Some? then {only.value} else s.registry.Keys * absent
  }

  /**
   From load to save, whatever goes on in between: a removal or prune finds at its save the registry it
   loaded, and the save drops exactly what it planned then. A save that fails drops nothing.
   */
  lemma DeregistrationExact(s: State, t: nat, only: Option<string>, c: Choice, labels: seq<Label>, s2: State, d: Choice)
    requires SystemInv(s) && Enabled(s, Do(t, c)) && s.tasks[t].pc == Registry(DeregLoad(only))
    requires InJobThroughout(Next(s, Do(t, c)), labels, t) && s2 == RunAll(Next(s, Do(t, c)), labels)
    requires t in s2.tasks && s2.tasks[t].pc.Registry? && s2.tasks[t].pc.reg.Dereg? && s2.tasks[t].pc.reg.at.JobSave?
    ensures var plan := Planned(s, only, c.absent);
            var s' := Next(s2, Do(t, d));
            && s2.registry == s.registry && plan <= s.registry.Keys
            && s'.registry == (if d.ok then Without(s.registry, plan) else s.registry)
            && s'.commits == (if d.ok then s.commits + [Dropped(plan)] else s.commits)
  {
    var s1 := Next(s, Do(t, c));
    StepInv(s, Do(t, c));
    JobRun(s1, labels, t);
    LoadStep(s, t, only, c);
    RunAllInv(s1, labels);
    SaveStep(s2, t, d);
  }

  lemma LoadStep(s: State, t: nat, only: Option<string>, c: Choice)
    requires Enabled(s, Do(t, c)) && s.tasks[t].pc == Registry(DeregLoad(only)) && InJob(Next(s, Do(t, c)), t)
    ensures Next(s, Do(t, c)).registry == s.registry && Next(s, Do(t, c)).commits == s.commits
    ensures PlanOf(Next(s, Do(t, c)), t) == Planned(s, only, c.absent) <= s.registry.Keys
  {
    PlanAtLoad(s, only, c);
    RegistryPlain(s, DeregLoad(only), c);
  }

  lemma SaveStep(s: State, t: nat, d: Choice)
    requires SystemInv(s) && t in s.tasks
    requires s.tasks[t].pc.Registry? && s.tasks[t].pc.reg.Dereg? && s.tasks[t].pc.reg.at.JobSave?
    ensures var s' := Next(s, Do(t, d));
            && s'.registry == (if d.ok then Without(s.registry, PlanOf(s, t)) else s.registry)
            && s'.commits == (if d.ok then s.commits + [Dropped(PlanOf(s, t))] else s.commits)
  {
    var job := s.tasks[t].pc.reg.job;
    assert MemoryOk(s, s.tasks[t].pc);
    assert job.gone == job.plan by { assert Elements([]) == {}; }
  }
}
