/** An app taken out of the registry goes down, whoever still holds its old entry, and only such an app is reaped. */
module Removal {
  import opened Wrappers
  import opened Lifecycle
  import opened LifecycleProofs
  import opened Sans
  import opened BootLocks
  import opened Daemon
  import opened DaemonProofs
  import opened DaemonTheorems

  // ---------------------------------------------------------------- removed apps go away

  /** The task read the registry while `n` was in it and has not yet finished its boot attempt. */
  predicate IsStale(pc: Pc, n: string) {
    match pc
    case Request(ReqSweep(_, m)) => m == n
    case Request(ReqUpgrade(_, m)) => m == n
    case Request(ReqLock(_, m, _)) => m == n
    case Request(ReqHeld(_, m, _, at)) => m == n && (at.AtCheck? || at.AtBoot?)
    case Command(UpBoot(m)) => m == n
    case _ => false
  }

  function StaleTasks(s: State, n: string): set<nat> {
    set t | t in s.tasks && IsStale(s.tasks[t].pc, n)
  }

  /** Twice the stale callers, plus one if the app runs. */
  function Rank(s: State, n: string): nat {
    2 * |StaleTasks(s, n)| + (if IsRunning(s.sup, n) then 1 else 0)
  }

  lemma NextStale(s: State, pc: Pc, c: Choice, n: string)
    requires n !in s.registry
    ensures var next := Exec(s, pc, c).1;
            next.Some? && IsStale(next.value, n) ==> IsStale(pc, n) && !AboutToBoot(pc, n)
  {
    match pc
    case Request(req) =>
    case Command(cmd) => CommandSteps(s, cmd, c);
    case Registry(reg) => RegistrySteps(s, reg, c);
    case Cert(cert) => CertSteps(s, cert, c, RegistrySans(s.registry.Keys));
    case Scanner(scan) => ScannerSteps(s, scan, c);
  }

  lemma StaleOnlyShrinks(s: State, lab: Label, n: string)
    requires n !in s.registry
    ensures StaleTasks(Next(s, lab), n) <= StaleTasks(s, n)
    ensures Enabled(s, lab) && lab.Do? && AboutToBoot(s.tasks[lab.t].pc, n) ==>
              lab.t in StaleTasks(s, n) && lab.t !in StaleTasks(Next(s, lab), n)
  {
    if Enabled(s, lab) && lab.Do? {
      AnyStep(s, s.tasks[lab.t].pc, lab.c);
      NextStale(s, s.tasks[lab.t].pc, lab.c, n);
    }
  }

  ghost predicate SameCounts(s: SupState, s': SupState, n: string) {
    Boots(s'.history, n) == Boots(s.history, n) && Exits(s'.history, n) == Exits(s.history, n)
  }

  lemma StepCounts(s: State, lab: Label, n: string)
    requires SystemInv(s)
    ensures var s' := Next(s, lab);
            && Boots(s.sup.history, n) <= Boots(s'.sup.history, n) <= Boots(s.sup.history, n) + 1
            && Exits(s.sup.history, n) <= Exits(s'.sup.history, n) <= Exits(s.sup.history, n) + 1
            && (Boots(s'.sup.history, n) > Boots(s.sup.history, n) ==>
                  && Enabled(s, lab) && lab.Do? && AboutToBoot(s.tasks[lab.t].pc, n)
                  && Exits(s'.sup.history, n) == Exits(s.sup.history, n))
  {
    if Enabled(s, lab) {
      match lab
      case Do(t, c) =>
        AnyStep(s, s.tasks[t].pc, c);
        ActionBoots(s.tasks[t].pc, c, n);
        if ActionOf(s.tasks[t].pc, c).Some? {
          ActionCounts(s.sup, ActionOf(s.tasks[t].pc, c).value, n);
        }
      case Watch(id) => ActionCounts(s.sup, WriteBack(id), n);
      case Outside(a) => ActionCounts(s.sup, a, n);
      case Spawn(_, _) =>
      case Acquire(_) =>
      case Cancel(_) =>
    }
  }

  /**
   While `n` is unregistered, its rank never grows, and each boot or exit of it lowers the rank: a boot
   uses up a stale caller, an exit takes it from running to not running.
   */
  lemma RankFalls(s: State, lab: Label, n: string)
    requires SystemInv(s) && n !in s.registry
    ensures Rank(Next(s, lab), n) <= Rank(s, n)
    ensures var s' := Next(s, lab);
            Boots(s'.sup.history, n) + |StaleTasks(s', n)| <= Boots(s.sup.history, n) + |StaleTasks(s, n)|
    ensures !SameCounts(s.sup, Next(s, lab).sup, n) ==> Rank(Next(s, lab), n) < Rank(s, n)
  {
    var s' := Next(s, lab);
    StepInv(s, lab);
    StaleOnlyShrinks(s, lab, n);
    StepCounts(s, lab, n);
    BalanceAt(s.sup, n);
    BalanceAt(s'.sup, n);
    SubsetCount(StaleTasks(s', n), StaleTasks(s, n));
    if Boots(s'.sup.history, n) > Boots(s.sup.history, n) {
      SubsetCount(StaleTasks(s', n), StaleTasks(s, n) - {lab.t});
    }
  }

  ghost predicate UnregisteredThroughout(s: State, labels: seq<Label>, n: string) {
    forall k :: 0 <= k <= |labels| ==> n !in RunAll(s, labels[..k]).registry
  }

  /**
   After a removal that is not undone: further boots number at most the callers that had read the old
   registry, and boots and exits together at most the rank.
   */
  lemma {:induction false} StaleBootsBounded(s: State, labels: seq<Label>, n: string)
    requires SystemInv(s) && UnregisteredThroughout(s, labels, n)
    ensures var s' := RunAll(s, labels);
            && Boots(s'.sup.history, n) + |StaleTasks(s', n)| <= Boots(s.sup.history, n) + |StaleTasks(s, n)|
            && Boots(s'.sup.history, n) + Exits(s'.sup.history, n) + Rank(s', n) <=
               Boots(s.sup.history, n) + Exits(s.sup.history, n) + Rank(s, n)
            && SystemInv(s')
    decreases |labels|
  {
    if labels != [] {
      var before := labels[..|labels| - 1];
      forall k | 0 <= k <= |before| ensures n !in RunAll(s, before[..k]).registry {
        assert before[..k] == labels[..k];
      }
      StaleBootsBounded(s, before, n);
      var mid := RunAll(s, before);
      var lab := labels[|labels| - 1];
      assert labels[..|before|] == before;
      StepInv(mid, lab);
      RankFalls(mid, lab, n);
      StepCounts(mid, lab, n);
    }
  }

  /**
   Once more exits were seen than there were stale callers, the removed app is down for good: whatever goes
   on, it does not run again while it stays unregistered.
   */
  lemma RemovedAppGoesDown(s: State, labels: seq<Label>, more: seq<Label>, n: string)
    requires SystemInv(s) && UnregisteredThroughout(s, labels + more, n)
    requires Exits(RunAll(s, labels).sup.history, n) - Exits(s.sup.history, n) > |StaleTasks(s, n)|
    ensures !IsRunning(RunAll(s, labels + more).sup, n)
  {
    RunAllConcat(s, labels, more);
    RunAllInv(s, labels);
    BootsGrow(RunAll(s, labels), more, n);
    StaleBootsBounded(s, labels + more, n);
    BalanceAt(s.sup, n);
    BalanceAt(RunAll(s, labels + more).sup, n);
  }

  lemma {:induction false} RunAllConcat(s: State, a: seq<Label>, b: seq<Label>)
    ensures RunAll(s, a + b) == RunAll(RunAll(s, a), b)
    decreases |b|
  {
    if b == [] {
      assert a + b == a;
    } else {
      assert (a + b)[..|a + b| - 1] == a + b[..|b| - 1];
      RunAllConcat(s, a, b[..|b| - 1]);
    }
  }

  /** A name seen running and later not running has had an exit in between. */
  lemma {:induction false} DownMeansExit(s: State, labels: seq<Label>, n: string)
    requires SystemInv(s) && IsRunning(s.sup, n) && !IsRunning(RunAll(s, labels).sup, n)
    ensures Exits(RunAll(s, labels).sup.history, n) > Exits(s.sup.history, n)
  {
    RunAllInv(s, labels);
    BootsGrow(s, labels, n);
    BalanceAt(s.sup, n);
    BalanceAt(RunAll(s, labels).sup, n);
  }

  lemma {:induction false} BootsGrow(s: State, labels: seq<Label>, n: string)
    requires SystemInv(s)
    ensures Boots(s.sup.history, n) <= Boots(RunAll(s, labels).sup.history, n)
    ensures Exits(s.sup.history, n) <= Exits(RunAll(s, labels).sup.history, n)
    decreases |labels|
  {
    if labels != [] {
      var before := labels[..|labels| - 1];
      BootsGrow(s, before, n);
      RunAllInv(s, before);
      StepCounts(RunAll(s, before), labels[|labels| - 1], n);
    }
  }

  // ---------------------------------------------------------------- sweeps

  /** A sweep that has `n` among its candidates has not dealt with it yet. */
  predicate Ahead(pc: Pc, n: string) {
    match pc
    case Scanner(ScanLoad(candidates)) => n in candidates
    case Scanner(ScanNext(sweep)) => Pending(sweep, n)
    case Scanner(ScanForget(_, sweep)) => Pending(sweep, n)
    case Command(Stop(m, at, AfterReap(_, sweep))) => Pending(sweep, n) || (m == n && (at.Begin? ==> at.minIdle.None?))
    case Command(Stop(_, _, AfterIdle(sweep))) => Pending(sweep, n)
    case _ => false
  }

  predicate Pending(sweep: Sweep, n: string) {
    n in sweep.pending && Orphan(sweep.registered, n)
  }

  /** What a sweep needs to deal with `n`: its registry load works, and its reap of `n` does not give up. */
  predicate Firm(pc: Pc, c: Choice, n: string) {
    && (pc.Scanner? && pc.scan.ScanLoad? ==> c.ok)
    && (pc.Command? && pc.cmd.Stop? && pc.cmd.k.AfterReap? && pc.cmd.name == n && pc.cmd.at.Look? ==> c.more)
  }

  predicate FirmStep(s: State, lab: Label, t: nat, n: string) {
    lab.Do? && lab.t == t && t in s.tasks ==> Firm(s.tasks[t].pc, lab.c, n)
  }

  ghost predicate FirmThroughout(s: State, labels: seq<Label>, t: nat, n: string) {
    forall k :: 0 <= k < |labels| ==> FirmStep(RunAll(s, labels[..k]), labels[k], t, n)
  }

  /** A step of a firm sweep leaves `n` ahead as long as it is seen running. */
  lemma AheadStep(s: State, pc: Pc, c: Choice, n: string)
    requires Ahead(pc, n) && Firm(pc, c, n) && n !in s.registry && IsRunning(s.sup, n)
    ensures Exec(s, pc, c).1.Some? && Ahead(Exec(s, pc, c).1.value, n)
  {}

  predicate AheadIn(s: State, t: nat, n: string) {
    t in s.tasks && Ahead(s.tasks[t].pc, n)
  }

  lemma AheadKept(s: State, lab: Label, t: nat, n: string)
    requires AheadIn(s, t, n) && FirmStep(s, lab, t, n) && n !in s.registry && IsRunning(s.sup, n)
    ensures AheadIn(Next(s, lab), t, n)
  {
    if Enabled(s, lab) && lab.Do? {
      AnyStep(s, s.tasks[lab.t].pc, lab.c);
      if lab.t == t {
        AheadStep(s, s.tasks[t].pc, lab.c, n);
      }
    }
  }

  ghost predicate RunningThroughout(s: State, labels: seq<Label>, n: string) {
    forall k :: 0 <= k < |labels| ==> IsRunning(RunAll(s, labels[..k]).sup, n)
  }

  /** Until `n` is seen down, a firm sweep that found it running still has it ahead. */
  lemma {:induction false} AheadThroughout(s: State, labels: seq<Label>, t: nat, n: string)
    requires AheadIn(s, t, n) && UnregisteredThroughout(s, labels, n)
    requires FirmThroughout(s, labels, t, n) && RunningThroughout(s, labels, n)
    ensures AheadIn(RunAll(s, labels), t, n)
    decreases |labels|
  {
    if labels != [] {
      var before := labels[..|labels| - 1];
      assert forall k :: 0 <= k <= |before| ==> before[..k] == labels[..k];
      AheadThroughout(s, before, t, n);
      AheadKept(RunAll(s, before), labels[|labels| - 1], t, n);
    }
  }

  /** `t` takes its snapshot at the first step, with `n` running, and is done with the sweep at the end. */
  ghost predicate SweepFinds(s: State, labels: seq<Label>, t: nat, n: string) {
    && IsRunning(s.sup, n)
    && t in s.tasks && s.tasks[t].pc == Scanner(ScanSnapshot)
    && labels != [] && labels[0].Do? && labels[0].t == t && Enabled(s, labels[0])
    && FirmThroughout(s, labels, t, n)
    && t in RunAll(s, labels).tasks && RunAll(s, labels).tasks[t].pc == Scanner(ScanSleep)
  }

  /** A sweep that finds an unregistered app running does not end before the app was seen down. */
  lemma SweepTakesDown(s: State, labels: seq<Label>, t: nat, n: string)
    requires SweepFinds(s, labels, t, n) && UnregisteredThroughout(s, labels, n)
    ensures exists k :: 0 < k <= |labels| && !IsRunning(RunAll(s, labels[..k]).sup, n)
  {
    SweepStarts(s, labels, t, n);
    RestFacts(s, labels, t, n);
    RestTakesDown(Next(s, labels[0]), labels[1..], t, n);
    DownAfterFirst(s, labels, n);
  }

  /** After the snapshot `n` is ahead, and the sweep still ends asleep. */
  lemma SweepStarts(s: State, labels: seq<Label>, t: nat, n: string)
    requires SweepFinds(s, labels, t, n)
    ensures AheadIn(Next(s, labels[0]), t, n)
    ensures var end := RunAll(Next(s, labels[0]), labels[1..]);
            t in end.tasks && end.tasks[t].pc == Scanner(ScanSleep)
  {
    SnapshotFinds(s, labels[0], t, n);
    AfterFirst(s, labels, |labels| - 1);
    assert labels[..|labels|] == labels && labels[1..][..|labels| - 1] == labels[1..];
  }

  lemma DownAfterFirst(s: State, labels: seq<Label>, n: string)
    requires labels != []
    requires exists k :: 0 <= k < |labels| - 1 && !IsRunning(RunAll(Next(s, labels[0]), labels[1..][..k]).sup, n)
    ensures exists k :: 0 < k <= |labels| && !IsRunning(RunAll(s, labels[..k]).sup, n)
  {
    var k :| 0 <= k < |labels| - 1 && !IsRunning(RunAll(Next(s, labels[0]), labels[1..][..k]).sup, n);
    AfterFirst(s, labels, k);
  }

  lemma AfterFirst(s: State, labels: seq<Label>, k: nat)
    requires k < |labels|
    ensures RunAll(s, labels[..k + 1]) == RunAll(Next(s, labels[0]), labels[1..][..k])
  {
    assert labels[..k + 1] == labels[..1] + labels[1..][..k];
    RunAllConcat(s, labels[..1], labels[1..][..k]);
    assert labels[..1][..0] == [];
  }

  lemma RestFacts(s: State, labels: seq<Label>, t: nat, n: string)
    requires labels != [] && UnregisteredThroughout(s, labels, n) && FirmThroughout(s, labels, t, n)
    ensures UnregisteredThroughout(Next(s, labels[0]), labels[1..], n)
    ensures FirmThroughout(Next(s, labels[0]), labels[1..], t, n)
  {
    var s1, rest := Next(s, labels[0]), labels[1..];
    forall k | 0 <= k <= |rest| ensures n !in RunAll(s1, rest[..k]).registry {
      AfterFirst(s, labels, k);
    }
    forall k | 0 <= k < |rest| ensures FirmStep(RunAll(s1, rest[..k]), rest[k], t, n) {
      AfterFirst(s, labels, k);
      assert FirmStep(RunAll(s, labels[..k + 1]), labels[k + 1], t, n);
    }
  }

  lemma RestTakesDown(s: State, labels: seq<Label>, t: nat, n: string)
    requires AheadIn(s, t, n) && UnregisteredThroughout(s, labels, n) && FirmThroughout(s, labels, t, n)
    requires t in RunAll(s, labels).tasks && RunAll(s, labels).tasks[t].pc == Scanner(ScanSleep)
    ensures exists k :: 0 <= k < |labels| && !IsRunning(RunAll(s, labels[..k]).sup, n)
  {
    if RunningThroughout(s, labels, n) {
      AheadThroughout(s, labels, t, n);
      assert false;
    }
  }

  lemma SnapshotFinds(s: State, lab: Label, t: nat, n: string)
    requires IsRunning(s.sup, n) && t in s.tasks && s.tasks[t].pc == Scanner(ScanSnapshot)
    requires lab.Do? && lab.t == t && Enabled(s, lab)
    ensures AheadIn(Next(s, lab), t, n)
  {
    assert n in Candidates(s.sup);
  }

  /** So its exit was recorded meanwhile. */
  lemma SweepMeansExit(s: State, labels: seq<Label>, t: nat, n: string)
    requires SystemInv(s) && SweepFinds(s, labels, t, n) && UnregisteredThroughout(s, labels, n)
    ensures Exits(RunAll(s, labels).sup.history, n) > Exits(s.sup.history, n)
  {
    SweepTakesDown(s, labels, t, n);
    var k :| 0 < k <= |labels| && !IsRunning(RunAll(s, labels[..k]).sup, n);
    DownAtMeansExit(s, labels, k, n);
  }

  lemma DownAtMeansExit(s: State, labels: seq<Label>, k: nat, n: string)
    requires SystemInv(s) && k <= |labels| && IsRunning(s.sup, n) && !IsRunning(RunAll(s, labels[..k]).sup, n)
    ensures Exits(RunAll(s, labels).sup.history, n) > Exits(s.sup.history, n)
  {
    assert labels[..k] + labels[k..] == labels;
    DownThenMore(s, labels[..k], labels[k..], n);
  }

  lemma DownThenMore(s: State, labels: seq<Label>, more: seq<Label>, n: string)
    requires SystemInv(s) && IsRunning(s.sup, n) && !IsRunning(RunAll(s, labels).sup, n)
    ensures Exits(RunAll(s, labels + more).sup.history, n) > Exits(s.sup.history, n)
  {
    DownMeansExit(s, labels, n);
    RunAllInv(s, labels);
    BootsGrow(RunAll(s, labels), more, n);
    RunAllConcat(s, labels, more);
  }

  /** With no stale caller left, one sweep is enough: the app is down from then on. */
  lemma OneSweepSuffices(s: State, labels: seq<Label>, more: seq<Label>, t: nat, n: string)
    requires SystemInv(s) && StaleTasks(s, n) == {} && SweepFinds(s, labels, t, n)
    requires UnregisteredThroughout(s, labels + more, n)
    ensures !IsRunning(RunAll(s, labels + more).sup, n)
  {
    UnregisteredFront(s, labels, more, n);
    SweepMeansExit(s, labels, t, n);
    RemovedAppGoesDown(s, labels, more, n);
  }

  lemma UnregisteredFront(s: State, labels: seq<Label>, more: seq<Label>, n: string)
    requires UnregisteredThroughout(s, labels + more, n)
    ensures UnregisteredThroughout(s, labels, n)
  {
    forall k | 0 <= k <= |labels| ensures n !in RunAll(s, labels[..k]).registry {
      assert (labels + more)[..k] == labels[..k];
    }
  }

  /** Part of a run: what goes on before a sweep, and the sweep, which may belong to any scanner task. */
  datatype Round = Round(gap: seq<Label>, sweep: seq<Label>, t: nat)

  function RoundLabels(r: Round): seq<Label> {
    r.gap + r.sweep
  }

  function After(s: State, rounds: seq<Round>): State {
    if rounds == [] then s else RunAll(After(s, rounds[..|rounds| - 1]), RoundLabels(rounds[|rounds| - 1]))
  }

  /** In this round the sweep finds `n` running at its snapshot, and is done by the end. */
  ghost predicate RoundFinds(s: State, r: Round, n: string) {
    UnregisteredThroughout(s, RoundLabels(r), n) && SweepFinds(RunAll(s, r.gap), r.sweep, r.t, n)
  }

  /** Round after round finds `n` running. */
  ghost predicate RoundsFind(s: State, rounds: seq<Round>, n: string) {
    rounds == [] ||
    (RoundsFind(s, rounds[..|rounds| - 1], n) &&
     RoundFinds(After(s, rounds[..|rounds| - 1]), rounds[|rounds| - 1], n))
  }

  lemma RoundExits(s: State, r: Round, n: string)
    requires SystemInv(s) && RoundFinds(s, r, n)
    ensures Exits(RunAll(s, RoundLabels(r)).sup.history, n) > Exits(s.sup.history, n)
  {
    RunAllInv(s, r.gap);
    RunAllConcat(s, r.gap, r.sweep);
    BootsGrow(s, r.gap, n);
    UnregisteredBack(s, r.gap, r.sweep, n);
    SweepMeansExit(RunAll(s, r.gap), r.sweep, r.t, n);
  }

  lemma UnregisteredBack(s: State, a: seq<Label>, b: seq<Label>, n: string)
    requires UnregisteredThroughout(s, a + b, n)
    ensures UnregisteredThroughout(RunAll(s, a), b, n)
  {
    forall k | 0 <= k <= |b| ensures n !in RunAll(RunAll(s, a), b[..k]).registry {
      RunAllConcat(s, a, b[..k]);
      assert (a + b)[..|a| + k] == a + b[..k];
    }
  }

  lemma {:induction false} RoundsCount(s: State, rounds: seq<Round>, n: string)
    requires SystemInv(s) && RoundsFind(s, rounds, n)
    ensures var s' := After(s, rounds);
            && SystemInv(s')
            && Boots(s'.sup.history, n) + |StaleTasks(s', n)| <= Boots(s.sup.history, n) + |StaleTasks(s, n)|
            && Exits(s'.sup.history, n) >= Exits(s.sup.history, n) + |rounds|
    decreases |rounds|
  {
    if rounds != [] {
      var before := rounds[..|rounds| - 1];
      RoundsCount(s, before, n);
      var mid, last := After(s, before), rounds[|rounds| - 1];
      StaleBootsBounded(mid, RoundLabels(last), n);
      RoundExits(mid, last, n);
    }
  }

  /** One more such sweep than there were stale callers, and the app is down for good. */
  lemma SweepsLeaveDown(s: State, rounds: seq<Round>, more: seq<Label>, n: string)
    requires SystemInv(s) && RoundsFind(s, rounds, n) && |rounds| > |StaleTasks(s, n)|
    requires UnregisteredThroughout(After(s, rounds), more, n)
    ensures !IsRunning(RunAll(After(s, rounds), more).sup, n)
  {
    RoundsCount(s, rounds, n);
    BalanceAt(s.sup, n);
    StaleBootsBounded(After(s, rounds), more, n);
    BootsGrow(After(s, rounds), more, n);
    BalanceAt(RunAll(After(s, rounds), more).sup, n);
  }

  /**
   Of all the sweeps of a run whose load works and whose reap does not give up, at most one more than there
   were stale callers find the removed app running.
   */
  lemma ReapsBounded(s: State, rounds: seq<Round>, n: string)
    requires SystemInv(s) && RoundsFind(s, rounds, n)
    ensures |rounds| <= |StaleTasks(s, n)| + 1
  {
    RoundsCount(s, rounds, n);
    BalanceAt(s.sup, n);
    BalanceAt(After(s, rounds).sup, n);
  }

  // ---------------------------------------------------------------- a registered app is not reaped

  function SweepOf(pc: Pc): Option<Sweep> {
    match pc
    case Scanner(ScanNext(sweep)) => Some(sweep)
    case Scanner(ScanForget(_, sweep)) => Some(sweep)
    case Command(Stop(_, _, AfterReap(_, sweep))) => Some(sweep)
    case Command(Stop(_, _, AfterIdle(sweep))) => Some(sweep)
    case _ => None
  }

  /** Nothing this task remembers lets it take `n` for unregistered. */
  predicate KnowsRegistered(pc: Pc, n: string) {
    && (SweepOf(pc).Some? && SweepOf(pc).value.registered.Some? ==> n in SweepOf(pc).value.registered.value)
    && (ReapOf(pc).Some? ==> ReapOf(pc).value.0 != n)
  }

  lemma NextKnowsRegistered(s: State, pc: Pc, c: Choice, n: string)
    requires KnowsRegistered(pc, n) && n in s.registry
    ensures var next := Exec(s, pc, c).1;
            next.Some? ==> KnowsRegistered(next.value, n)
  {
    match pc
    case Request(req) => RequestSteps(s, req, c);
    case Command(cmd) =>
    case Registry(reg) => RegistrySweepless(s, reg, c);
    case Cert(cert) => CertSteps(s, cert, c, RegistrySans(s.registry.Keys));
    case Scanner(scan) =>
  }

  lemma RegistrySweepless(s: State, pc: RegistryPc, c: Choice)
    ensures var next := RegistryExec(s, pc, c).1;
            next.Some? ==> SweepOf(next.value).None? && ReapOf(next.value).None?
  {}

  predicate TaskKnows(s: State, t: nat, n: string) {
    t in s.tasks ==> KnowsRegistered(s.tasks[t].pc, n)
  }

  lemma TaskKnowsKept(s: State, lab: Label, t: nat, n: string)
    requires TaskKnows(s, t, n) && n in s.registry
    ensures TaskKnows(Next(s, lab), t, n)
  {
    if Enabled(s, lab) {
      if lab.Do? {
        AnyStep(s, s.tasks[lab.t].pc, lab.c);
        if lab.t == t {
          NextKnowsRegistered(s, s.tasks[t].pc, lab.c, n);
        }
      }
    }
  }

  /**
   A scanner that had not yet loaded the registry is not reaping `n` as long as `n` stays registered:
   only a name that was missing at the sweep's load can be reaped.
   */
  lemma {:induction false} RegisteredNeverReaped(s: State, labels: seq<Label>, t: nat, n: string)
    requires TaskKnows(s, t, n)
    requires forall k :: 0 <= k < |labels| ==> n in RunAll(s, labels[..k]).registry
    ensures TaskKnows(RunAll(s, labels), t, n)
    decreases |labels|
  {
    if labels != [] {
      var before := labels[..|labels| - 1];
      forall k | 0 <= k < |before| ensures n in RunAll(s, before[..k]).registry {
        assert before[..k] == labels[..k];
      }
      RegisteredNeverReaped(s, before, t, n);
      assert labels[..|before|] == before;
      TaskKnowsKept(RunAll(s, before), labels[|labels| - 1], t, n);
    }
  }

  /** In every reachable state, whoever is reaping an app loaded a registry without it: a failed load reaps nothing. */
  lemma ReapHasCause(labels: seq<Label>, t: nat)
    requires t in RunAll(START, labels).tasks && ReapOf(RunAll(START, labels).tasks[t].pc).Some?
    ensures var (n, sweep) := ReapOf(RunAll(START, labels).tasks[t].pc).value;
            sweep.registered.Some? && n !in sweep.registered.value
  {
    EveryReachable(labels);
    assert MemoryOk(RunAll(START, labels), RunAll(START, labels).tasks[t].pc);
  }

  // ---------------------------------------------------------------- an app added again in mid-sweep

  predicate InSweep(s: State, t: nat) {
    t in s.tasks && SweepOf(s.tasks[t].pc).Some?
  }

  ghost predicate InSweepThroughout(s: State, labels: seq<Label>, t: nat) {
    forall k :: 0 <= k <= |labels| ==> InSweep(RunAll(s, labels[..k]), t)
  }

  function BasisOf(s: State, t: nat): Option<set<string>>
    requires InSweep(s, t)
  {
    SweepOf(s.tasks[t].pc).value.registered
  }

  lemma OwnSweepStep(s: State, pc: Pc, c: Choice)
    requires SweepOf(pc).Some?
    ensures var next := Exec(s, pc, c).1;
            next.Some? && SweepOf(next.value).Some? ==>
              SweepOf(next.value).value.registered == SweepOf(pc).value.registered
  {}

  lemma SweepStepKeeps(s: State, lab: Label, t: nat)
    requires InSweep(s, t) && InSweep(Next(s, lab), t)
    ensures BasisOf(Next(s, lab), t) == BasisOf(s, t)
  {
    if Enabled(s, lab) && lab.Do? {
      AnyStep(s, s.tasks[lab.t].pc, lab.c);
      if lab.t == t {
        OwnSweepStep(s, s.tasks[t].pc, lab.c);
      }
    }
  }

  lemma {:induction false} SweepRunKeeps(s: State, labels: seq<Label>, t: nat)
    requires InSweepThroughout(s, labels, t)
    ensures InSweep(s, t) && InSweep(RunAll(s, labels), t)
    ensures BasisOf(RunAll(s, labels), t) == BasisOf(s, t)
    decreases |labels|
  {
    assert labels[..0] == [] && labels[..|labels|] == labels;
    if labels != [] {
      var before := labels[..|labels| - 1];
      forall k | 0 <= k <= |before| ensures InSweep(RunAll(s, before[..k]), t) {
        assert before[..k] == labels[..k];
      }
      SweepRunKeeps(s, before, t);
      SweepStepKeeps(RunAll(s, before), labels[|labels| - 1], t);
    }
  }

  /**
   From its load on, whatever the registry becomes meanwhile, a sweep goes by the names it loaded: when it
   gets to a candidate it reaps it exactly when the load worked and the name was missing then.
   */
  lemma ReapedExactly(s: State, t: nat, c: Choice, labels: seq<Label>, s2: State, d: Choice)
    requires Enabled(s, Do(t, c)) && s.tasks[t].pc.Scanner? && s.tasks[t].pc.scan.ScanLoad?
    requires InSweepThroughout(Next(s, Do(t, c)), labels, t) && s2 == RunAll(Next(s, Do(t, c)), labels)
    requires t in s2.tasks && s2.tasks[t].pc.Scanner? && s2.tasks[t].pc.scan.ScanNext?
    requires d.pick in s2.tasks[t].pc.scan.sweep.pending
    ensures var next := Exec(s2, s2.tasks[t].pc, d).1;
            next.Some? && ReapOf(next.value).Some? && ReapOf(next.value).value.0 == d.pick <==>
            c.ok && d.pick !in s.registry
  {
    SweepRunKeeps(Next(s, Do(t, c)), labels, t);
    assert BasisOf(Next(s, Do(t, c)), t) == if c.ok then Some(s.registry.Keys) else None;
  }
}
