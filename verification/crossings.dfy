/**
 Two things the daemon does not promise, each with a run that gets there: an idle stop can cross a request
 that is already routed, and the two listeners can boot the same app against each other.
 */
module Crossings {
  import opened Wrappers
  import opened Lifecycle
  import opened LifecycleProofs
  import opened Labels
  import opened Ordering
  import opened Daemon
  import opened DaemonProofs
  import opened DaemonTheorems
  import opened Removal

  /**
   Routing comes before recording: while a request that already has its port still waits to record itself,
   an idle stop of the same app goes ahead exactly when the older activity makes it due.
   */
  lemma UnrecordedRequestUnseen(s: State, t: nat, u: nat, n: string, window: nat, sweep: Sweep, c: Choice)
    requires t in s.tasks && s.tasks[t].pc == Request(ReqTouch(n))
    requires u in s.tasks && s.tasks[u] == Task(Command(Stop(n, Begin(Some(window)), AfterIdle(sweep))), true)
    requires Inv(s.sup)
    ensures var s' := Next(s, Do(u, c));
            && t in s'.tasks && s'.tasks[t] == s.tasks[t]
            && (s'.tasks[u].pc == Command(Stop(n, Wait, AfterIdle(sweep))) <==>
                IsRunning(s.sup, n) && NoActivitySince(s.sup, n, window))
            && (IsRunning(s.sup, n) && NoActivitySince(s.sup, n, window) ==> s'.sup.apps[n].intentionalStop)
  {
    IdleStopIsDue(s.sup, n, window);
  }

  /** Nothing of this incarnation was recorded within the last `window`. */
  ghost predicate NoActivitySince(s: SupState, n: string, window: nat) {
    forall i :: 0 <= i < |s.history| && LastSettled(s.history, n) <= i && Activity(s.history[i], n) ==>
      s.history[i].at + window <= s.clock
  }

  /**
   Single flight is per gate: with requests of both gates past their check, the boot of one turns the
   other's away.
   */
  lemma OtherGateTurnedAway(s: State, t: nat, u: nat, n: string, c: Choice, d: Choice)
    requires t in s.tasks && u in s.tasks && s.tasks[t].holding && !IsRunning(s.sup, n)
    requires InSection(s.tasks[t].pc, Http, n) && s.tasks[t].pc.req.at.AtBoot?
    requires InSection(s.tasks[u].pc, Https, n) && s.tasks[u].pc.req.at.AtBoot?
    requires UpResult(s.sup, n, c.env).Ok?
    ensures var s' := Next(s, Do(t, c));
            u in s'.tasks && s'.tasks[u] == s.tasks[u] && UpResult(s'.sup, n, d.env) == Err(AlreadyRunning)
  {
    AnyStep(s, s.tasks[t].pc, c);
    assert IsRunning(Apply(s.sup, Boot(n, c.idle, c.env)), n);
  }

  /** `t` waits at `g` to boot `n`: its check saw the app down. */
  predicate Waits(s: State, t: nat, g: Gate, n: string) {
    t in s.tasks && InSection(s.tasks[t].pc, g, n) && s.tasks[t].pc.req.at.AtBoot?
  }

  ghost predicate WaitsThroughout(s: State, labels: seq<Label>, t: nat, g: Gate, n: string) {
    forall k :: 0 <= k <= |labels| ==> Waits(RunAll(s, labels[..k]), t, g, n)
  }

  /** A boot of `n` that succeeds from outside its boot lock at `g`: through the other gate, or by a command. */
  predicate OutsideBoot(s: State, lab: Label, g: Gate, n: string) {
    && Enabled(s, lab) && lab.Do?
    && AboutToBoot(s.tasks[lab.t].pc, n) && !InSection(s.tasks[lab.t].pc, g, n)
    && UpResult(s.sup, n, lab.c.env).Ok?
  }

  function ExitsIn(s: State, n: string): nat {
    Exits(s.sup.history, n)
  }

  /** At step `k` the app was booted from outside, and it has not exited since. */
  ghost predicate BootedAt(s: State, labels: seq<Label>, k: nat, g: Gate, n: string) {
    && k < |labels|
    && OutsideBoot(RunAll(s, labels[..k]), labels[k], g, n)
    && ExitsIn(RunAll(s, labels[..k + 1]), n) == ExitsIn(RunAll(s, labels), n)
  }

  /** Only a successful boot raises the count, and while `t` waits it comes from outside its boot lock. */
  lemma RaiseIsOutside(s: State, lab: Label, t: nat, g: Gate, n: string)
    requires SystemInv(s) && Waits(s, t, g, n) && Waits(Next(s, lab), t, g, n)
    requires Boots(Next(s, lab).sup.history, n) > Boots(s.sup.history, n)
    ensures OutsideBoot(s, lab, g, n)
  {
    StepCounts(s, lab, n);
    BootRaises(s, lab, n);
    OwnBootLeaves(s, lab, t, g, n);
    if InSection(s.tasks[lab.t].pc, g, n) {
      AloneInSection(s, g, n, t, lab.t);
      assert false;
    }
  }

  lemma BootRaises(s: State, lab: Label, n: string)
    requires Enabled(s, lab) && lab.Do? && AboutToBoot(s.tasks[lab.t].pc, n)
    requires Boots(Next(s, lab).sup.history, n) > Boots(s.sup.history, n)
    ensures UpResult(s.sup, n, lab.c.env).Ok?
  {
    BootAction(s.tasks[lab.t].pc, lab.c, n);
    DoActs(s, lab.t, lab.c);
    ActionCounts(s.sup, Boot(n, lab.c.idle, lab.c.env), n);
  }

  lemma BootAction(pc: Pc, c: Choice, n: string)
    requires AboutToBoot(pc, n)
    ensures ActionOf(pc, c) == Some(Boot(n, c.idle, c.env))
  {}

  lemma DoActs(s: State, t: nat, c: Choice)
    requires Enabled(s, Do(t, c))
    ensures Next(s, Do(t, c)).sup == Acted(s.sup, ActionOf(s.tasks[t].pc, c))
  {
    AnyStep(s, s.tasks[t].pc, c);
  }

  /** Booting takes a request away from where it waited. */
  lemma OwnBootLeaves(s: State, lab: Label, t: nat, g: Gate, n: string)
    requires Enabled(s, lab) && lab.Do? && Waits(s, t, g, n) && Waits(Next(s, lab), t, g, n)
    ensures lab.t != t
  {}

  lemma OutsideRaises(s: State, lab: Label, g: Gate, n: string)
    requires OutsideBoot(s, lab, g, n)
    ensures IsRunning(Next(s, lab).sup, n)
  {
    BootAction(s.tasks[lab.t].pc, lab.c, n);
    DoActs(s, lab.t, lab.c);
  }

  /** Booted from outside and not exited since: it runs. */
  lemma BootedRuns(s: State, labels: seq<Label>, k: nat, g: Gate, n: string)
    requires SystemInv(s) && BootedAt(s, labels, k, g, n)
    ensures IsRunning(RunAll(s, labels).sup, n)
  {
    var front, rest := labels[..k + 1], labels[k + 1..];
    assert front + rest == labels;
    RunAllInv(s, front);
    JustBooted(s, labels, k, g, n);
    RunAllConcat(s, front, rest);
    RunsUnlessExit(RunAll(s, front), rest, n);
  }

  lemma JustBooted(s: State, labels: seq<Label>, k: nat, g: Gate, n: string)
    requires k < |labels| && OutsideBoot(RunAll(s, labels[..k]), labels[k], g, n)
    ensures IsRunning(RunAll(s, labels[..k + 1]).sup, n)
  {
    var front := labels[..k + 1];
    assert front[..k] == labels[..k];
    OutsideRaises(RunAll(s, labels[..k]), labels[k], g, n);
  }

  lemma RunsUnlessExit(s: State, labels: seq<Label>, n: string)
    requires SystemInv(s) && IsRunning(s.sup, n) && ExitsIn(RunAll(s, labels), n) == ExitsIn(s, n)
    ensures IsRunning(RunAll(s, labels).sup, n)
  {
    if !IsRunning(RunAll(s, labels).sup, n) {
      DownMeansExit(s, labels, n);
    }
  }

  /** A step that keeps the app running adds no exit. */
  lemma RunningStep(s: State, lab: Label, n: string)
    requires SystemInv(s) && IsRunning(s.sup, n) && IsRunning(Next(s, lab).sup, n)
    ensures ExitsIn(Next(s, lab), n) == ExitsIn(s, n)
  {
    StepCounts(s, lab, n);
    StepInv(s, lab);
    BalanceAt(s.sup, n);
    BalanceAt(Next(s, lab).sup, n);
  }

  /** A step that starts the app is a boot. */
  lemma StartingStep(s: State, lab: Label, t: nat, g: Gate, n: string)
    requires SystemInv(s) && Waits(s, t, g, n) && Waits(Next(s, lab), t, g, n)
    requires !IsRunning(s.sup, n) && IsRunning(Next(s, lab).sup, n)
    ensures OutsideBoot(s, lab, g, n)
  {
    StepCounts(s, lab, n);
    StepInv(s, lab);
    BalanceAt(s.sup, n);
    BalanceAt(Next(s, lab).sup, n);
    RaiseIsOutside(s, lab, t, g, n);
  }

  /** One more step without an exit changes nothing about an earlier boot. */
  lemma BootedStill(s: State, labels: seq<Label>, k: nat, g: Gate, n: string)
    requires labels != [] && BootedAt(s, labels[..|labels| - 1], k, g, n)
    requires ExitsIn(RunAll(s, labels), n) == ExitsIn(RunAll(s, labels[..|labels| - 1]), n)
    ensures BootedAt(s, labels, k, g, n)
  {
    var front := labels[..|labels| - 1];
    assert front[..k] == labels[..k] && front[..k + 1] == labels[..k + 1];
  }

  lemma {:induction false} RunsBooted(s: State, labels: seq<Label>, t: nat, g: Gate, n: string)
    requires SystemInv(s) && !IsRunning(s.sup, n) && WaitsThroughout(s, labels, t, g, n)
    requires IsRunning(RunAll(s, labels).sup, n)
    ensures exists k: nat :: BootedAt(s, labels, k, g, n)
    decreases |labels|
  {
    var m := |labels| - 1;
    var front := labels[..m];
    forall k | 0 <= k <= m ensures Waits(RunAll(s, front[..k]), t, g, n) {
      assert front[..k] == labels[..k];
    }
    assert front[..m] == front && labels[..m + 1] == labels;
    RunAllInv(s, front);
    if IsRunning(RunAll(s, front).sup, n) {
      RunsBooted(s, front, t, g, n);
      var k: nat :| BootedAt(s, front, k, g, n);
      RunningStep(RunAll(s, front), labels[m], n);
      BootedStill(s, labels, k, g, n);
    } else {
      StartingStep(RunAll(s, front), labels[m], t, g, n);
      assert BootedAt(s, labels, m, g, n);
    }
  }

  /**
   When single flight fails, exactly: a request that saw the app down, and waits to boot it, is turned away
   as already running if and only if somebody outside its boot lock has booted the app meanwhile and that
   incarnation has not exited.
   */
  lemma TurnedAwayExactly(s: State, labels: seq<Label>, t: nat, g: Gate, n: string, env: BootEnv)
    requires SystemInv(s) && !IsRunning(s.sup, n) && WaitsThroughout(s, labels, t, g, n)
    ensures UpResult(RunAll(s, labels).sup, n, env) == Err(AlreadyRunning) <==>
            exists k: nat :: BootedAt(s, labels, k, g, n)
  {
    if k: nat :| BootedAt(s, labels, k, g, n) {
      BootedRuns(s, labels, k, g, n);
    }
    if IsRunning(RunAll(s, labels).sup, n) {
      RunsBooted(s, labels, t, g, n);
    }
  }

  // ---------------------------------------------------------------- steps of a run

  predicate At(s: State, t: nat, pc: Pc) {
    t in s.tasks && s.tasks[t] == Task(pc, false)
  }

  /** What one step of `t` leaves behind. */
  function Moved(s: State, t: nat, pc: Pc, c: Choice): State {
    var (s', next) := Exec(s, pc, c);
    s'.(tasks := if next.Some? then s.tasks[t := Task(next.value, false)] else s.tasks - {t})
  }

  lemma Advance(s: State, t: nat, pc: Pc, c: Choice) returns (s': State)
    requires Reachable(s) && At(s, t, pc) && Wants(pc).None?
    ensures Reachable(s') && s' == Moved(s, t, pc, c)
  {
    s' := Next(s, Do(t, c));
    ReachableNext(s, Do(t, c));
  }

  function Locked(s: State, t: nat, pc: Pc): State {
    s.(tasks := s.tasks[t := Task(pc, true)])
  }

  lemma Take(s: State, t: nat, pc: Pc) returns (s': State)
    requires Reachable(s) && At(s, t, pc) && Wants(pc).Some? && Free(s, Wants(pc).value)
    ensures Reachable(s') && s' == Locked(s, t, pc)
  {
    s' := Next(s, Acquire(t));
    ReachableNext(s, Acquire(t));
  }

  lemma AdvanceLocked(s: State, t: nat, pc: Pc, c: Choice) returns (s': State)
    requires Reachable(s) && At(s, t, pc) && Wants(pc).Some? && Free(s, Wants(pc).value)
    ensures Reachable(s') && s' == Moved(Locked(s, t, pc), t, pc, c)
  {
    var s1 := Take(s, t, pc);
    s' := Next(s1, Do(t, c));
    ReachableNext(s1, Do(t, c));
  }

  lemma Start(s: State, t: nat, pc: Pc) returns (s': State)
    requires Reachable(s) && t !in s.tasks && CanStart(pc)
    ensures Reachable(s') && s' == s.(tasks := s.tasks[t := Task(pc, false)])
  {
    s' := Next(s, Spawn(t, pc));
    ReachableNext(s, Spawn(t, pc));
  }

  /** Nobody holds a lock, except that requests may be inside boot locks. */
  predicate Calm(s: State) {
    forall t <- s.tasks :: !s.tasks[t].holding && (Keeps(s.tasks[t].pc).Some? ==> Keeps(s.tasks[t].pc).value.BootLock?)
  }

  /** Nobody refers to the boot lock of `n` at `g`. */
  predicate Nobody(s: State, g: Gate, n: string) {
    forall t <- s.tasks :: RefOf(s.tasks[t].pc).Some? ==>
      RefOf(s.tasks[t].pc).value.gate != g || RefOf(s.tasks[t].pc).value.name != n
  }

  // ---------------------------------------------------------------- an app is added

  /** `t` adds `n` and is done; the certificate reload at the end fails. */
  lemma Adds(s: State, t: nat, n: string, path: string, c: Choice) returns (s': State)
    requires Reachable(s) && t !in s.tasks && Calm(s) && NameAllowed(n) && n !in s.registry && c.ok
    ensures Reachable(s') && s'.sup == s.sup && s'.tasks == s.tasks && s'.registry == s.registry[n := path]
  {
    s' := AddLoaded(s, t, n, path, c);
    s' := AddSaved(s', t, n, path, s.registry, c);
    s' := ReloadFails(s', t, s.registry[n := path], c.(ok := false));
    assert s'.tasks == s.tasks;
  }

  lemma AddSaved(s: State, t: nat, n: string, path: string, mem: map<string, string>, c: Choice) returns (s': State)
    requires Reachable(s) && At(s, t, Registry(AddSave(n, path, mem))) && c.ok
    ensures Reachable(s') && s'.sup == s.sup && s'.registry == mem[n := path]
    ensures s'.tasks == s.tasks[t := Task(Cert(ReloadCheck(mem[n := path])), false)]
  {
    s' := Advance(s, t, Registry(AddSave(n, path, mem)), c);
  }

  lemma ReloadFails(s: State, t: nat, saved: map<string, string>, c: Choice) returns (s': State)
    requires Reachable(s) && At(s, t, Cert(ReloadCheck(saved))) && !c.ok
    ensures Reachable(s') && s'.sup == s.sup && s'.registry == s.registry && s'.tasks == s.tasks - {t}
  {
    s' := Advance(s, t, Cert(ReloadCheck(saved)), c);
  }

  lemma AddLoaded(s: State, t: nat, n: string, path: string, c: Choice) returns (s': State)
    requires Reachable(s) && t !in s.tasks && Calm(s) && NameAllowed(n) && n !in s.registry && c.ok
    ensures Reachable(s') && s'.sup == s.sup && s'.registry == s.registry
    ensures s'.tasks == s.tasks[t := Task(Registry(AddSave(n, path, s.registry)), false)]
  {
    s' := AddChecked(s, t, n, path, c);
    s' := AdvanceLocked(s', t, Registry(AddLoad(n, path)), c);
  }

  lemma AddChecked(s: State, t: nat, n: string, path: string, c: Choice) returns (s': State)
    requires Reachable(s) && t !in s.tasks && NameAllowed(n) && c.ok
    ensures Reachable(s') && s'.sup == s.sup && s'.registry == s.registry
    ensures s'.tasks == s.tasks[t := Task(Registry(AddLoad(n, path)), false)]
  {
    assert AddKey(n, None) == Ok(n);
    s' := Start(s, t, Registry(AddCheck(n, None, path)));
    s' := Advance(s', t, Registry(AddCheck(n, None, path)), c);
  }

  lemma Registered(n: string, path: string, c: Choice) returns (s: State)
    requires NameAllowed(n) && c.ok
    ensures Reachable(s) && s.registry == map[n := path] && s.tasks == map[] && s.sup == INIT
  {
    ReachableStart();
    s := Adds(START, 0, n, path, c);
  }

  // ---------------------------------------------------------------- a request comes in

  /** It gets its boot lock and finds the app up or down. */
  lemma Enter(s: State, t: nat, g: Gate, n: string, c: Choice) returns (s': State, l: nat)
    requires Reachable(s) && t !in s.tasks && n in s.registry && c.ok && Calm(s) && Nobody(s, g, n)
    ensures Reachable(s') && s'.sup == s.sup && s'.registry == s.registry
    ensures s'.tasks == s.tasks[t := Task(Request(ReqHeld(g, n, l, AtCheck)), false)]
  {
    s', l := GetRef(s, t, g, n, c);
    OwnLockFree(s', t, g, n, l);
    s' := AdvanceLocked(s', t, Request(ReqLock(g, n, l)), c);
  }

  lemma GetRef(s: State, t: nat, g: Gate, n: string, c: Choice) returns (s': State, l: nat)
    requires Reachable(s) && t !in s.tasks && n in s.registry && c.ok && Calm(s)
    ensures Reachable(s') && s'.sup == s.sup && s'.registry == s.registry
    ensures s'.tasks == s.tasks[t := Task(Request(ReqLock(g, n, l)), false)]
  {
    s' := Start(s, t, Request(ReqLoad(g, n)));
    s' := Advance(s', t, Request(ReqLoad(g, n)), c);
    s', l := TakeRef(s', t, g, n, c);
  }

  lemma TakeRef(s: State, t: nat, g: Gate, n: string, c: Choice) returns (s': State, l: nat)
    requires Reachable(s) && At(s, t, Request(ReqSweep(g, n))) && Calm(s)
    ensures Reachable(s') && s'.sup == s.sup && s'.registry == s.registry
    ensures s'.tasks == s.tasks[t := Task(Request(ReqLock(g, n, l)), false)]
  {
    s' := Swept(s, t, g, n, c);
    s' := Advance(s', t, Request(ReqUpgrade(g, n)), c);
    l := s'.tasks[t].pc.req.lock;
  }

  lemma Swept(s: State, t: nat, g: Gate, n: string, c: Choice) returns (s': State)
    requires Reachable(s) && At(s, t, Request(ReqSweep(g, n))) && Calm(s)
    ensures Reachable(s') && s'.sup == s.sup && s'.registry == s.registry
    ensures s'.tasks == s.tasks[t := Task(Request(ReqUpgrade(g, n)), false)]
  {
    s' := AdvanceLocked(s, t, Request(ReqSweep(g, n)), c);
  }

  lemma OwnLockFree(s: State, t: nat, g: Gate, n: string, l: nat)
    requires Reachable(s) && At(s, t, Request(ReqLock(g, n, l)))
    requires forall u <- s.tasks :: u != t ==> !s.tasks[u].holding
    requires forall u <- s.tasks :: u != t && RefOf(s.tasks[u].pc).Some? ==>
               RefOf(s.tasks[u].pc).value.gate != g || RefOf(s.tasks[u].pc).value.name != n
    ensures Free(s, BootLock(l))
  {
    ReachableInv(s);
    forall u <- s.tasks ensures !Holds(s.tasks[u], BootLock(l)) {
      if u != t && Keeps(s.tasks[u].pc) == Some(BootLock(l)) {
        assert RefOk(s, RefOf(s.tasks[u].pc).value) && RefOk(s, Ref(g, n, l));
      }
    }
  }

  lemma Check(s: State, t: nat, g: Gate, n: string, l: nat, c: Choice) returns (s': State)
    requires Reachable(s) && At(s, t, Request(ReqHeld(g, n, l, AtCheck))) && Calm(s)
    ensures Reachable(s') && s'.sup == s.sup && s'.registry == s.registry
    ensures var at := if IsRunning(s.sup, n) then AtPoll else AtBoot;
            s'.tasks == s.tasks[t := Task(Request(ReqHeld(g, n, l, at)), false)]
  {
    s' := AdvanceLocked(s, t, Request(ReqHeld(g, n, l, AtCheck)), c);
  }

  lemma BootIt(s: State, t: nat, g: Gate, n: string, l: nat, c: Choice) returns (s': State)
    requires Reachable(s) && At(s, t, Request(ReqHeld(g, n, l, AtBoot))) && Calm(s)
    requires UpResult(s.sup, n, c.env).Ok?
    ensures Reachable(s') && s'.sup == Apply(s.sup, Boot(n, c.idle, c.env)) && s'.registry == s.registry
    ensures s'.tasks == s.tasks[t := Task(Request(ReqHeld(g, n, l, AtPoll)), false)]
  {
    s' := AdvanceLocked(s, t, Request(ReqHeld(g, n, l, AtBoot)), c);
  }

  /** The probe answers: the request has its port and leaves the boot lock. */
  lemma Routed(s: State, t: nat, g: Gate, n: string, l: nat, c: Choice) returns (s': State)
    requires Reachable(s) && At(s, t, Request(ReqHeld(g, n, l, AtPoll))) && Calm(s)
    requires IsRunning(s.sup, n) && c.ok
    ensures Reachable(s') && s'.sup == s.sup && s'.registry == s.registry
    ensures s'.tasks == s.tasks[t := Task(Request(ReqTouch(n)), false)]
  {
    s' := AdvanceLocked(s, t, Request(ReqHeld(g, n, l, AtPoll)), c);
    s' := Advance(s', t, Request(ReqHeld(g, n, l, AtProbe)), c);
  }

  lemma Recorded(s: State, t: nat, n: string, c: Choice) returns (s': State)
    requires Reachable(s) && At(s, t, Request(ReqTouch(n))) && Calm(s)
    ensures Reachable(s') && s'.sup == Apply(s.sup, Touch(n)) && s'.registry == s.registry
    ensures s'.tasks == s.tasks - {t}
  {
    s' := AdvanceLocked(s, t, Request(ReqTouch(n)), c);
  }

  // ---------------------------------------------------------------- both listeners at once

  /** For every name that can be registered, a run brings a request of each listener past its check. */
  lemma GatesCollide(n: string, path: string, c: Choice) returns (s: State)
    requires NameAllowed(n) && c.ok
    ensures Reachable(s) && 1 in s.tasks && 2 in s.tasks && s.tasks[1].holding && s.sup == INIT
    ensures InSection(s.tasks[1].pc, Http, n) && s.tasks[1].pc.req.at.AtBoot?
    ensures InSection(s.tasks[2].pc, Https, n) && s.tasks[2].pc.req.at.AtBoot?
  {
    var l, m;
    s := Registered(n, path, c);
    s, l := ReadyToBoot(s, 1, Http, n, c);
    s, m := ReadyToBoot(s, 2, Https, n, c);
    s := Take(s, 1, Request(ReqHeld(Http, n, l, AtBoot)));
  }

  lemma ReadyToBoot(s: State, t: nat, g: Gate, n: string, c: Choice) returns (s': State, l: nat)
    requires Reachable(s) && t !in s.tasks && n in s.registry && c.ok && Calm(s) && Nobody(s, g, n)
    requires !IsRunning(s.sup, n)
    ensures Reachable(s') && s'.sup == s.sup && s'.registry == s.registry
    ensures s'.tasks == s.tasks[t := Task(Request(ReqHeld(g, n, l, AtBoot)), false)]
  {
    s', l := Enter(s, t, g, n, c);
    s' := Check(s', t, g, n, l, c);
  }

  // ---------------------------------------------------------------- an app added again in mid-sweep

  /** A removal whose stop gives up drops the row and leaves the app running. */
  lemma Drops(s: State, t: nat, n: string, c: Choice) returns (s': State)
    requires Reachable(s) && s.tasks == map[] && n in s.registry && IsRunning(s.sup, n) && c.ok && !c.more
    ensures Reachable(s') && s'.tasks == map[] && s'.registry == Without(s.registry, {n}) && IsRunning(s'.sup, n)
  {
    var job := Job({n}, s.registry, [n], {});
    s' := DropStarts(s, t, n, job, c);
    s' := GivesUp(s', t, n, job, c);
    s' := DropEnds(s', t, n, job, c);
  }

  lemma DropStarts(s: State, t: nat, n: string, job: Job, c: Choice) returns (s': State)
    requires Reachable(s) && s.tasks == map[] && n in s.registry && IsRunning(s.sup, n) && c.ok
    requires job == Job({n}, s.registry, [n], {})
    ensures Reachable(s') && s'.sup == s.sup && s'.registry == s.registry
    ensures s'.tasks == map[t := Task(Command(Stop(n, Begin(None), AfterDereg(job))), false)]
  {
    s' := DropLoaded(s, t, n, job, c);
    s' := AdvanceLocked(s', t, Registry(Dereg(job, JobState)), c);
  }

  lemma DropLoaded(s: State, t: nat, n: string, job: Job, c: Choice) returns (s': State)
    requires Reachable(s) && s.tasks == map[] && n in s.registry && c.ok && job == Job({n}, s.registry, [n], {})
    ensures Reachable(s') && s'.sup == s.sup && s'.registry == s.registry
    ensures s'.tasks == map[t := Task(Registry(Dereg(job, JobState)), false)]
  {
    assert Elements([n]) == {n};
    s' := Start(s, t, Registry(DeregLoad(Some(n))));
    s' := AdvanceLocked(s', t, Registry(DeregLoad(Some(n))), c);
  }

  lemma GivesUp(s: State, t: nat, n: string, job: Job, c: Choice) returns (s': State)
    requires Reachable(s) && s.tasks == map[t := Task(Command(Stop(n, Begin(None), AfterDereg(job))), false)]
    requires IsRunning(s.sup, n) && !c.more
    ensures Reachable(s') && s'.sup == Apply(s.sup, BeginStop(n, None)) && s'.registry == s.registry
    ensures s'.tasks == map[t := Task(Registry(Dereg(job, JobForget)), false)]
  {
    s' := StopBegins(s, t, n, AfterDereg(job), c);
    s' := LooksOnce(s', t, n, job, c);
  }

  lemma StopBegins(s: State, t: nat, n: string, k: Cont, c: Choice) returns (s': State)
    requires Reachable(s) && s.tasks == map[t := Task(Command(Stop(n, Begin(None), k)), false)] && IsRunning(s.sup, n)
    ensures Reachable(s') && s'.sup == Apply(s.sup, BeginStop(n, None)) && s'.registry == s.registry
    ensures s'.tasks == map[t := Task(Command(Stop(n, Wait, k)), false)]
  {
    s' := AdvanceLocked(s, t, Command(Stop(n, Begin(None), k)), c);
  }

  lemma LooksOnce(s: State, t: nat, n: string, job: Job, c: Choice) returns (s': State)
    requires Reachable(s) && s.tasks == map[t := Task(Command(Stop(n, Wait, AfterDereg(job))), false)]
    requires IsRunning(s.sup, n) && !c.more
    ensures Reachable(s') && s'.sup == s.sup && s'.registry == s.registry
    ensures s'.tasks == map[t := Task(Registry(Dereg(job, JobForget)), false)]
  {
    s' := Advance(s, t, Command(Stop(n, Wait, AfterDereg(job))), c);
    s' := AdvanceLocked(s', t, Command(Stop(n, Look, AfterDereg(job))), c);
  }

  lemma DropEnds(s: State, t: nat, n: string, job: Job, c: Choice) returns (s': State)
    requires Reachable(s) && s.tasks == map[t := Task(Registry(Dereg(job, JobForget)), false)]
    requires IsRunning(s.sup, n) && c.ok && job == Job({n}, s.registry, [n], {})
    ensures Reachable(s') && s'.sup == s.sup && s'.tasks == map[] && s'.registry == Without(s.registry, {n})
  {
    s' := Forgets(s, t, n, job, c);
    s' := DropSaves(s', t, NextJob(job), c);
    s' := ReloadFails(s', t, NextJob(job).mem, c.(ok := false));
  }

  lemma Forgets(s: State, t: nat, n: string, job: Job, c: Choice) returns (s': State)
    requires Reachable(s) && s.tasks == map[t := Task(Registry(Dereg(job, JobForget)), false)]
    requires IsRunning(s.sup, n) && job.todo == [n]
    ensures Reachable(s') && s'.sup == s.sup && s'.registry == s.registry
    ensures s'.tasks == map[t := Task(Registry(Dereg(NextJob(job), JobSave)), false)]
  {
    s' := AdvanceLocked(s, t, Registry(Dereg(job, JobForget)), c);
  }

  lemma DropSaves(s: State, t: nat, job: Job, c: Choice) returns (s': State)
    requires Reachable(s) && At(s, t, Registry(Dereg(job, JobSave))) && c.ok
    ensures Reachable(s') && s'.sup == s.sup && s'.registry == job.mem
    ensures s'.tasks == s.tasks[t := Task(Cert(ReloadCheck(job.mem)), false)]
  {
    s' := Advance(s, t, Registry(Dereg(job, JobSave)), c);
  }

  /**
   For every name that can be registered, a run reaps it while it is registered: the sweep loaded the
   registry before the name was added again.
   */
  lemma RegisteredReaped(n: string, path: string, c: Choice) returns (s: State)
    requires NameAllowed(n) && c.ok && !c.more && c.pick == n && UpResult(INIT, n, c.env).Ok?
    ensures Reachable(s) && n in s.registry && IsRunning(s.sup, n)
    ensures 2 in s.tasks && ReapOf(s.tasks[2].pc).Some? && ReapOf(s.tasks[2].pc).value.0 == n
  {
    s := RunsDropped(n, path, c);
    var candidates := Candidates(s.sup);
    assert n in candidates;
    s := Snapshot(s, 2, candidates, c);
    s := Adds(s, 3, n, path, c);
    s := PicksOrphan(s, 2, Sweep(candidates, Some({})), n, c);
  }

  lemma RunsDropped(n: string, path: string, c: Choice) returns (s: State)
    requires NameAllowed(n) && c.ok && !c.more && UpResult(INIT, n, c.env).Ok?
    ensures Reachable(s) && s.registry.Keys == {} && IsRunning(s.sup, n) && s.tasks == map[]
  {
    s := Registered(n, path, c);
    s := BootedOnce(s, 1, n, c);
    s := Drops(s, 1, n, c);
  }

  lemma PicksOrphan(s: State, u: nat, all: Sweep, n: string, c: Choice) returns (s': State)
    requires Reachable(s) && At(s, u, Scanner(ScanNext(all))) && c.pick == n
    requires n in all.pending && Orphan(all.registered, n)
    ensures Reachable(s') && s'.sup == s.sup && s'.registry == s.registry
    ensures u in s'.tasks && ReapOf(s'.tasks[u].pc).Some? && ReapOf(s'.tasks[u].pc).value.0 == n
  {
    s' := Advance(s, u, Scanner(ScanNext(all)), c);
  }

  // ---------------------------------------------------------------- an idle stop and a routed request

  /** A request gets its port with the app already up. */
  lemma RoutedAgain(s: State, t: nat, n: string, c: Choice) returns (s': State)
    requires Reachable(s) && s.tasks == map[] && n in s.registry && c.ok && IsRunning(s.sup, n)
    ensures Reachable(s') && s'.sup == s.sup && s'.registry == s.registry
    ensures s'.tasks == map[t := Task(Request(ReqTouch(n)), false)]
  {
    var l;
    s', l := Enter(s, t, Http, n, c);
    s' := Check(s', t, Http, n, l, c);
    s' := Routed(s', t, Http, n, l, c);
  }

  /** A request boots the app, gets its port, is recorded and ends. */
  lemma BootedOnce(s: State, t: nat, n: string, c: Choice) returns (s': State)
    requires Reachable(s) && s.tasks == map[] && n in s.registry && c.ok && s.sup == INIT
    requires UpResult(INIT, n, c.env).Ok?
    ensures Reachable(s') && s'.sup == Apply(Apply(INIT, Boot(n, c.idle, c.env)), Touch(n))
    ensures s'.registry == s.registry && s'.tasks == map[]
  {
    var l;
    s', l := ReadyToBoot(s, t, Http, n, c);
    s' := BootIt(s', t, Http, n, l, c);
    s' := Routed(s', t, Http, n, l, c);
    s' := Recorded(s', t, n, c);
  }

  /** Then it is quiet for the whole window. */
  lemma QuietApp(n: string, path: string, window: nat, c: Choice) returns (s: State)
    requires NameAllowed(n) && c.ok && c.idle == Some(window) && UpResult(INIT, n, c.env).Ok?
    ensures Reachable(s) && s.registry == map[n := path] && s.tasks == map[]
    ensures IsRunning(s.sup, n) && IdleFor(s.sup, n) == window && s.sup.apps[n].idleTimeout == Some(window)
  {
    s := Registered(n, path, c);
    s := BootedOnce(s, 1, n, c);
    ReachableNext(s, Outside(Tick(window)));
    s := Next(s, Outside(Tick(window)));
  }

  /** A sweep takes its snapshot and loads the registry. */
  lemma Snapshot(s: State, u: nat, candidates: map<string, (nat, Option<nat>)>, c: Choice) returns (s': State)
    requires Reachable(s) && u !in s.tasks && Calm(s) && c.ok && candidates == Candidates(s.sup) != map[]
    ensures Reachable(s') && s'.sup == s.sup && s'.registry == s.registry
    ensures s'.tasks == s.tasks[u := Task(Scanner(ScanNext(Sweep(candidates, Some(s.registry.Keys)))), false)]
  {
    s' := Wakes(s, u, c);
    s' := TakeSnapshot(s', u, candidates, c);
    s' := Advance(s', u, Scanner(ScanLoad(candidates)), c);
  }

  lemma Wakes(s: State, u: nat, c: Choice) returns (s': State)
    requires Reachable(s) && u !in s.tasks
    ensures Reachable(s') && s'.sup == s.sup && s'.registry == s.registry
    ensures s'.tasks == s.tasks[u := Task(Scanner(ScanSnapshot), false)]
  {
    s' := Start(s, u, Scanner(ScanSleep));
    s' := Advance(s', u, Scanner(ScanSleep), c);
  }

  lemma TakeSnapshot(s: State, u: nat, candidates: map<string, (nat, Option<nat>)>, c: Choice) returns (s': State)
    requires Reachable(s) && At(s, u, Scanner(ScanSnapshot)) && Calm(s) && candidates == Candidates(s.sup) != map[]
    ensures Reachable(s') && s'.sup == s.sup && s'.registry == s.registry
    ensures s'.tasks == s.tasks[u := Task(Scanner(ScanLoad(candidates)), false)]
  {
    s' := AdvanceLocked(s, u, Scanner(ScanSnapshot), c);
  }

  /** It gets to `n`, finds it due, and holds the mutex to flag its stop. */
  lemma PicksDue(s: State, u: nat, all: Sweep, n: string, window: nat, c: Choice) returns (s': State)
    requires Reachable(s) && At(s, u, Scanner(ScanNext(all))) && Calm(s) && c.pick == n
    requires n in all.pending && !Orphan(all.registered, n) && all.pending[n].1 == Some(window) && Due(all.pending[n])
    ensures var rest := all.(pending := all.pending - {n});
            && Reachable(s') && s'.sup == s.sup
            && s'.tasks == s.tasks[u := Task(Command(Stop(n, Begin(Some(window)), AfterIdle(rest))), true)]
  {
    s' := Advance(s, u, Scanner(ScanNext(all)), c);
    s' := Take(s', u, Command(Stop(n, Begin(Some(window)), AfterIdle(all.(pending := all.pending - {n})))));
  }

  lemma Sweeps(s: State, u: nat, n: string, window: nat, c: Choice) returns (s': State, sweep: Sweep)
    requires Reachable(s) && u !in s.tasks && Calm(s) && n in s.registry && c.ok && c.pick == n
    requires IsRunning(s.sup, n) && IdleFor(s.sup, n) >= window && s.sup.apps[n].idleTimeout == Some(window)
    ensures Reachable(s') && s'.sup == s.sup
    ensures s'.tasks == s.tasks[u := Task(Command(Stop(n, Begin(Some(window)), AfterIdle(sweep))), true)]
  {
    var candidates := Candidates(s.sup);
    assert candidates[n] == (IdleFor(s.sup, n), Some(window));
    var all := Sweep(candidates, Some(s.registry.Keys));
    s' := Snapshot(s, u, candidates, c);
    s' := PicksDue(s', u, all, n, window, c);
    sweep := all.(pending := candidates - {n});
  }

  /** For every registrable name and window, a run gets a request routed and then flags the stop of its app. */
  lemma StopCrossesRequest(n: string, path: string, window: nat, c: Choice) returns (s: State, sweep: Sweep)
    requires NameAllowed(n) && c.ok && c.pick == n && c.idle == Some(window) && UpResult(INIT, n, c.env).Ok?
    ensures Reachable(s) && 2 in s.tasks && s.tasks[2].pc == Request(ReqTouch(n))
    ensures 3 in s.tasks && s.tasks[3] == Task(Command(Stop(n, Begin(Some(window)), AfterIdle(sweep))), true)
    ensures var s' := Next(s, Do(3, c));
            && 2 in s'.tasks && s'.tasks[2] == s.tasks[2]
            && IsRunning(s'.sup, n) && s'.sup.apps[n].intentionalStop
  {
    s := QuietApp(n, path, window, c);
    s := RoutedAgain(s, 2, n, c);
    s, sweep := Sweeps(s, 3, n, window, c);
    ReachableInv(s);
    IdleStopIsDue(s.sup, n, window);
    UnrecordedRequestUnseen(s, 2, 3, n, window, sweep, c);
  }
}
