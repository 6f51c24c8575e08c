/** The lifecycle invariants hold in every run, and what follows from them. */
module LifecycleProofs {
  import opened Wrappers
  import opened Lifecycle

  // ---------------------------------------------------------------- how one more event changes a history

  lemma Grow(h: seq<Event>, e: Event, n: string)
    ensures LastSettled(h + [e], n) == if Settles(e, n) then |h| else LastSettled(h, n)
    ensures Boots(h + [e], n) == Boots(h, n) + (if e.Booted? && e.name == n then 1 else 0)
    ensures Exits(h + [e], n) == Exits(h, n) + (if e.Exited? && e.name == n then 1 else 0)
  {}

  lemma GrowAsked(h: seq<Event>, e: Event, n: string, from: int, to: int)
    requires to <= |h| + 1
    ensures StopAsked(h + [e], n, from, to) <==> StopAsked(h, n, from, to) || (from < |h| < to && e == StopBegun(n))
  {
    var g := h + [e];
    if StopAsked(h, n, from, to) {
      var i :| 0 <= i && from < i < to && i < |h| && h[i] == StopBegun(n);
      assert g[i] == StopBegun(n);
    }
    if from < |h| < to && e == StopBegun(n) {
      assert g[|h|] == StopBegun(n);
    }
  }

  lemma GrowState(h: seq<Event>, e: Event, n: string)
    ensures StateOf(h + [e], n) == if Settles(e, n) then StateLeft(h, e, |h|) else StateOf(h, n)
  {}

  // ---------------------------------------------------------------- each step keeps the invariants

  lemma GrowStamp(h: seq<Event>, e: Event, n: string, from: int, t: nat)
    ensures StampedSince(h, n, from, t) ==> StampedSince(h + [e], n, from, t)
    ensures from <= |h| && Activity(e, n) && e.at == t ==> StampedSince(h + [e], n, from, t)
  {
    if StampedSince(h, n, from, t) {
      var i :| 0 <= i < |h| && from <= i && Activity(h[i], n) && h[i].at == t;
      assert (h + [e])[i] == h[i];
    }
    assert (h + [e])[|h|] == e;
  }

  /** Appending an event about another name, and changing nothing of `n`'s, keeps `n`'s entry right. */
  lemma OtherEntry(s: SupState, s': SupState, e: Event, n: string)
    requires EntryOk(s, n)
    requires s'.history == s.history + [e] && e.name != n && s'.clock == s.clock
    requires (n in s.apps <==> n in s'.apps) && (n in s.apps ==> s'.apps[n] == s.apps[n])
    requires forall id <- s.watchers :: s.watchers[id].name == n ==>
              id in s'.watchers && s'.watchers[id] == s.watchers[id]
    ensures EntryOk(s', n)
  {
    Grow(s.history, e, n);
    GrowState(s.history, e, n);
    GrowAsked(s.history, e, n, LastSettled(s.history, n), |s.history| + 1);
    GrowAsked(s.history, e, n, LastSettled(s.history, n), |s.history|);
    assert StopAsked(s.history, n, LastSettled(s.history, n), |s.history| + 1) <==>
           StopAsked(s.history, n, LastSettled(s.history, n), |s.history|);
    if IsRunning(s, n) {
      GrowStamp(s.history, e, n, LastSettled(s.history, n), s.apps[n].lastRequest);
    }
  }

  /** The same for a pending watcher of another name. */
  lemma OtherWatcher(s: SupState, s': SupState, e: Event, id: nat)
    requires id in s.watchers && WatcherOk(s, id)
    requires s'.history == s.history + [e] && !Settles(e, s.watchers[id].name)
    requires StateIn(s'.apps, s.watchers[id].name) == StateIn(s.apps, s.watchers[id].name)
    requires id in s'.watchers && s'.watchers[id] == s.watchers[id]
    ensures WatcherOk(s', id)
  {}

  lemma GrowExits(s: SupState, s': SupState, e: Event)
    requires ExitsOk(s) && s'.history == s.history + [e]
    requires forall i :: 0 <= i < |s.history| && s.history[i].Booted? && i in s.watchers && i !in s'.watchers ==>
      e.Exited? && e.incarnation == i
    requires e.Booted? ==> |s.history| in s'.watchers
    requires e.Exited? ==>
              e.incarnation < |s.history| && s.history[e.incarnation].Booted? && s.history[e.incarnation].name == e.name
    ensures ExitsOk(s')
  {
    var h, g := s.history, s'.history;
    forall i | 0 <= i < |g| && g[i].Booted? && i !in s'.watchers
      ensures ExitLogged(g, i, i + 1)
    {
      if i in s.watchers {
        assert g[|h|] == e;
      } else {
        var j :| i + 1 <= j < |h| && h[j].Exited? && h[j].incarnation == i;
        assert g[j] == h[j];
      }
    }
  }

  /** A stop request and a touch change one entry, and neither its state nor any watcher. */
  lemma MarkInv(s: SupState, s': SupState, e: Event)
    requires Inv(s)
    requires e.StopBegun? || (e.Touched? && e.at == s.clock)
    requires IsRunning(s, e.name)
    requires s' == s.(history := s.history + [e], apps := s.apps[e.name := Marked(s, e)])
    ensures Inv(s')
  {
    var n := e.name;
    forall m: string ensures EntryOk(s', m) {
      assert EntryOk(s, m);
      if m != n {
        OtherEntry(s, s', e, m);
      } else {
        MarkEntry(s, s', e);
      }
    }
    forall id <- s'.watchers ensures WatcherOk(s', id) {
      OtherWatcher(s, s', e, id);
    }
    GrowExits(s, s', e);
  }

  lemma MarkEntry(s: SupState, s': SupState, e: Event)
    requires EntryOk(s, e.name) && IsRunning(s, e.name)
    requires e.StopBegun? || (e.Touched? && e.at == s.clock)
    requires s' == s.(history := s.history + [e], apps := s.apps[e.name := Marked(s, e)])
    ensures EntryOk(s', e.name)
  {
    var n, h := e.name, s.history;
    var from := LastSettled(h, n);
    Grow(h, e, n);
    GrowState(h, e, n);
    GrowAsked(h, e, n, from, |h| + 1);
    assert StopAsked(h, n, from, |h| + 1) <==> StopAsked(h, n, from, |h|);
    GrowStamp(h, e, n, from, s'.apps[n].lastRequest);
  }

  function Marked(s: SupState, e: Event): AppRuntime
    requires e.name in s.apps
  {
    if e.StopBegun? then s.apps[e.name].(intentionalStop := true) else s.apps[e.name].(lastRequest := s.clock)
  }

  lemma StopInv(s: SupState, name: string, minIdle: Option<nat>)
    requires Inv(s)
    ensures Inv(WithStopFlag(s, name, minIdle))
  {
    if StopTaken(s, name, minIdle) { MarkInv(s, WithStopFlag(s, name, minIdle), StopBegun(name)); }
  }

  lemma TouchInv(s: SupState, name: string)
    requires Inv(s)
    ensures Inv(TouchState(s, name))
  {
    if IsRunning(s, name) { MarkInv(s, TouchState(s, name), Touched(name, s.clock)); }
  }

  lemma LaunchedEntry(s: SupState, name: string, idle: Option<nat>, pid: nat, port: nat)
    requires EntryOk(s, name) && !IsRunning(s, name)
    ensures EntryOk(Launched(s, name, idle, pid, port), name)
  {
    var s' := Launched(s, name, idle, pid, port);
    var e := Booted(name, pid, port, s.clock);
    Grow(s.history, e, name);
    GrowState(s.history, e, name);
    assert !StopAsked(s'.history, name, |s.history|, |s.history| + 1);
    GrowStamp(s.history, e, name, |s.history|, s.clock);
  }

  lemma LaunchedWatchers(s: SupState, name: string, idle: Option<nat>, pid: nat, port: nat)
    requires !IsRunning(s, name)
    requires forall id <- s.watchers :: WatcherOk(s, id)
    ensures var s' := Launched(s, name, idle, pid, port);
            forall id <- s'.watchers :: WatcherOk(s', id)
  {
    var s' := Launched(s, name, idle, pid, port);
    var e := Booted(name, pid, port, s.clock);
    forall id <- s'.watchers ensures WatcherOk(s', id) {
      if id == |s.history| {
        Grow(s.history, e, name);
      } else {
        OtherWatcher(s, s', e, id);
      }
    }
  }

  lemma LaunchedPorts(s: SupState, name: string, idle: Option<nat>, pid: nat, port: nat)
    requires PortsOk(s) && |s.history| !in s.watchers && port !in s.reserved
    ensures PortsOk(Launched(s, name, idle, pid, port))
  {
    assert forall id <- s.watchers :: s.watchers[id].port in s.reserved;
    var s' := Launched(s, name, idle, pid, port);
    assert s'.watchers[|s.history|].port == port;
    assert forall id <- s.watchers :: id in s'.watchers && s'.watchers[id] == s.watchers[id];
  }

  lemma LaunchedInv(s: SupState, name: string, idle: Option<nat>, pid: nat, port: nat)
    requires Inv(s) && !IsRunning(s, name) && port !in s.reserved
    ensures Inv(Launched(s, name, idle, pid, port))
  {
    var s' := Launched(s, name, idle, pid, port);
    var e := Booted(name, pid, port, s.clock);
    assert |s.history| !in s.watchers;
    forall m: string ensures EntryOk(s', m) {
      if m != name {
        OtherEntry(s, s', e, m);
      } else {
        LaunchedEntry(s, name, idle, pid, port);
      }
    }
    LaunchedWatchers(s, name, idle, pid, port);
    LaunchedPorts(s, name, idle, pid, port);
    GrowExits(s, s', e);
  }

  lemma BootInv(s: SupState, name: string, idle: Option<nat>, env: BootEnv)
    requires Inv(s)
    ensures Inv(Up(s, name, idle, env))
  {
    if UpResult(s, name, env).Ok? {
      LaunchedInv(s, name, idle, UpResult(s, name, env).value, Precheck(s, name, env).value);
    } else {
      SameEntries(s, Up(s, name, idle, env));
      assert forall id <- s.watchers :: s.watchers[id].port in s.reserved;
    }
  }

  /** Steps that touch neither entries, watchers' identity nor history. */
  lemma SameEntries(s: SupState, s': SupState)
    requires Inv(s)
    requires s'.apps == s.apps && s'.history == s.history && s'.clock >= s.clock
    requires s'.watchers.Keys == s.watchers.Keys
    requires forall id <- s.watchers :: s'.watchers[id].(exit := None) == s.watchers[id].(exit := None)
    ensures forall m: string :: EntryOk(s', m)
    ensures forall id <- s'.watchers :: WatcherOk(s', id)
    ensures ExitsOk(s')
  {
    forall m: string ensures EntryOk(s', m) {
      assert EntryOk(s, m);
      if IsRunning(s, m) {
        var id := LastSettled(s.history, m);
        assert s'.watchers[id].(exit := None) == s.watchers[id].(exit := None);
      }
    }
    forall id <- s'.watchers ensures WatcherOk(s', id) {
      assert WatcherOk(s, id);
      assert s'.watchers[id].(exit := None) == s.watchers[id].(exit := None);
    }
  }

  lemma TickInv(s: SupState, ms: nat)
    requires Inv(s)
    ensures Inv(Apply(s, Tick(ms)))
  {
    SameEntries(s, Apply(s, Tick(ms)));
  }

  lemma ChildExitInv(s: SupState, id: nat, status: ExitStatus)
    requires Inv(s)
    ensures Inv(Apply(s, ChildExit(id, status)))
  {
    ChildExitOnly(s, id, status);
    SameEntries(s, Apply(s, ChildExit(id, status)));
    ChildExitPorts(s, id, status);
  }

  /** An exit shows in its watcher and nowhere else. */
  lemma ChildExitOnly(s: SupState, id: nat, status: ExitStatus)
    ensures var s' := Apply(s, ChildExit(id, status));
            && s' == s.(watchers := s'.watchers) && s'.watchers.Keys == s.watchers.Keys
            && forall i <- s.watchers :: s'.watchers[i].(exit := None) == s.watchers[i].(exit := None)
  {}

  lemma ChildExitPorts(s: SupState, id: nat, status: ExitStatus)
    requires PortsOk(s)
    ensures PortsOk(Apply(s, ChildExit(id, status)))
  {
    var s' := Apply(s, ChildExit(id, status));
    assert forall i <- s.watchers :: i in s'.watchers && s'.watchers[i].port == s.watchers[i].port;
    assert s'.watchers.Keys == s.watchers.Keys;
    assert (set i <- s'.watchers :: s'.watchers[i].port) == (set i <- s.watchers :: s.watchers[i].port);
  }

  lemma ForgetInv(s: SupState, name: string)
    requires Inv(s)
    ensures Inv(ForgetState(s, name))
  {
    var s' := ForgetState(s, name);
    if name in s.apps && !IsRunning(s, name) {
      var e := Forgotten(name);
      forall m: string ensures EntryOk(s', m) {
        assert EntryOk(s, m);
        if m != name {
          OtherEntry(s, s', e, m);
        } else {
          Grow(s.history, e, m);
          GrowState(s.history, e, m);
        }
      }
      forall id <- s'.watchers ensures WatcherOk(s', id) {
        assert WatcherOk(s, id);
        OtherWatcher(s, s', e, id);
      }
      GrowExits(s, s', e);
    }
  }

  /** The watcher finds the entry it set out to update: its own incarnation, still running. */
  lemma WriteBackFindsOwn(s: SupState, id: nat)
    requires Inv(s) && id in s.watchers
    ensures s.watchers[id].name in s.apps
    ensures s.apps[s.watchers[id].name].state == Running(s.watchers[id].pid, s.watchers[id].port)
    ensures LastSettled(s.history, s.watchers[id].name) == id
    ensures forall other <- s.watchers :: s.watchers[other].name == s.watchers[id].name ==> other == id
  {
    assert WatcherOk(s, id);
    forall other <- s.watchers | s.watchers[other].name == s.watchers[id].name ensures other == id {
      assert WatcherOk(s, other);
    }
  }

  lemma WriteBackEntry(s: SupState, id: nat)
    requires Inv(s) && CanWriteBack(s, id)
    ensures EntryOk(WriteBackState(s, id), s.watchers[id].name)
  {
    var s' := WriteBackState(s, id);
    var w := s.watchers[id];
    var e := Exited(w.name, id, w.exit.value);
    WriteBackFindsOwn(s, id);
    assert EntryOk(s, w.name);
    Grow(s.history, e, w.name);
    GrowState(s.history, e, w.name);
    assert s'.apps[w.name] == AfterExit(s.apps[w.name], w.exit.value);
  }

  lemma WriteBackPorts(s: SupState, id: nat)
    requires PortsOk(s) && CanWriteBack(s, id)
    ensures PortsOk(WriteBackState(s, id))
  {
    var s' := WriteBackState(s, id);
    forall p ensures p in s'.reserved <==> p in (set i <- s'.watchers :: s'.watchers[i].port) + s'.leaked {
      if p in s'.reserved && p !in s.leaked {
        var i :| i in s.watchers && s.watchers[i].port == p;
        assert s'.watchers[i].port == p;
      }
    }
  }

  lemma WriteBackEntries(s: SupState, id: nat)
    requires Inv(s) && CanWriteBack(s, id)
    ensures forall m: string :: EntryOk(WriteBackState(s, id), m)
  {
    var s' := WriteBackState(s, id);
    var w := s.watchers[id];
    WriteBackFindsOwn(s, id);
    forall m: string ensures EntryOk(s', m) {
      if m != w.name {
        OtherEntry(s, s', Exited(w.name, id, w.exit.value), m);
      } else {
        WriteBackEntry(s, id);
      }
    }
  }

  lemma WriteBackWatchers(s: SupState, id: nat)
    requires Inv(s) && CanWriteBack(s, id)
    ensures forall other <- WriteBackState(s, id).watchers :: WatcherOk(WriteBackState(s, id), other)
  {
    var s' := WriteBackState(s, id);
    var w := s.watchers[id];
    WriteBackFindsOwn(s, id);
    forall other <- s'.watchers ensures WatcherOk(s', other) {
      OtherWatcher(s, s', Exited(w.name, id, w.exit.value), other);
    }
  }

  lemma WriteBackExits(s: SupState, id: nat)
    requires Inv(s) && CanWriteBack(s, id)
    ensures ExitsOk(WriteBackState(s, id))
  {
    assert WatcherOk(s, id);
    GrowExits(s, WriteBackState(s, id), Exited(s.watchers[id].name, id, s.watchers[id].exit.value));
  }

  lemma WriteBackInv(s: SupState, id: nat)
    requires Inv(s)
    ensures Inv(WriteBackState(s, id))
  {
    if CanWriteBack(s, id) {
      WriteBackEntries(s, id);
      WriteBackWatchers(s, id);
      WriteBackPorts(s, id);
      WriteBackExits(s, id);
    }
  }

  lemma ApplyInv(s: SupState, a: Action)
    requires Inv(s)
    ensures Inv(Apply(s, a))
  {
    match a
    case Tick(ms) => TickInv(s, ms);
    case Boot(name, idle, env) => BootInv(s, name, idle, env);
    case BeginStop(name, minIdle) => StopInv(s, name, minIdle);
    case ChildExit(id, status) => ChildExitInv(s, id, status);
    case WriteBack(id) => WriteBackInv(s, id);
    case Touch(name) => TouchInv(s, name);
    case Forget(name) => ForgetInv(s, name);
  }

  lemma {:induction false} RunInv(s: SupState, acts: seq<Action>)
    requires Inv(s)
    ensures Inv(Run(s, acts))
    decreases |acts|
  {
    if acts != [] {
      RunInv(s, acts[..|acts| - 1]);
      ApplyInv(Run(s, acts[..|acts| - 1]), acts[|acts| - 1]);
    }
  }

  lemma InitInv()
    ensures Inv(INIT)
  {}

  // ---------------------------------------------------------------- consequences, for every run

  /** Whatever interleaving of steps led here, the invariants hold. */
  lemma EveryRun(acts: seq<Action>)
    ensures Inv(Run(INIT, acts))
  {
    RunInv(INIT, acts);
  }

  predicate WatchesApp(w: Watcher, name: string, pid: nat, port: nat) {
    w.name == name && w.pid == pid && w.port == port
  }

  /** An app is Running exactly when a watcher is pending for its name, and then only one is. */
  lemma RunningIffWatched(acts: seq<Action>, name: string, pid: nat, port: nat)
    ensures var s := Run(INIT, acts);
            && (StateIn(s.apps, name) == Running(pid, port) <==>
                exists id :: id in s.watchers && WatchesApp(s.watchers[id], name, pid, port))
            && (forall i, j :: i in s.watchers && j in s.watchers && s.watchers[i].name == s.watchers[j].name ==>
                  i == j)
  {
    EveryRun(acts);
    var s := Run(INIT, acts);
    if StateIn(s.apps, name) == Running(pid, port) {
      assert EntryOk(s, name);
      var id := LastSettled(s.history, name);
      assert WatcherOk(s, id);
    }
    forall i, j | i in s.watchers && j in s.watchers && s.watchers[i].name == s.watchers[j].name ensures i == j {
      WriteBackFindsOwn(s, i);
    }
  }

  /** The state shown for a name is the one its history calls for, and a set stop flag means it runs. */
  lemma StateIsReplay(acts: seq<Action>, name: string)
    ensures var s := Run(INIT, acts);
            && StateIn(s.apps, name) == StateOf(s.history, name)
            && (name in s.apps && s.apps[name].intentionalStop ==> IsRunning(s, name))
  {
    EveryRun(acts);
    assert EntryOk(Run(INIT, acts), name);
  }

  /**
   What an exit is recorded as: with a stop asked of this incarnation, always as stopped; otherwise by its
   status alone, a signal as 128 plus its number, and a lost status as -1.
   */
  lemma CrashExactly(s: SupState, id: nat)
    requires Inv(s) && CanWriteBack(s, id)
    ensures var w := s.watchers[id];
            var asked := exists i :: id < i < |s.history| && s.history[i] == StopBegun(w.name);
            var shown := StateIn(WriteBackState(s, id).apps, w.name);
            && (asked ==> shown == Stopped)
            && (!asked ==> match w.exit.value
                           case Code(c) => shown == if c == 0 then Stopped else Crashed(c)
                           case Signal(k) => shown == Crashed(128 + k)
                           case NoCode => shown == Crashed(-1)
                           case WaitFailed => shown == Crashed(-1))
  {
    var n := s.watchers[id].name;
    WriteBackFindsOwn(s, id);
    assert EntryOk(s, n);
    assert StopAsked(s.history, n, id, |s.history|) <==>
           exists i :: id < i < |s.history| && s.history[i] == StopBegun(n);
  }

  /** Boots and exits of a name balance, so no two incarnations of it are ever watched together. */
  lemma BootsBalance(acts: seq<Action>, name: string)
    ensures var s := Run(INIT, acts);
            Boots(s.history, name) == Exits(s.history, name) + (if IsRunning(s, name) then 1 else 0)
  {
    EveryRun(acts);
    assert EntryOk(Run(INIT, acts), name);
  }

  lemma ApplyGrows(s: SupState, a: Action)
    ensures s.history <= Apply(s, a).history && s.clock <= Apply(s, a).clock
  {}

  lemma {:induction false} RunGrows(s: SupState, acts: seq<Action>)
    ensures s.history <= Run(s, acts).history && s.clock <= Run(s, acts).clock
    decreases |acts|
  {
    if acts != [] {
      RunGrows(s, acts[..|acts| - 1]);
      ApplyGrows(Run(s, acts[..|acts| - 1]), acts[|acts| - 1]);
    }
  }

  /**
   An idle stop is flagged exactly when the app runs and its boot and every recorded request of that
   incarnation are a full window old.
   */
  lemma IdleStopIsDue(s: SupState, name: string, window: nat)
    requires Inv(s)
    ensures StopTaken(s, name, Some(window)) <==>
            && IsRunning(s, name)
            && forall i :: 0 <= i < |s.history| && LastSettled(s.history, name) <= i && Activity(s.history[i], name) ==>
                 s.history[i].at + window <= s.clock
  {
    assert EntryOk(s, name);
  }

  /** Every boot and request recorded from index `from` on is stamped `t` or later. */
  ghost predicate StampedAfter(h: seq<Event>, from: nat, t: nat) {
    forall i :: from <= i < |h| && (h[i].Booted? || h[i].Touched?) ==> h[i].at >= t
  }

  lemma {:induction false} RunStamps(s: SupState, acts: seq<Action>)
    ensures StampedAfter(Run(s, acts).history, |s.history|, s.clock)
    decreases |acts|
  {
    if acts != [] {
      var before := acts[..|acts| - 1];
      RunStamps(s, before);
      RunGrows(s, before);
      ApplyStamps(Run(s, before), acts[|acts| - 1]);
      ApplyGrows(Run(s, before), acts[|acts| - 1]);
    }
  }

  lemma ApplyStamps(s: SupState, a: Action)
    ensures StampedAfter(Apply(s, a).history, |s.history|, s.clock)
  {}

  /**
   A recorded request holds off the idle stop for a full window, whatever happens meanwhile: no stop with
   that window is taken before `window` has passed, not even of an incarnation booted later.
   */
  lemma TouchHoldsOff(s: SupState, name: string, window: nat, acts: seq<Action>)
    requires Inv(s) && IsRunning(s, name)
    requires Run(Apply(s, Touch(name)), acts).clock < s.clock + window
    ensures !StopTaken(Run(Apply(s, Touch(name)), acts), name, Some(window))
  {
    var s1 := Apply(s, Touch(name));
    var s2 := Run(s1, acts);
    ApplyInv(s, Touch(name));
    RunInv(s1, acts);
    RunStamps(s1, acts);
    RunGrows(s1, acts);
    IdleStopIsDue(s2, name, window);
    if IsRunning(s2, name) {
      assert s1.history[|s.history|] == Touched(name, s.clock);
      LateActivity(s1.history, s2, name, |s.history|, s.clock);
    }
  }

  /** A running app whose name was active at index `i`, at `t` or later, was active that late in this incarnation. */
  lemma LateActivity(h: seq<Event>, s: SupState, name: string, i: nat, t: nat)
    requires Inv(s) && IsRunning(s, name)
    requires |h| == i + 1 && h <= s.history && Activity(h[i], name) && h[i].at == t
    requires StampedAfter(s.history, |h|, t)
    ensures exists j :: 0 <= j < |s.history| && LastSettled(s.history, name) <= j
                        && Activity(s.history[j], name) && s.history[j].at >= t
  {
    assert EntryOk(s, name);
    var from := LastSettled(s.history, name);
    assert WatcherOk(s, from);
    var late := if from <= i then i else from;
    assert s.history[i] == h[i];
    assert Activity(s.history[late], name) && s.history[late].at >= t;
  }

  // ---------------------------------------------------------------- boots and exits counted

  lemma OnlyBootStarts(s: SupState, a: Action, n: string)
    requires !(a.Boot? && a.name == n)
    ensures IsRunning(Apply(s, a), n) ==> IsRunning(s, n)
  {}

  /** How an action moves the counters of one name. */
  lemma ActionCounts(s: SupState, a: Action, n: string)
    ensures var s' := Apply(s, a);
            var boots := a.Boot? && a.name == n && UpResult(s, n, a.env).Ok?;
            var exits := a.WriteBack? && CanWriteBack(s, a.id) && s.watchers[a.id].name == n;
            && Boots(s'.history, n) == Boots(s.history, n) + (if boots then 1 else 0)
            && Exits(s'.history, n) == Exits(s.history, n) + (if exits then 1 else 0)
            && (IsRunning(s', n) && !IsRunning(s, n) ==> a.Boot? && a.name == n)
  {
    var e := EventOf(s, a);
    HistoryOf(s, a);
    if e.Some? {
      Grow(s.history, e.value, n);
    }
    if !(a.Boot? && a.name == n) {
      OnlyBootStarts(s, a, n);
    }
  }

  /** What an action adds to the history. */
  function EventOf(s: SupState, a: Action): Option<Event> {
    match a
    case Tick(_) => None
    case Boot(name, _, env) =>
      var up := UpResult(s, name, env);
      if up.Ok? then Some(Booted(name, up.value, Precheck(s, name, env).value, s.clock)) else None
    case BeginStop(name, minIdle) => if StopTaken(s, name, minIdle) then Some(StopBegun(name)) else None
    case ChildExit(_, _) => None
    case WriteBack(id) =>
      if CanWriteBack(s, id) then Some(Exited(s.watchers[id].name, id, s.watchers[id].exit.value)) else None
    case Touch(name) => if IsRunning(s, name) then Some(Touched(name, s.clock)) else None
    case Forget(name) => if name in s.apps && !IsRunning(s, name) then Some(Forgotten(name)) else None
  }

  lemma HistoryOf(s: SupState, a: Action)
    ensures Apply(s, a).history == s.history + (if EventOf(s, a).Some? then [EventOf(s, a).value] else [])
  {}

  lemma BalanceAt(s: SupState, n: string)
    requires Inv(s)
    ensures Boots(s.history, n) == Exits(s.history, n) + (if IsRunning(s, n) then 1 else 0)
  {
    assert EntryOk(s, n);
  }
}
