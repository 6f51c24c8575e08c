/**
 What a stop sees. After its first signal a stop polls the app's state by name, 100 ms apart, while the
 rest of the daemon goes on: `env(k)` is what happens just before poll `k + 1`. So the states met by the
 polls are a function of the state at the first signal and of `env`, and whether the stop succeeds is a
 question about those states alone.
 */
module Stops {
  import opened Wrappers
  import opened Lifecycle
  import opened LifecycleProofs

  const TERM_GRACE: nat := 5000
  const STOP_POLL: nat := 100
  const KILL_POLLS: nat := 50

  type Schedule = nat -> seq<Action>

  /** The state at the start of a stop, and at each of its polls. */
  type States = nat -> SupState

  /** Everything that goes on up to the `k`-th poll. */
  function PollActs(env: Schedule, k: nat): seq<Action> {
    if k == 0 then [] else PollActs(env, k - 1) + ([Tick(STOP_POLL)] + env(k - 1))
  }

  function Polling(s: SupState, env: Schedule): States {
    (k: nat) => Run(s, PollActs(env, k))
  }

  /** The poll that ends the grace window, looking from the `k`-th on. Fifty polls always span it. */
  function GracePolls(states: States, k: nat): (g: nat)
    requires 1 <= k <= KILL_POLLS
    ensures k <= g <= KILL_POLLS
    ensures forall j :: k <= j < g ==> states(j).clock < states(0).clock + TERM_GRACE
    ensures g < KILL_POLLS ==> states(g).clock >= states(0).clock + TERM_GRACE
    decreases KILL_POLLS - k
  {
    if k == KILL_POLLS || states(k).clock >= states(0).clock + TERM_GRACE then k else GracePolls(states, k + 1)
  }

  /** The last poll: fifty after the second signal. */
  function LastPoll(states: States): nat {
    GracePolls(states, 1) + KILL_POLLS
  }

  /** The poll a stop ends at, looking from the `k`-th on: the first to see the name down, else the last. */
  function StopPolls(states: States, name: string, k: nat): (p: nat)
    requires 1 <= k <= LastPoll(states)
    ensures k <= p <= LastPoll(states)
    ensures forall j :: k <= j < p ==> IsRunning(states(j), name)
    ensures p < LastPoll(states) ==> !IsRunning(states(p), name)
    decreases LastPoll(states) - k
  {
    if k == LastPoll(states) || !IsRunning(states(k), name) then k else StopPolls(states, name, k + 1)
  }

  /** Some poll sees the name down. */
  ghost predicate SeenDown(states: States, name: string) {
    exists k :: 1 <= k <= LastPoll(states) && !IsRunning(states(k), name)
  }

  /** Where the stop is when it returns. */
  function StopEnd(states: States, name: string): SupState {
    states(StopPolls(states, name, 1))
  }

  lemma SeenDownAtEnd(states: States, name: string)
    ensures SeenDown(states, name) <==> !IsRunning(StopEnd(states, name), name)
    ensures !SeenDown(states, name) ==> StopPolls(states, name, 1) == LastPoll(states)
  {
    var p := StopPolls(states, name, 1);
    if k :| 1 <= k <= LastPoll(states) && !IsRunning(states(k), name) {
      assert k >= p;
    }
  }

  /** A poll that sees the name down while the window is open ends the stop. */
  lemma EndsInGrace(states: States, name: string, p: nat)
    requires 1 <= p <= KILL_POLLS && !IsRunning(states(p), name)
    requires forall j :: 1 <= j < p ==> IsRunning(states(j), name) && states(j).clock < states(0).clock + TERM_GRACE
    ensures p <= GracePolls(states, 1) && StopPolls(states, name, 1) == p && SeenDown(states, name)
  {
    var g, q := GracePolls(states, 1), StopPolls(states, name, 1);
    assert !(g < p);
    assert !(q < p) && !(p < q);
    SeenDownAtEnd(states, name);
  }

  /** After the window the stop ends at the first poll that sees the name down, or after fifty. */
  lemma EndsAfterKill(states: States, name: string, g: nat, p: nat)
    requires 1 <= g <= KILL_POLLS && states(g).clock >= states(0).clock + TERM_GRACE
    requires forall j :: 1 <= j < g ==> states(j).clock < states(0).clock + TERM_GRACE
    requires forall j :: 1 <= j < p ==> IsRunning(states(j), name)
    requires g < p <= g + KILL_POLLS && (p == g + KILL_POLLS || !IsRunning(states(p), name))
    ensures GracePolls(states, 1) == g && StopPolls(states, name, 1) == p
    ensures SeenDown(states, name) <==> !IsRunning(states(p), name)
  {
    SeenDownAtEnd(states, name);
  }

  /** Each state follows from the one before by a poll interval and what happens in it. */
  ghost predicate Follow(states: States, env: Schedule, k: nat) {
    states(k + 1) == Run(states(k), [Tick(100)] + env(k))
  }

  ghost predicate Follows(states: States, env: Schedule) {
    forall k: nat :: Follow(states, env, k)
  }

  lemma PollingFollows(s: SupState, env: Schedule)
    ensures Follows(Polling(s, env), env) && Polling(s, env)(0) == s
  {
    forall k: nat ensures Follow(Polling(s, env), env, k) {
      RunConcat(s, PollActs(env, k), [Tick(STOP_POLL)] + env(k));
    }
  }

  lemma NothingPolled(steps: seq<Action>, env: Schedule)
    ensures steps + PollActs(env, 0) == steps
  {}

  lemma StepsOn(steps: seq<Action>, env: Schedule, k: nat)
    ensures steps + PollActs(env, k) + ([Tick(STOP_POLL)] + env(k)) == steps + PollActs(env, k + 1)
  {}

  /** The state once the first signal is about to go out. */
  function Begun(s: SupState, name: string, minIdle: Option<nat>): SupState {
    Apply(s, BeginStop(name, minIdle))
  }

  /** What a stop of `name` asked for at `s` meets. */
  function StopStates(s: SupState, name: string, minIdle: Option<nat>, env: Schedule): States {
    Polling(Begun(s, name, minIdle), env)
  }

  /** What goes on from the first signal to the stop's last poll; nothing if there is no stop. */
  function PolledActs(s: SupState, name: string, minIdle: Option<nat>, env: Schedule): seq<Action> {
    if StopTaken(s, name, minIdle) then PollActs(env, StopPolls(StopStates(s, name, minIdle, env), name, 1)) else []
  }

  /** Every step of a stop and of what goes on meanwhile. */
  function StopActs(s: SupState, name: string, minIdle: Option<nat>, env: Schedule): seq<Action> {
    [BeginStop(name, minIdle)] + PolledActs(s, name, minIdle, env)
  }

  /** Time passing, or a step of somebody else. */
  ghost predicate Meanwhile(a: Action, env: Schedule) {
    a == Tick(100) || exists k: nat :: a in env(k)
  }

  lemma {:induction false} PollsMeanwhile(env: Schedule, k: nat)
    ensures forall a <- PollActs(env, k) :: Meanwhile(a, env)
  {
    if k > 0 {
      PollsMeanwhile(env, k - 1);
    }
  }

  lemma PolledMeanwhile(s: SupState, name: string, minIdle: Option<nat>, env: Schedule)
    ensures forall a <- PolledActs(s, name, minIdle, env) :: Meanwhile(a, env)
  {
    if StopTaken(s, name, minIdle) {
      var p := StopPolls(StopStates(s, name, minIdle, env), name, 1);
      PollsMeanwhile(env, p);
      assert PolledActs(s, name, minIdle, env) == PollActs(env, p);
    }
  }

  // ---------------------------------------------------------------- a stop that succeeds

  /** The incarnation of `name` that was the latest when the history was `before` is over, and ended since. */
  ghost predicate Finished(name: string, before: seq<Event>, s: SupState) {
    var id := LastSettled(before, name);
    id >= 0 && before[id].Booted? && id !in s.watchers && ExitLogged(s.history, id, |before|)
  }

  /** An incarnation that ran at `s` is over exactly when its watcher is gone. */
  lemma FinishedUnwatched(s: SupState, name: string, acts: seq<Action>)
    requires Inv(s) && IsRunning(s, name)
    ensures Finished(name, s.history, Run(s, acts)) <==> LastSettled(s.history, name) !in Run(s, acts).watchers
  {
    var s' := Run(s, acts);
    var id := LastSettled(s.history, name);
    assert EntryOk(s, name) && WatcherOk(s, id);
    RunInv(s, acts);
    RunGrows(s, acts);
    assert s'.history[id] == s.history[id];
    if id !in s'.watchers {
      var j :| id + 1 <= j < |s'.history| && s'.history[j].Exited? && s'.history[j].incarnation == id;
      assert j >= |s.history|;
    }
  }

  /**
   Once a name that ran at `s` is seen not running, the incarnation captured at `s` has finished, whatever
   was booted in between.
   */
  lemma StopObserved(s: SupState, name: string, acts: seq<Action>)
    requires Inv(s) && IsRunning(s, name) && !IsRunning(Run(s, acts), name)
    ensures Finished(name, s.history, Run(s, acts))
  {
    RunInv(s, acts);
    RunGrows(s, acts);
    assert WatcherOk(s, LastSettled(s.history, name)) by { assert EntryOk(s, name); }
    assert LastSettled(s.history, name) !in Run(s, acts).watchers;
    FinishedUnwatched(s, name, acts);
  }

  // ---------------------------------------------------------------- a stop that fails

  /** Some boot of `name` succeeds on the way. */
  predicate BootedDuring(s: SupState, acts: seq<Action>, name: string) {
    acts != [] &&
    var front := acts[..|acts| - 1];
    BootedDuring(s, front, name) || BootsAt(Run(s, front), acts[|acts| - 1], name)
  }

  predicate BootsAt(s: SupState, a: Action, name: string) {
    a.Boot? && a.name == name && UpResult(s, name, a.env).Ok?
  }

  lemma {:induction false} BootsCounted(s: SupState, acts: seq<Action>, name: string)
    ensures Boots(Run(s, acts).history, name) >= Boots(s.history, name)
    ensures Boots(Run(s, acts).history, name) > Boots(s.history, name) <==> BootedDuring(s, acts, name)
    decreases |acts|
  {
    if acts != [] {
      var n := |acts| - 1;
      BootsCounted(s, acts[..n], name);
      ActionCounts(Run(s, acts[..n]), acts[n], name);
    }
  }

  lemma {:induction false} NoBootAmong(s: SupState, acts: seq<Action>, name: string)
    requires forall a <- acts :: !(a.Boot? && a.name == name)
    ensures !BootedDuring(s, acts, name)
    decreases |acts|
  {
    if acts != [] {
      NoBootAmong(s, acts[..|acts| - 1], name);
    }
  }

  /** A history with more boots of a name than a prefix of it has one beyond that prefix. */
  lemma {:induction false} LaterBoot(h: seq<Event>, g: seq<Event>, name: string)
    requires h <= g
    ensures Boots(g, name) >= Boots(h, name)
    ensures Boots(g, name) > Boots(h, name) <==> exists j :: |h| <= j < |g| && g[j].Booted? && g[j].name == name
    decreases |g|
  {
    if |g| > |h| {
      LaterBoot(h, g[..|g| - 1], name);
    } else {
      assert g == h;
    }
  }

  /**
   A name that runs before and after: the incarnation from before is over exactly when a boot of the name
   succeeded in between.
   */
  lemma ReplacedExactly(s: SupState, name: string, acts: seq<Action>)
    requires Inv(s) && IsRunning(s, name) && IsRunning(Run(s, acts), name)
    ensures Finished(name, s.history, Run(s, acts)) <==> BootedDuring(s, acts, name)
  {
    RunInv(s, acts);
    RunGrows(s, acts);
    FinishedUnwatched(s, name, acts);
    BootsCounted(s, acts, name);
    LatestAfter(s, Run(s, acts), name);
  }

  lemma LatestAfter(s: SupState, s': SupState, name: string)
    requires Inv(s) && IsRunning(s, name) && Inv(s') && IsRunning(s', name) && s.history <= s'.history
    ensures LastSettled(s.history, name) !in s'.watchers <==> Boots(s'.history, name) > Boots(s.history, name)
  {
    LaterBoot(s.history, s'.history, name);
    assert EntryOk(s, name) && EntryOk(s', name);
    var id, last := LastSettled(s.history, name), LastSettled(s'.history, name);
    assert WatcherOk(s', last) && s'.history[id] == s.history[id];
    if Boots(s'.history, name) == Boots(s.history, name) {
      assert s.history[last] == s'.history[last];
      assert Settles(s'.history[id], name);
    } else {
      var j :| |s.history| <= j < |s'.history| && s'.history[j].Booted? && s'.history[j].name == name;
      assert Settles(s'.history[j], name);
      WatchedIsLatest(s', id);
    }
  }

  lemma WatchedIsLatest(s: SupState, id: nat)
    requires Inv(s) && id < |s.history|
    ensures id in s.watchers ==> id == LastSettled(s.history, s.history[id].name)
  {}

  /** The stop fails, and yet the incarnation it set out to stop is over. */
  ghost predicate FailsFalsely(s: SupState, name: string, minIdle: Option<nat>, env: Schedule) {
    var states := StopStates(s, name, minIdle, env);
    !SeenDown(states, name) && Finished(name, s.history, StopEnd(states, name))
  }

  /**
   A stop fails although the incarnation it captured is over, exactly when no poll sees the name down and
   some boot of it succeeds before the last poll.
   */
  lemma FalseFailureExactly(s: SupState, name: string, minIdle: Option<nat>, env: Schedule)
    requires Inv(s) && StopTaken(s, name, minIdle)
    ensures var states := StopStates(s, name, minIdle, env);
            FailsFalsely(s, name, minIdle, env) <==>
            !SeenDown(states, name) &&
            BootedDuring(Begun(s, name, minIdle), PollActs(env, LastPoll(states)), name)
  {
    var begun := Begun(s, name, minIdle);
    var states := StopStates(s, name, minIdle, env);
    SeenDownAtEnd(states, name);
    if !SeenDown(states, name) {
      var acts := PollActs(env, LastPoll(states));
      FinishedSinceBegun(s, name, minIdle, acts);
      ReplacedExactly(begun, name, acts);
    }
  }

  /** Flagging the stop changes neither the incarnation nor what it means that it is over. */
  lemma FinishedSinceBegun(s: SupState, name: string, minIdle: Option<nat>, acts: seq<Action>)
    requires Inv(s) && StopTaken(s, name, minIdle)
    ensures var begun := Begun(s, name, minIdle);
            && Inv(begun) && IsRunning(begun, name) && LastSettled(begun.history, name) == LastSettled(s.history, name)
            && (Finished(name, s.history, Run(begun, acts)) <==> Finished(name, begun.history, Run(begun, acts)))
            && (Finished(name, s.history, Run(begun, acts)) <==>
                LastSettled(s.history, name) !in Run(begun, acts).watchers)
  {
    var a := BeginStop(name, minIdle);
    ApplyInv(s, a);
    Grow(s.history, StopBegun(name), name);
    RunOne(s, a);
    RunConcat(s, [a], acts);
    FinishedUnwatched(s, name, [a] + acts);
    FinishedUnwatched(Begun(s, name, minIdle), name, acts);
  }

  /** Nobody else boots `name` while the stop is polling. */
  ghost predicate LeavesAlone(env: Schedule, name: string) {
    forall k: nat, a :: a in env(k) ==> !(a.Boot? && a.name == name)
  }

  lemma {:induction false} NoBootPolled(env: Schedule, name: string, k: nat)
    requires LeavesAlone(env, name)
    ensures forall a <- PollActs(env, k) :: !(a.Boot? && a.name == name)
  {
    if k > 0 {
      NoBootPolled(env, name, k - 1);
    }
  }

  /** So a stop nobody boots against fails only if the very incarnation it captured is still watched. */
  lemma FailureIsReal(s: SupState, name: string, minIdle: Option<nat>, env: Schedule)
    requires Inv(s) && StopTaken(s, name, minIdle) && LeavesAlone(env, name)
    ensures var states := StopStates(s, name, minIdle, env);
            SeenDown(states, name) <==> LastSettled(s.history, name) !in StopEnd(states, name).watchers
  {
    var states := StopStates(s, name, minIdle, env);
    var p := StopPolls(states, name, 1);
    SeenDownAtEnd(states, name);
    FinishedSinceBegun(s, name, minIdle, PollActs(env, p));
    NoBootPolled(env, name, p);
    DownIfUnwatched(Begun(s, name, minIdle), name, PollActs(env, p));
  }

  lemma DownIfUnwatched(s: SupState, name: string, acts: seq<Action>)
    requires Inv(s) && IsRunning(s, name) && forall a <- acts :: !(a.Boot? && a.name == name)
    ensures !IsRunning(Run(s, acts), name) <==> LastSettled(s.history, name) !in Run(s, acts).watchers
  {
    FinishedUnwatched(s, name, acts);
    if IsRunning(Run(s, acts), name) {
      ReplacedExactly(s, name, acts);
      NoBootAmong(s, acts, name);
    } else {
      StopObserved(s, name, acts);
    }
  }

  // ---------------------------------------------------------------- a quick re-boot

  /** Before the first poll the child exits, if it has not, its watcher finishes, and somebody boots the name again. */
  function RebootOnce(name: string, id: nat, status: ExitStatus, env: BootEnv): Schedule {
    (k: nat) => if k == 0 then [ChildExit(id, status), WriteBack(id), Boot(name, None, env)] else []
  }

  /**
   Given a free port, every stop of every running app can be made to fail that way although its process is
   gone. The new incarnation does not inherit the stop flag.
   */
  lemma RebootHidesExit(s: SupState, name: string, id: nat, status: ExitStatus, pid: nat, port: nat)
    requires Inv(s) && IsRunning(s, name) && id == LastSettled(s.history, name) && port !in s.reserved
    ensures var env := RebootOnce(name, id, status, CleanBoot(pid, port));
            var end := StopEnd(StopStates(s, name, None, env), name);
            && FailsFalsely(s, name, None, env)
            && IsRunning(end, name) && !end.apps[name].intentionalStop
  {
    var env := RebootOnce(name, id, status, CleanBoot(pid, port));
    FinishedSinceBegun(s, name, None, []);
    RebootPolled(Begun(s, name, None), name, id, status, pid, port);
    RebootStaysUp(Begun(s, name, None), name, id, status, CleanBoot(pid, port));
    FailsUnwatched(s, name, None, env);
  }

  /** A stop fails falsely if it fails and nobody watches the incarnation it captured. */
  lemma FailsUnwatched(s: SupState, name: string, minIdle: Option<nat>, env: Schedule)
    requires Inv(s) && StopTaken(s, name, minIdle) && !SeenDown(StopStates(s, name, minIdle, env), name)
    requires LastSettled(s.history, name) !in StopEnd(StopStates(s, name, minIdle, env), name).watchers
    ensures FailsFalsely(s, name, minIdle, env)
  {
    FinishedSinceBegun(s, name, minIdle, PollActs(env, StopPolls(StopStates(s, name, minIdle, env), name, 1)));
  }

  lemma RebootStaysUp(s: SupState, name: string, id: nat, status: ExitStatus, env: BootEnv)
    requires IsRunning(Polling(s, RebootOnce(name, id, status, env))(1), name)
    ensures var states := Polling(s, RebootOnce(name, id, status, env));
            !SeenDown(states, name) && StopEnd(states, name).(clock := 0) == states(1).(clock := 0)
  {
    var states := Polling(s, RebootOnce(name, id, status, env));
    forall k: nat | k >= 1 ensures states(k).(clock := 0) == states(1).(clock := 0) {
      OnlyTicks(s, name, id, status, env, k);
    }
    StaysUp(states, name);
  }

  lemma StaysUp(states: States, name: string)
    requires IsRunning(states(1), name) && forall k: nat :: k >= 1 ==> states(k).(clock := 0) == states(1).(clock := 0)
    ensures !SeenDown(states, name) && StopEnd(states, name).(clock := 0) == states(1).(clock := 0)
  {}

  /** A boot in which nothing goes wrong. */
  function CleanBoot(pid: nat, port: nat): BootEnv {
    BootEnv(true, [Some(port)], true, Spawned(pid), true)
  }

  lemma RebootPolled(s: SupState, name: string, id: nat, status: ExitStatus, pid: nat, port: nat)
    requires Inv(s) && IsRunning(s, name) && port !in s.reserved && id == LastSettled(s.history, name)
    ensures var s' := Polling(s, RebootOnce(name, id, status, CleanBoot(pid, port)))(1);
            IsRunning(s', name) && !s'.apps[name].intentionalStop && id !in s'.watchers
  {
    var env := RebootOnce(name, id, status, CleanBoot(pid, port));
    var s1 := Apply(s, Tick(STOP_POLL));
    var s2 := Apply(Apply(s1, ChildExit(id, status)), WriteBack(id));
    assert PollActs(env, 1) == [Tick(STOP_POLL)] + env(0) by { assert PollActs(env, 0) == []; }
    RunOne(s, Tick(STOP_POLL));
    RunConcat(s, [Tick(STOP_POLL)], env(0));
    RunThree(s1, ChildExit(id, status), WriteBack(id), Boot(name, None, CleanBoot(pid, port)));
    assert EntryOk(s1, name) by { TickInv(s, STOP_POLL); }
    ExitSettles(s1, name, id, status);
    FreshBoot(s2, name, pid, port);
  }

  lemma ExitSettles(s: SupState, name: string, id: nat, status: ExitStatus)
    requires EntryOk(s, name) && IsRunning(s, name) && id == LastSettled(s.history, name)
    ensures var s2 := Apply(Apply(s, ChildExit(id, status)), WriteBack(id));
            !IsRunning(s2, name) && s2.reserved <= s.reserved && id !in s2.watchers && |s2.history| > |s.history|
  {}

  lemma FreshBoot(s: SupState, name: string, pid: nat, port: nat)
    requires !IsRunning(s, name) && port !in s.reserved
    ensures Apply(s, Boot(name, None, CleanBoot(pid, port))) == Launched(s, name, None, pid, port)
  {}

  lemma {:induction false} OnlyTicks(s: SupState, name: string, id: nat, status: ExitStatus, env: BootEnv, k: nat)
    requires k >= 1
    ensures var states := Polling(s, RebootOnce(name, id, status, env));
            states(k).(clock := 0) == states(1).(clock := 0)
  {
    if k > 1 {
      var schedule := RebootOnce(name, id, status, env);
      var states := Polling(s, schedule);
      OnlyTicks(s, name, id, status, env, k - 1);
      assert [Tick(STOP_POLL)] + schedule(k - 1) == [Tick(STOP_POLL)];
      RunConcat(s, PollActs(schedule, k - 1), [Tick(STOP_POLL)]);
      RunOne(states(k - 1), Tick(STOP_POLL));
    }
  }
}
