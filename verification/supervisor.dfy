/**
 The supervisor object. Each method body is what runs under the mutex, and each is proved to be one
 `Lifecycle` action. The polling tail of a stop releases the mutex between polls: what other tasks do
 meanwhile is an arbitrary schedule of actions, so its contract holds against every interleaving.
 */
module Supervision {
  import opened Wrappers
  import opened Lifecycle
  import opened LifecycleProofs
  import opened Stops
  import opened BootOutcomes

  /** Ask for ports until one is not reserved, at most 32 times. */
  method AllocateFreePort(reserved: set<nat>, draws: seq<Option<nat>>) returns (r: Result<nat, UpError>)
    ensures r == FreePort(draws, reserved, 0)
  {
    var i := 0;
    while i < PORT_ALLOC_ATTEMPTS
      invariant 0 <= i <= PORT_ALLOC_ATTEMPTS
      invariant FreePort(draws, reserved, 0) == FreePort(draws, reserved, i)
    {
      match Draw(draws, i) {
        case None => return Err(BindFailed);
        case Some(port) =>
          if port !in reserved {
            return Ok(port);
          }
      }
      i := i + 1;
    }
    r := Err(PortsExhausted);
  }

  class Supervisor {
    var apps: map<string, AppRuntime>
    var reservedPorts: set<nat>
    // the detached watcher tasks, what the clock reads, and a trace of what happened
    var watchers: map<nat, Watcher>
    var clock: nat
    var history: seq<Event>
    ghost var leaked: set<nat>
    // every step taken so far
    ghost var past: seq<Action>

    ghost function View(): SupState
      reads this
    {
      SupState(apps, reservedPorts, watchers, leaked, history, clock)
    }

    /** The state is where the steps taken lead. */
    ghost predicate Valid()
      reads this
    {
      View() == Run(INIT, past)
    }

    constructor ()
      ensures Valid() && View() == INIT && past == []
    {
      apps, reservedPorts, watchers, clock := map[], {}, map[], 0;
      leaked, history, past := {}, [], [];
    }

    /** Record the step this task is about to take. */
    ghost method Remember(a: Action)
      requires Valid()
      modifies this`past
      ensures past == old(past) + [a] && Run(INIT, past) == Apply(View(), a)
    {
      assert (past + [a])[..|past|] == past;
      past := past + [a];
    }

    method State(name: string) returns (state: AppState)
      ensures state == StateIn(View().apps, name)
    {
      state := if name in apps then apps[name].state else Stopped;
    }

    method Up(name: string, idle: Option<nat>, env: BootEnv) returns (r: Result<nat, UpError>)
      requires Valid()
      modifies this
      ensures Valid() && past == old(past) + [Boot(name, idle, env)]
      ensures View() == Apply(old(View()), Boot(name, idle, env))
      ensures r == UpResult(old(View()), name, env)
      ensures BootEnds(old(View()), name, idle, env, r, View())
    {
      BootEndsSo(View(), name, idle, env);
      Remember(Boot(name, idle, env));
      if name in apps && apps[name].state.Running? {
        return Err(AlreadyRunning);
      }
      if !env.envFileOk {
        return Err(EnvFileUnreadable);
      }
      var port := AllocateFreePort(reservedPorts, env.draws);
      if port.Err? {
        return port;
      }
      if !env.logDirOk {
        return Err(LogDirFailed);
      }
      reservedPorts := reservedPorts + {port.value};
      if env.spawn.SpawnFailed? {
        reservedPorts := reservedPorts - {port.value};
        return Err(NotSpawned);
      }
      if env.spawn.NoPid? {
        reservedPorts := reservedPorts - {port.value};
        return Err(PidUnknown);
      }
      if !env.logOpens {
        leaked := leaked + {port.value};
        return Err(LogFailed);
      }
      var pid := env.spawn.pid;
      apps := apps[name := AppRuntime(Running(pid, port.value), false, clock, idle)];
      watchers := watchers[|history| := Watcher(name, pid, port.value, None)];
      history := history + [Booted(name, pid, port.value, clock)];
      r := Ok(pid);
    }

    /** Flag an intentional stop; `None` says the caller should leave the app alone. */
    method BeginIntentionalStop(name: string, minIdle: Option<nat>) returns (r: Result<Option<nat>, ()>)
      requires Valid()
      modifies this
      ensures Valid() && past == old(past) + [BeginStop(name, minIdle)]
      ensures View() == Apply(old(View()), BeginStop(name, minIdle))
      ensures r == if StopTaken(old(View()), name, minIdle) then Ok(Some(old(apps)[name].state.pid))
                   else if minIdle.Some? then Ok(None) else Err(())
    {
      Remember(BeginStop(name, minIdle));
      if name !in apps {
        return if minIdle.Some? then Ok(None) else Err(());
      }
      var rt := apps[name];
      if !rt.state.Running? {
        return if minIdle.Some? then Ok(None) else Err(());
      }
      if minIdle.Some? {
        var elapsed := if clock >= rt.lastRequest then clock - rt.lastRequest else 0;
        if elapsed < minIdle.value {
          return Ok(None);
        }
      }
      apps := apps[name := rt.(intentionalStop := true)];
      history := history + [StopBegun(name)];
      r := Ok(Some(rt.state.pid));
    }

    /** The end of a watcher task, which captured its app's name and port when it was spawned. */
    method WatcherDone(id: nat, name: string, port: nat, status: ExitStatus)
      requires id in watchers && watchers[id].name == name && watchers[id].port == port
               && watchers[id].exit == Some(status)
      requires Valid()
      modifies this
      ensures Valid() && past == old(past) + [Lifecycle.WriteBack(id)]
      ensures View() == Apply(old(View()), Lifecycle.WriteBack(id))
      ensures name in old(apps) ==> name in apps && !apps[name].intentionalStop
      ensures name in old(apps) ==>
                apps[name].state == (
                  if old(apps)[name].intentionalStop then Stopped
                  else match status
                    case Code(c) => if c == 0 then Stopped else Crashed(c)
                    case Signal(k) => Crashed(128 + k)
                    case NoCode => Crashed(-1)
                    case WaitFailed => Crashed(-1))
    {
      Remember(Lifecycle.WriteBack(id));
      if name in apps {
        var rt := apps[name];
        var code := ExitCode(status);
        var state := if rt.intentionalStop || code == 0 then Stopped else Crashed(code);
        apps := apps[name := rt.(state := state, intentionalStop := false)];
      }
      reservedPorts := reservedPorts - {port};
      watchers := watchers - {id};
      history := history + [Exited(name, id, status)];
    }

    method ForgetApp(name: string) returns (gone: bool)
      requires Valid()
      modifies this
      ensures Valid() && past == old(past) + [Forget(name)]
      ensures View() == Apply(old(View()), Forget(name))
      ensures gone <==> name !in apps
    {
      Remember(Forget(name));
      if name in apps && apps[name].state.Running? {
        return false;
      }
      if name in apps {
        apps := apps - {name};
        history := history + [Forgotten(name)];
      }
      gone := true;
    }

    method TouchIdle(name: string)
      requires Valid()
      modifies this
      ensures Valid() && past == old(past) + [Touch(name)]
      ensures View() == Apply(old(View()), Touch(name))
    {
      Remember(Touch(name));
      if name in apps && apps[name].state.Running? {
        apps := apps[name := apps[name].(lastRequest := clock)];
        history := history + [Touched(name, clock)];
      }
    }

    method IdleCandidates() returns (r: map<string, (nat, Option<nat>)>)
      ensures r == Candidates(View())
    {
      r := map n | n in apps && apps[n].state.Running? ::
        (if clock >= apps[n].lastRequest then clock - apps[n].lastRequest else 0, apps[n].idleTimeout);
    }

    /** Whatever the rest of the daemon and the children do while this task does not hold the mutex. */
    method Interfere(acts: seq<Action>)
      requires Valid()
      modifies this
      ensures Valid() && past == old(past) + acts
    {
      for i := 0 to |acts|
        invariant Valid() && past == old(past) + acts[..i]
      {
        assert acts[..i + 1] == acts[..i] + [acts[i]];
        Other(acts[i]);
      }
      assert acts[..|acts|] == acts;
    }

    method Elapse(ms: nat)
      requires Valid()
      modifies this
      ensures Valid() && past == old(past) + [Tick(ms)]
      ensures View() == Apply(old(View()), Tick(ms))
    {
      Remember(Tick(ms));
      clock := clock + ms;
    }

    /** A child is gone: its watcher now only waits for the mutex. */
    method ChildGone(id: nat, status: ExitStatus)
      requires Valid()
      modifies this
      ensures Valid() && past == old(past) + [ChildExit(id, status)]
      ensures View() == Apply(old(View()), ChildExit(id, status))
    {
      Remember(ChildExit(id, status));
      if id in watchers && watchers[id].exit.None? {
        watchers := watchers[id := watchers[id].(exit := Some(status))];
      }
    }

    /** One step of somebody else. */
    method Other(act: Action)
      requires Valid()
      modifies this
      ensures Valid() && past == old(past) + [act]
    {
      match act
      case Tick(ms) => Elapse(ms);
      case Boot(name, idle, env) => var _ := Up(name, idle, env);
      case BeginStop(name, minIdle) => var _ := BeginIntentionalStop(name, minIdle);
      case ChildExit(id, status) => ChildGone(id, status);
      case WriteBack(id) =>
        if id in watchers && watchers[id].exit.Some? {
          WatcherDone(id, watchers[id].name, watchers[id].port, watchers[id].exit.value);
        } else {
          Remember(act);
        }
      case Touch(name) => TouchIdle(name);
      case Forget(name) => var _ := ForgetApp(name);
    }

    /** Sleep one poll interval while others run. */
    method PollOnce(acts: seq<Action>)
      requires Valid()
      modifies this
      ensures Valid() && past == old(past) + ([Tick(STOP_POLL)] + acts)
      ensures clock >= old(clock) + STOP_POLL
    {
      Elapse(STOP_POLL);
      RunConcat(INIT, past, acts);
      RunGrows(View(), acts);
      Interfere(acts);
    }

    /** The stop has made `k` polls: `states` are the states they meet, `steps` the steps from before it. */
    ghost predicate AtPollNo(states: States, steps: seq<Action>, env: Schedule, k: nat)
      reads this
    {
      Valid() && past == steps + PollActs(env, k) && View() == states(k)
    }

    /** The next poll of a stop. */
    method NextPoll(ghost states: States, ghost steps: seq<Action>, name: string, env: Schedule, k: nat)
      returns (down: bool)
      requires AtPollNo(states, steps, env, k) && Follows(states, env)
      modifies this
      ensures AtPollNo(states, steps, env, k + 1)
      ensures down <==> !IsRunning(states(k + 1), name)
      ensures clock == states(k + 1).clock >= states(k).clock + STOP_POLL
    {
      RunConcat(INIT, past, [Tick(STOP_POLL)] + env(k));
      assert Follow(states, env, k);
      StepsOn(steps, env, k);
      PollOnce(env(k));
      down := !(name in apps && apps[name].state.Running?);
    }

    /** Poll until the name is down or the grace window is over. */
    method PollGrace(ghost states: States, ghost steps: seq<Action>, name: string, env: Schedule)
      returns (down: bool, polls: nat)
      requires AtPollNo(states, steps, env, 0) && Follows(states, env)
      modifies this
      ensures AtPollNo(states, steps, env, polls)
      ensures 1 <= polls <= KILL_POLLS
      ensures forall k :: 1 <= k < polls ==> IsRunning(states(k), name)
      ensures forall k :: 1 <= k < polls ==> states(k).clock < states(0).clock + TERM_GRACE
      ensures down <==> !IsRunning(states(polls), name)
      ensures clock == states(polls).clock >= states(0).clock + polls * STOP_POLL
      ensures !down ==> clock >= states(0).clock + TERM_GRACE
    {
      polls := 0;
      var deadline := clock + TERM_GRACE;
      while true
        invariant AtPollNo(states, steps, env, polls)
        invariant states(polls).clock >= states(0).clock + polls * STOP_POLL
        invariant polls < KILL_POLLS
        invariant deadline == states(0).clock + TERM_GRACE
        invariant forall k :: 1 <= k <= polls ==> IsRunning(states(k), name)
        invariant forall k :: 1 <= k <= polls ==> states(k).clock < deadline
        decreases KILL_POLLS - polls
      {
        down := NextPoll(states, steps, name, env, polls);
        polls := polls + 1;
        if down {
          return;
        }
        if clock >= deadline {
          break;
        }
      }
    }

    /** After the second signal: poll up to fifty more times. */
    method PollKill(ghost states: States, ghost steps: seq<Action>, name: string, env: Schedule, before: nat)
      returns (down: bool, polls: nat)
      requires AtPollNo(states, steps, env, before) && Follows(states, env)
      modifies this
      ensures AtPollNo(states, steps, env, polls)
      ensures before < polls <= before + KILL_POLLS
      ensures forall k :: before < k < polls ==> IsRunning(states(k), name)
      ensures down <==> !IsRunning(states(polls), name)
      ensures clock == states(polls).clock >= states(before).clock + (polls - before) * STOP_POLL
      ensures !down ==> polls == before + KILL_POLLS
    {
      polls, down := before, false;
      for i := 0 to KILL_POLLS
        invariant AtPollNo(states, steps, env, polls)
        invariant polls == before + i && !down
        invariant states(polls).clock >= states(before).clock + i * STOP_POLL
        invariant forall k :: before < k <= polls ==> IsRunning(states(k), name)
      {
        down := NextPoll(states, steps, name, env, polls);
        polls := polls + 1;
        if down {
          return;
        }
      }
    }

    /**
     Signal, poll for the grace window, signal again, poll 50 more times. The stop ends at the first poll
     that sees the name down, or else at the last; `killedAt` is when the second signal went out.
     */
    method FinishStop(name: string, env: Schedule) returns (ok: bool, polls: nat, killedAt: Option<nat>)
      requires Valid()
      modifies this
      ensures Valid() && past == old(past) + PollActs(env, polls)
      ensures polls == StopPolls(Polling(old(View()), env), name, 1)
      ensures View() == Polling(old(View()), env)(polls)
      ensures ok <==> SeenDown(Polling(old(View()), env), name)
      ensures ok <==> !IsRunning(View(), name)
      ensures 1 <= polls <= 100
      ensures clock >= old(clock) + polls * 100
      ensures killedAt.None? <==> ok && polls <= GracePolls(Polling(old(View()), env), 1)
      ensures killedAt.Some? ==> old(clock) + 5000 <= killedAt.value <= clock
      ensures !ok ==> polls == GracePolls(Polling(old(View()), env), 1) + 50
      ensures !ok ==> clock >= killedAt.value + 5000
    {
      ghost var states := Polling(View(), env);
      PollingFollows(View(), env);
      NothingPolled(past, env);
      ok, polls, killedAt := StopOver(states, past, name, env);
    }

    /** The same against the states the polls meet. */
    method StopOver(ghost states: States, ghost steps: seq<Action>, name: string, env: Schedule)
      returns (ok: bool, polls: nat, killedAt: Option<nat>)
      requires AtPollNo(states, steps, env, 0) && Follows(states, env)
      modifies this
      ensures AtPollNo(states, steps, env, polls)
      ensures 1 <= polls == StopPolls(states, name, 1) <= 2 * KILL_POLLS
      ensures ok <==> SeenDown(states, name)
      ensures ok <==> !IsRunning(states(polls), name)
      ensures clock == states(polls).clock >= states(0).clock + polls * STOP_POLL
      ensures killedAt.None? <==> ok && polls <= GracePolls(states, 1)
      ensures killedAt.Some? ==> states(0).clock + TERM_GRACE <= killedAt.value <= clock
      ensures !ok ==> polls == GracePolls(states, 1) + KILL_POLLS
      ensures !ok ==> clock >= killedAt.value + KILL_POLLS * STOP_POLL
    {
      // SIGTERM to the process group goes out here
      ok, polls := PollGrace(states, steps, name, env);
      if ok {
        EndsInGrace(states, name, polls);
        return ok, polls, None;
      }
      // SIGKILL
      killedAt := Some(clock);
      ghost var grace := polls;
      ok, polls := PollKill(states, steps, name, env, polls);
      EndsAfterKill(states, name, grace, polls);
    }

    /**
     Stop `name`. It succeeds exactly when the name runs and some poll then sees it down. Success means the
     incarnation that was running at the call has exited, its watcher has finished and the exit is on
     record, even if other tasks booted the name again meanwhile; `Stops.FalseFailureExactly` says what a
     failure means.
     */
    method Down(name: string, env: Schedule) returns (ok: bool)
      requires Valid()
      modifies this
      ensures Valid() && past == old(past) + StopActs(old(View()), name, None, env)
      ensures !old(IsRunning(View(), name)) ==> !ok && View() == old(View())
      ensures old(IsRunning(View(), name)) ==> View() == StopEnd(StopStates(old(View()), name, None, env), name)
      ensures ok <==> old(IsRunning(View(), name)) && SeenDown(StopStates(old(View()), name, None, env), name)
      ensures ok ==> !IsRunning(View(), name) && Finished(name, old(history), View())
    {
      var begun := BeginIntentionalStop(name, None);
      if begun.Err? || begun.value.None? {
        return false;
      }
      var polls, killedAt;
      ok, polls, killedAt := FinishStop(name, env);
      StopTail(old(past), BeginStop(name, None), PollActs(env, polls));
      if ok {
        StopFinished(old(past), StopActs(old(View()), name, None, env), name);
      }
    }

    /**
     The idle scanner's stop: only if the app has been idle for the window. `None` means it was left
     alone and nothing changed.
     */
    method DownIfIdle(name: string, window: nat, env: Schedule) returns (r: Option<bool>)
      requires Valid()
      modifies this
      ensures Valid() && past == old(past) + StopActs(old(View()), name, Some(window), env)
      ensures r.None? <==> !old(StopTaken(View(), name, Some(window)))
      ensures r.None? ==> View() == old(View())
      ensures r.Some? ==> View() == StopEnd(StopStates(old(View()), name, Some(window), env), name)
      ensures r.Some? ==> (r.value <==> SeenDown(StopStates(old(View()), name, Some(window), env), name))
      ensures r == Some(true) ==> Finished(name, old(history), View())
    {
      var begun := BeginIntentionalStop(name, Some(window));
      if begun.Err? || begun.value.None? {
        return None;
      }
      var ok, polls, killedAt := FinishStop(name, env);
      StopTail(old(past), BeginStop(name, Some(window)), PollActs(env, polls));
      if ok {
        StopFinished(old(past), StopActs(old(View()), name, Some(window), env), name);
      }
      r := Some(ok);
    }
  }

  lemma StopFinished(before: seq<Action>, acts: seq<Action>, name: string)
    requires IsRunning(Run(INIT, before), name) && !IsRunning(Run(INIT, before + acts), name)
    ensures Finished(name, Run(INIT, before).history, Run(INIT, before + acts))
  {
    RunConcat(INIT, before, acts);
    EveryRun(before);
    StopObserved(Run(INIT, before), name, acts);
  }

  lemma StopTail(before: seq<Action>, a: Action, polled: seq<Action>)
    ensures before + [a] + polled == before + ([a] + polled)
  {}
}
