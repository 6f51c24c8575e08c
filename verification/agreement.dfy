/**
 The control commands and the sweep are written twice: as the methods of `Control`, which run one command
 from end to end, and as the single steps of `Daemon`, which interleave. Run with nobody in between, the
 steps do what the methods do.
 */
module Agreement {
  import opened Wrappers
  import opened Lifecycle
  import opened Stops
  import opened Labels
  import opened Sans
  import opened LeafCert
  import opened Daemon
  import opened Control

  /** The steps of one task with nobody in between; each takes the next choice. */
  function Alone(s: State, pc: Option<Pc>, choices: seq<Choice>): State
    decreases |choices|
  {
    if pc.None? || choices == [] then s
    else
      var (s', next) := Exec(s, pc.value, choices[0]);
      Alone(s', next, choices[1..])
  }

  function Says(ok: bool): Choice {
    Choice(ok, false, "", {}, None, BootEnv(false, [], false, SpawnFailed, false))
  }

  lemma AloneStep(s: State, pc: Pc, c: Choice, rest: seq<Choice>)
    ensures Alone(s, Some(pc), [c] + rest) == Alone(Exec(s, pc, c).0, Exec(s, pc, c).1, rest)
  {
    assert ([c] + rest)[1..] == rest;
  }

  /** An add leaves the registry `Control.ControlPlane.Add` leaves. */
  lemma AddAgrees(s: State, name: string, tag: Option<string>, path: string, disk: Disk)
    ensures var choices := [Says(disk.readable), Says(disk.loads), Says(disk.saves)];
            var s' := Alone(s, Some(Registry(AddCheck(name, tag, path))), choices);
            s'.registry == AddedTo(s.registry, name, tag, path, disk)
  {
    var pc := Registry(AddCheck(name, tag, path));
    var check, load, save := Says(disk.readable), Says(disk.loads), Says(disk.saves);
    assert [check, load, save] == [check] + ([load] + ([save] + []));
    AloneStep(s, pc, check, [load] + ([save] + []));
    if disk.readable && AddKey(name, tag).Ok? {
      var key := AddKey(name, tag).value;
      AloneStep(s, Registry(AddLoad(key, path)), load, [save] + []);
      if disk.loads && key !in s.registry {
        AloneStep(s, Registry(AddSave(key, path, s.registry)), save, []);
      }
    }
  }

  /** The two steps of a reload, the second if the first calls for it; `wanted` is the registry's list. */
  function ReloadAlone(s: State, disk: Disk, wanted: seq<string>): State {
    var (s1, next) := CertStep(s, ReloadCheck(s.registry), Says(disk.reloads), wanted);
    if next.Some? && next.value.Cert? then CertStep(s1, next.value.cert, Says(disk.signs), wanted).0 else s1
  }

  /** The reload after a change serves the names `Control.ControlPlane.ReloadLeaf` serves. */
  lemma ReloadAgrees(s: State, disk: Disk, wanted: seq<string>)
    requires s.leaf.Some? && wanted == RegistrySans(s.registry.Keys)
    ensures var s' := ReloadAlone(s, disk, wanted);
            var through := Reloaded(Some(Serving(s.leaf.value.sans, s.disk)), s.registry.Keys, disk);
            s'.leaf.Some? && s'.leaf.value.sans == if through then wanted else s.leaf.value.sans
  {
    CheckStep(s, Says(disk.reloads), wanted);
    if disk.reloads && s.leaf.value.sans != wanted {
      InstallStep(s, Says(disk.signs), wanted);
    }
  }

  lemma CheckStep(s: State, c: Choice, wanted: seq<string>)
    requires s.leaf.Some?
    ensures var (s1, next) := CertStep(s, ReloadCheck(s.registry), c, wanted);
            && s1.leaf == s.leaf
            && if c.ok && s.leaf.value.sans != wanted
               then s1 == s && next == Some(Cert(ReloadInstall(s.registry, wanted))) else next.None?
  {}

  lemma InstallStep(s: State, c: Choice, wanted: seq<string>)
    requires s.leaf.Some?
    ensures var s' := CertStep(s, ReloadInstall(s.registry, wanted), c, wanted).0;
            && s'.leaf.Some?
            && s'.leaf.value.sans == if CertifiedKey(s.disk, wanted, c.ok).key.Some? then wanted else s.leaf.value.sans
  {}

  predicate Begins(pc: Pc, name: string, minIdle: Option<nat>) {
    pc.Command? && pc.cmd.Stop? && pc.cmd.name == name && pc.cmd.at == Begin(minIdle)
  }

  /** The stop, if any, these steps start with. */
  predicate StartsWith(acts: seq<Action>, name: string, minIdle: Option<nat>) {
    acts != [] && acts[0] == BeginStop(name, minIdle)
  }

  lemma StopStarts(s: SupState, name: string, minIdle: Option<nat>, env: Schedule, w: Option<nat>, rest: seq<Action>)
    ensures StartsWith(StopActs(s, name, minIdle, env) + rest, name, w) <==> w == minIdle
    ensures StartsWith(StopActs(s, name, minIdle, env), name, w) <==> w == minIdle
  {
    StopShape(BeginStop(name, minIdle), PolledActs(s, name, minIdle, env), rest);
  }

  lemma StopShape(a: Action, acts: seq<Action>, rest: seq<Action>)
    ensures [a] + acts != [] && ([a] + acts)[0] == a
    ensures [a] + acts + rest != [] && ([a] + acts + rest)[0] == a
  {}

  /** The stop a candidate calls for. */
  function Calls(name: string, basis: Basis): Option<Option<nat>>
    requires name in basis.candidates
  {
    if Orphan(basis.registered, name) then Some(None)
    else if Due(basis.candidates[name]) then Some(basis.candidates[name].1)
    else None
  }

  lemma VisitStarts(s: SupState, name: string, basis: Basis, env: Schedule, w: Option<nat>)
    requires name in basis.candidates
    ensures StartsWith(VisitActs(s, name, basis, env), name, w) <==> Calls(name, basis) == Some(w)
  {
    StopStarts(s, name, None, env, w, [Forget(name)]);
    StopStarts(s, name, basis.candidates[name].1, env, w, []);
  }

  lemma StepBegins(s: State, sweep: Sweep, c: Choice, w: Option<nat>)
    requires c.pick in sweep.pending
    ensures var next := ScannerExec(s, ScanNext(sweep), c).1;
            var basis := Basis(sweep.pending, sweep.registered);
            next.Some? && (Begins(next.value, c.pick, w) <==> Calls(c.pick, basis) == Some(w))
  {}

  /** A sweep's step on a candidate begins the stop `Control.ControlPlane.Visit` begins, or none if that begins none. */
  lemma VisitAgrees(s: State, sweep: Sweep, c: Choice, env: Schedule, w: Option<nat>)
    requires c.pick in sweep.pending
    ensures var acts := VisitActs(s.sup, c.pick, Basis(sweep.pending, sweep.registered), env);
            var next := ScannerExec(s, ScanNext(sweep), c).1;
            next.Some? && (Begins(next.value, c.pick, w) <==> StartsWith(acts, c.pick, w))
  {
    VisitStarts(s.sup, c.pick, Basis(sweep.pending, sweep.registered), env, w);
    StepBegins(s, sweep, c, w);
  }

  /** A removal's look at a name begins a stop exactly when `Control.ControlPlane.StopAndForget` does. */
  lemma TakeDownAgrees(s: State, job: Job, c: Choice, env: Schedule)
    requires job.todo != []
    ensures var name := job.todo[0];
            var next := JobExec(s, job, JobState, c).1;
            next.Some? && (Begins(next.value, name, None) <==> StartsWith(LastActs(s.sup, name, env), name, None))
  {
    var name := job.todo[0];
    if IsRunning(s.sup, name) {
      StopStarts(s.sup, name, None, env, None, [Forget(name)]);
    }
  }

  // ---------------------------------------------------------------- commands and polls

  /** What a restart leaves once its stop is over: one more boot, if the app is registered and its files read. */
  function Restarted(s: State, name: string, c: Choice): SupState {
    if c.ok && name in s.registry then Apply(s.sup, Boot(name, c.idle, c.env)) else s.sup
  }

  /** A restart of an app that is down boots it, with the checks an `up` makes. */
  lemma RestartBoots(s: State, name: string, c: Choice)
    requires !IsRunning(s.sup, name)
    ensures Alone(s, Some(Command(RestartState(name))), [c, c, c]).sup == Restarted(s, name, c)
    ensures Alone(s, Some(Command(UpLoad(name))), [c, c]).sup == Restarted(s, name, c)
  {
    UpAlone(s, name, c);
    assert [c, c, c] == [c] + [c, c];
    AloneStep(s, Command(RestartState(name)), c, [c, c]);
  }

  lemma UpAlone(s: State, name: string, c: Choice)
    ensures Alone(s, Some(Command(UpLoad(name))), [c, c]).sup == Restarted(s, name, c)
  {
    assert [c, c] == [c] + ([c] + []);
    AloneStep(s, Command(UpLoad(name)), c, [c] + []);
    if c.ok && name in s.registry {
      AloneStep(s, Command(UpBoot(name)), c, []);
    }
  }

  /** A restart of a running app stops it first, and boots it once the stop sees it down; not if the stop gives up. */
  lemma RestartStops(s: State, name: string, c: Choice)
    ensures IsRunning(s.sup, name) ==>
              CommandExec(s, RestartState(name), c).1 == Some(Command(Stop(name, Begin(None), AfterRestart(name))))
    ensures !IsRunning(s.sup, name) ==>
              Alone(s, Some(Command(Stop(name, Look, AfterRestart(name)))), [c, c, c]).sup == Restarted(s, name, c)
    ensures IsRunning(s.sup, name) && !c.more ==> CommandExec(s, Stop(name, Look, AfterRestart(name)), c).1 == None
  {
    UpAlone(s, name, c);
    assert [c, c, c] == [c] + [c, c];
    AloneStep(s, Command(Stop(name, Look, AfterRestart(name))), c, [c, c]);
  }

  /** One poll of a request: the state read, then the probe if there is one to make. */
  function PollOf(s: State, g: Gate, name: string, lock: nat, c: Choice): Option<Pc> {
    var next := HeldExec(s, ReqHeld(g, name, lock, AtPoll), AtPoll, c).1;
    if next == Some(Request(ReqHeld(g, name, lock, AtProbe)))
    then HeldExec(s, ReqHeld(g, name, lock, AtProbe), AtProbe, c).1 else next
  }

  /** It ends as `Readiness.WaitReady` ends such a round: routed if ready, over if crashed, else on to the next. */
  lemma PollAgrees(s: State, g: Gate, name: string, lock: nat, c: Choice)
    ensures var state := StateIn(s.sup.apps, name);
            PollOf(s, g, name, lock, c) ==
            if state.Running? && c.ok then Some(Request(ReqTouch(name)))
            else if state.Crashed? || !c.more then None
            else Some(Request(ReqHeld(g, name, lock, AtSleep)))
  {}

  /** And a boot that fails ends the request there. */
  lemma BootAgrees(s: State, g: Gate, name: string, lock: nat, c: Choice)
    ensures var (s', next) := HeldExec(s, ReqHeld(g, name, lock, AtBoot), AtBoot, c);
            && s'.sup == Apply(s.sup, Boot(name, c.idle, c.env))
            && next == if UpResult(s.sup, name, c.env).Ok? then Some(Request(ReqHeld(g, name, lock, AtPoll))) else None
  {}
}
