/**
 The control commands as the code runs them, one at a time under the registry lock, and one sweep of the
 idle scanner. Whatever other tasks do to the supervisor meanwhile is a schedule of lifecycle actions.
 That the registry itself stays put while the lock is held is `DaemonProofs.MemoriesKept`.
 */
module Control {
  import opened Wrappers
  import opened Lifecycle
  import opened Stops
  import opened Supervision
  import opened Labels
  import opened Ordering
  import opened Sans
  import opened LeafCert
  import Daemon
  import DaemonProofs

  datatype AddError = Rejected(why: KeyError) | Unreadable | LoadFailed | Taken | SaveFailed

  /** Which of the file and certificate operations of one command work out. */
  datatype Disk = Disk(readable: bool, loads: bool, saves: bool, reloads: bool, signs: bool)

  /** What a sweep goes by: the snapshot, and the key set as loaded, or a failed load. */
  datatype Basis = Basis(candidates: map<string, (nat, Option<nat>)>, registered: Option<set<string>>)

  /** The list a resolver serves, and the leaf files on disk. */
  datatype Serving = Serving(sans: seq<string>, files: Option<OnDisk>)

  /** There is a resolver, and the reload that ends a change of the registry to `keys` gets through. */
  predicate Reloaded(serving: Option<Serving>, keys: set<string>, disk: Disk) {
    && serving.Some? && disk.reloads
    && Reloads(serving.value.sans, serving.value.files, RegistrySans(keys), disk.signs)
  }

  /** The registered names confirmed absent, in key order. */
  function Stale(reg: map<string, string>, absent: set<string>): seq<string> {
    InOrder(reg.Keys * absent)
  }

  /** The registry after an add. */
  function AddedTo(reg: map<string, string>, name: string, tag: Option<string>, path: string, disk: Disk)
    : map<string, string>
  {
    var key := AddKey(name, tag);
    if disk.readable && key.Ok? && disk.loads && key.value !in reg && disk.saves then reg[key.value := path] else reg
  }

  class ControlPlane {
    const supervisor: Supervisor
    // the registry file, and the resolver once the HTTPS listener has published one
    var registry: map<string, string>
    var resolver: LeafResolver?

    constructor (supervisor: Supervisor, registry: map<string, string>, resolver: LeafResolver?)
      ensures this.supervisor == supervisor && this.registry == registry && this.resolver == resolver
    {
      this.supervisor, this.registry, this.resolver := supervisor, registry, resolver;
    }

    ghost predicate Valid()
      reads this, supervisor, resolver
    {
      supervisor.Valid() && (resolver != null ==> resolver.Valid())
    }

    ghost function Served(): Option<Serving>
      reads this, resolver
    {
      if resolver == null then None else Some(Serving(resolver.sans, resolver.disk))
    }

    /** The tail of every registry change: a failed reload keeps the old certificate. */
    method ReloadLeaf(disk: Disk) returns (ok: bool)
      requires resolver != null ==> resolver.Valid()
      modifies resolver
      ensures resolver != null ==> resolver.Valid()
      ensures ok ==> resolver != null && resolver.sans == RegistrySans(registry.Keys)
      ensures !ok && resolver != null ==> resolver.sans == old(resolver.sans) && resolver.key == old(resolver.key)
      ensures ok <==> Reloaded(old(Served()), registry.Keys, disk)
    {
      if resolver == null {
        return false;
      }
      ok := resolver.Reload(if disk.reloads then Ok(registry.Keys) else Err(()), disk.signs);
    }

    /** Register `name`, or its instance `tag`, at `path`. */
    method Add(name: string, tag: Option<string>, path: string, disk: Disk)
      returns (r: Result<string, AddError>, current: bool)
      requires Valid()
      modifies this`registry, resolver
      ensures Valid()
      ensures r.Ok? <==> disk.readable && AddKey(name, tag).Ok? && disk.loads
                         && AddKey(name, tag).value !in old(registry) && disk.saves
      ensures r.Ok? ==> ValidKey(r.value) && SplitKey(r.value) == (tag, name)
      ensures r.Ok? ==> registry == DaemonProofs.Committed(old(registry), Daemon.Added(r.value, path))
      ensures registry == AddedTo(old(registry), name, tag, path, disk)
      ensures r.Err? ==> registry == old(registry) && !current
      ensures r == Err(Taken) ==> AddKey(name, tag).Ok? && AddKey(name, tag).value in registry
      ensures AddKey(name, tag).Err? && disk.readable ==> r == Err(Rejected(AddKey(name, tag).error))
      ensures current ==> resolver != null && resolver.sans == RegistrySans(registry.Keys)
      ensures r.Ok? ==> (current <==> Reloaded(old(Served()), registry.Keys, disk))
    {
      current := false;
      if !disk.readable {
        return Err(Unreadable), false;
      }
      var key := AddKey(name, tag);
      if key.Err? {
        return Err(Rejected(key.error)), false;
      }
      if !disk.loads {
        return Err(LoadFailed), false;
      }
      var reg := registry;
      if key.value in reg {
        return Err(Taken), false;
      }
      reg := reg[key.value := path];
      if !disk.saves {
        return Err(SaveFailed), false;
      }
      registry := reg;
      current := ReloadLeaf(disk);
      r := Ok(key.value);
    }

    /** Stop each name if it runs, forget it, and drop it from `reg`. `env(i)` goes on during the i-th stop. */
    method TakeDown(names: seq<string>, reg: map<string, string>, env: nat -> Schedule)
      returns (rest: map<string, string>)
      requires supervisor.Valid()
      modifies supervisor
      ensures supervisor.Valid()
      ensures supervisor.past == old(supervisor.past) + TakeDownActs(old(supervisor.View()), names, env)
      ensures rest == Daemon.Without(reg, Elements(names))
    {
      ghost var s0 := supervisor.View();
      rest := reg;
      assert rest == Daemon.Without(reg, Elements([]));
      for i := 0 to |names|
        invariant supervisor.Valid()
        invariant supervisor.past == old(supervisor.past) + TakeDownActs(s0, names[..i], env)
        invariant rest == Daemon.Without(reg, Elements(names[..i]))
      {
        TakeDownStep(old(supervisor.past), s0, names, i, env);
        StopAndForget(names[i], env(i));
        WithoutStep(reg, names, i);
        rest := rest - {names[i]};
      }
      assert names[..|names|] == names;
    }

    /** The stop is best effort; a survivor keeps its runtime entry so the scanner can find it. */
    method StopAndForget(name: string, env: Schedule)
      requires supervisor.Valid()
      modifies supervisor
      ensures supervisor.Valid()
      ensures supervisor.past == old(supervisor.past) + LastActs(old(supervisor.View()), name, env)
      ensures name !in supervisor.apps || IsRunning(supervisor.View(), name)
    {
      DownIfRunning(name, env);
      var _ := supervisor.ForgetApp(name);
      LastActsEnd(old(supervisor.past), old(supervisor.View()), name, env);
    }

    method DownIfRunning(name: string, env: Schedule)
      requires supervisor.Valid()
      modifies supervisor
      ensures supervisor.Valid()
      ensures supervisor.past == old(supervisor.past) + DownActs(old(supervisor.View()), name, env)
    {
      var state := supervisor.State(name);
      if state.Running? {
        var _ := supervisor.Down(name, env);
      }
    }

    /** Remove one app. Its process is stopped before its row goes. */
    method Remove(name: string, disk: Disk, env: nat -> Schedule) returns (ok: bool, current: bool)
      requires Valid()
      modifies this`registry, supervisor, resolver
      ensures Valid()
      ensures ok <==> disk.loads && name in old(registry) && disk.saves
      ensures ok ==> registry == DaemonProofs.Committed(old(registry), Daemon.Dropped({name}))
      ensures supervisor.past == old(supervisor.past)
           + if disk.loads && name in old(registry) then LastActs(old(supervisor.View()), name, env(0)) else []
      ensures !ok ==> registry == old(registry) && !current
      ensures current ==> resolver != null && resolver.sans == RegistrySans(registry.Keys)
      ensures ok ==> (current <==> Reloaded(old(Served()), registry.Keys, disk))
    {
      ok, current := false, false;
      if !disk.loads || name !in registry {
        return;
      }
      OneTakenDown(supervisor.View(), name, env);
      var rest := TakeDown([name], registry, env);
      assert Elements([name]) == {name};
      if !disk.saves {
        return;
      }
      registry := rest;
      current := ReloadLeaf(disk);
      ok := true;
    }

    /** Drop exactly the entries whose path is confirmed absent. Nothing is saved when there are none. */
    method Prune(absent: set<string>, disk: Disk, env: nat -> Schedule)
      returns (removed: Option<seq<string>>, current: bool)
      requires Valid()
      modifies this`registry, supervisor, resolver
      ensures Valid()
      ensures removed.Some? <==> disk.loads && (Stale(old(registry), absent) == [] || disk.saves)
      ensures removed.Some? ==> removed.value == Stale(old(registry), absent)
      ensures removed.Some? ==>
                registry == DaemonProofs.Committed(old(registry), Daemon.Dropped(old(registry).Keys * absent))
      ensures supervisor.past == old(supervisor.past)
           + if disk.loads then TakeDownActs(old(supervisor.View()), Stale(old(registry), absent), env) else []
      ensures removed.None? ==> registry == old(registry) && !current
      ensures current ==> resolver != null && resolver.sans == RegistrySans(registry.Keys)
      ensures removed.Some? && removed.value != [] ==> (current <==> Reloaded(old(Served()), registry.Keys, disk))
    {
      removed, current := None, false;
      if !disk.loads {
        return;
      }
      var stale := Stale(registry, absent);
      var rest := TakeDown(stale, registry, env);
      if stale != [] {
        if !disk.saves {
          return;
        }
        registry := rest;
        current := ReloadLeaf(disk);
      } else {
        assert Elements(stale) == {};
      }
      removed := Some(stale);
    }

    /**
     One sweep over its candidates, in whatever order the snapshot's map yields them. Every orphan has an
     unconditional stop begun, every other candidate idle for its window at the snapshot a stop with that
     window, which checks again; and the sweep does nothing else.
     */
    method SweepOnce(registered: Option<set<string>>, env: nat -> Schedule) returns (order: seq<string>)
      requires supervisor.Valid()
      modifies supervisor
      ensures supervisor.Valid() && old(supervisor.past) <= supervisor.past
      ensures NoRepeats(order) && Elements(order) == Candidates(old(supervisor.View())).Keys
      ensures var basis := Basis(Candidates(old(supervisor.View())), registered);
              SweptAll(supervisor.past[old(|supervisor.past|)..], order, basis)
      ensures var basis := Basis(Candidates(old(supervisor.View())), registered);
              SweptOnly(supervisor.past[old(|supervisor.past|)..], order, basis, env)
    {
      var candidates := supervisor.IdleCandidates();
      order := AnyOrder(candidates.Keys);
      ghost var basis := Basis(candidates, registered);
      InElements(order);
      SweepOver(order, candidates, registered, env);
      SweepSteps(old(supervisor.View()), order, basis, env);
    }

    method SweepOver(order: seq<string>, candidates: map<string, (nat, Option<nat>)>, registered: Option<set<string>>,
                     env: nat -> Schedule)
      requires supervisor.Valid() && forall n <- order :: n in candidates
      modifies supervisor
      ensures supervisor.Valid()
      ensures supervisor.past
           == old(supervisor.past) + SweepActs(old(supervisor.View()), order, Basis(candidates, registered), env)
    {
      ghost var s0, basis := supervisor.View(), Basis(candidates, registered);
      for i := 0 to |order|
        invariant supervisor.Valid()
        invariant supervisor.past == old(supervisor.past) + SweepActs(s0, order[..i], basis, env)
      {
        SweepStep(old(supervisor.past), s0, order, i, basis, env);
        Visit(order[i], candidates, registered, env(i));
      }
      assert order[..|order|] == order;
    }

    /** What a sweep does about one candidate. */
    method Visit(name: string, candidates: map<string, (nat, Option<nat>)>, registered: Option<set<string>>,
                 env: Schedule)
      requires supervisor.Valid() && name in candidates
      modifies supervisor
      ensures supervisor.Valid()
      ensures supervisor.past
           == old(supervisor.past) + VisitActs(old(supervisor.View()), name, Basis(candidates, registered), env)
    {
      if Daemon.Orphan(registered, name) {
        Reap(name, env);
      } else if Daemon.Due(candidates[name]) {
        var _ := supervisor.DownIfIdle(name, candidates[name].1.value, env);
      }
    }

    /** The scanner's reap: stop without looking at the registry again, then forget. */
    method Reap(name: string, env: Schedule)
      requires supervisor.Valid()
      modifies supervisor
      ensures supervisor.Valid()
      ensures supervisor.past
           == old(supervisor.past) + StopActs(old(supervisor.View()), name, None, env) + [Forget(name)]
      ensures name !in supervisor.apps || IsRunning(supervisor.View(), name)
    {
      var _ := supervisor.Down(name, env);
      var _ := supervisor.ForgetApp(name);
    }
  }

  // ---------------------------------------------------------------- taking an app down

  /** A stop, if the app runs. */
  function DownActs(s: SupState, name: string, env: Schedule): seq<Action> {
    if IsRunning(s, name) then StopActs(s, name, None, env) else []
  }

  /** The last steps on an app that is deregistered. */
  function LastActs(s: SupState, name: string, env: Schedule): seq<Action> {
    DownActs(s, name, env) + [Forget(name)]
  }

  lemma LastActsEnd(before: seq<Action>, s: SupState, name: string, env: Schedule)
    ensures before + LastActs(s, name, env) == before + DownActs(s, name, env) + [Forget(name)]
  {}

  /** Everything that goes on while `names` are taken down one after the other. */
  function TakeDownActs(s: SupState, names: seq<string>, env: nat -> Schedule): seq<Action> {
    if names == [] then []
    else
      var i := |names| - 1;
      var front := TakeDownActs(s, names[..i], env);
      front + LastActs(Run(s, front), names[i], env(i))
  }

  lemma TakeDownStep(before: seq<Action>, s: SupState, names: seq<string>, i: nat, env: nat -> Schedule)
    requires i < |names| && s == Run(INIT, before)
    ensures var front := TakeDownActs(s, names[..i], env);
            && Run(INIT, before + front) == Run(s, front)
            && before + TakeDownActs(s, names[..i + 1], env)
            == before + front + LastActs(Run(s, front), names[i], env(i))
  {
    var front := TakeDownActs(s, names[..i], env);
    RunConcat(INIT, before, front);
    TakeDownOneMore(s, names, i, env);
    Assoc(before, front, LastActs(Run(s, front), names[i], env(i)));
  }

  lemma TakeDownOneMore(s: SupState, names: seq<string>, i: nat, env: nat -> Schedule)
    requires i < |names|
    ensures var front := TakeDownActs(s, names[..i], env);
            TakeDownActs(s, names[..i + 1], env) == front + LastActs(Run(s, front), names[i], env(i))
  {
    assert names[..i + 1][..i] == names[..i];
  }

  lemma OneTakenDown(s: SupState, name: string, env: nat -> Schedule)
    ensures TakeDownActs(s, [name], env) == LastActs(s, name, env(0))
  {
    var names := [name];
    assert names[..1] == names && names[..0] == [];
    TakeDownOneMore(s, names, 0, env);
    NothingBefore(LastActs(s, name, env(0)));
    assert TakeDownActs(s, names[..0], env) == [];
  }

  lemma NothingBefore(acts: seq<Action>)
    ensures [] + acts == acts
  {}

  /**
   After the steps `front` the app was looked at: if it ran, a stop was begun there and then. It was
   forgotten after that, and right then it had no entry or it ran.
   */
  ghost predicate TakenDown(s: SupState, acts: seq<Action>, front: seq<Action>, name: string, env: Schedule) {
    var last := LastActs(Run(s, front), name, env);
    && front + last <= acts
    && (if IsRunning(Run(s, front), name) then last[0] == BeginStop(name, None) else last == [Forget(name)])
    && last[|last| - 1] == Forget(name)
    && (name !in Run(s, front + last).apps || IsRunning(Run(s, front + last), name))
  }

  lemma {:induction false} TakeDownGrows(s: SupState, names: seq<string>, i: nat, env: nat -> Schedule)
    requires i <= |names|
    ensures TakeDownActs(s, names[..i], env) <= TakeDownActs(s, names, env)
    decreases |names| - i
  {
    if i < |names| {
      TakeDownOneMore(s, names, i, env);
      TakeDownGrows(s, names, i + 1, env);
    } else {
      assert names[..i] == names;
    }
  }

  /** Every name is dealt with in its turn. */
  lemma EachTakenDown(s: SupState, names: seq<string>, i: nat, env: nat -> Schedule)
    requires i < |names|
    ensures TakenDown(s, TakeDownActs(s, names, env), TakeDownActs(s, names[..i], env), names[i], env(i))
  {
    var front := TakeDownActs(s, names[..i], env);
    TakeDownOneMore(s, names, i, env);
    TakeDownGrows(s, names, i + 1, env);
    LastActsEnd(front, Run(s, front), names[i], env(i));
    ForgottenLast(s, front + DownActs(Run(s, front), names[i], env(i)), names[i]);
  }

  lemma ForgottenLast(s: SupState, acts: seq<Action>, name: string)
    ensures var s' := Run(s, acts + [Forget(name)]);
            name !in s'.apps || IsRunning(s', name)
  {
    RunConcat(s, acts, [Forget(name)]);
    RunOne(Run(s, acts), Forget(name));
  }

  lemma WithoutStep(reg: map<string, string>, names: seq<string>, i: nat)
    requires i < |names|
    ensures Daemon.Without(reg, Elements(names[..i])) - {names[i]} == Daemon.Without(reg, Elements(names[..i + 1]))
  {
    assert names[..i + 1] == names[..i] + [names[i]];
    assert Elements(names[..i + 1]) == Elements(names[..i]) + {names[i]};
  }

  // ---------------------------------------------------------------- sweeping

  /** Everything that goes on while a sweep deals with one candidate. */
  function VisitActs(s: SupState, name: string, basis: Basis, env: Schedule): seq<Action>
    requires name in basis.candidates
  {
    var candidate := basis.candidates[name];
    if Daemon.Orphan(basis.registered, name) then StopActs(s, name, None, env) + [Forget(name)]
    else if Daemon.Due(candidate) then StopActs(s, name, candidate.1, env)
    else []
  }

  function SweepActs(s: SupState, order: seq<string>, basis: Basis, env: nat -> Schedule): seq<Action>
    requires forall n <- order :: n in basis.candidates
  {
    if order == [] then []
    else
      var i := |order| - 1;
      var front := SweepActs(s, order[..i], basis, env);
      front + VisitActs(Run(s, front), order[i], basis, env(i))
  }

  lemma SweepStep(before: seq<Action>, s: SupState, order: seq<string>, i: nat, basis: Basis, env: nat -> Schedule)
    requires i < |order| && (forall n <- order :: n in basis.candidates) && s == Run(INIT, before)
    ensures var front := SweepActs(s, order[..i], basis, env);
            && Run(INIT, before + front) == Run(s, front)
            && before + SweepActs(s, order[..i + 1], basis, env)
            == before + front + VisitActs(Run(s, front), order[i], basis, env(i))
  {
    var front := SweepActs(s, order[..i], basis, env);
    RunConcat(INIT, before, front);
    SweepOneMore(s, order, i, basis, env);
    Assoc(before, front, VisitActs(Run(s, front), order[i], basis, env(i)));
  }

  lemma SweepOneMore(s: SupState, order: seq<string>, i: nat, basis: Basis, env: nat -> Schedule)
    requires i < |order| && (forall n <- order :: n in basis.candidates)
    ensures var front := SweepActs(s, order[..i], basis, env);
            SweepActs(s, order[..i + 1], basis, env) == front + VisitActs(Run(s, front), order[i], basis, env(i))
  {
    assert order[..i + 1][..i] == order[..i];
  }

  lemma Assoc(a: seq<Action>, b: seq<Action>, c: seq<Action>)
    ensures a + (b + c) == a + b + c
  {}

  /** Among these steps is the stop a candidate is owed: missing from a loaded registry, or idle for its window. */
  ghost predicate Owed(acts: seq<Action>, name: string, basis: Basis) {
    && name in basis.candidates
    && var (idle, window) := basis.candidates[name];
       if basis.registered.Some? && name !in basis.registered.value then
         BeginStop(name, None) in acts && Forget(name) in acts
       else window.Some? && idle >= window.value ==> BeginStop(name, window) in acts
  }

  /** A step the sweep takes on its own account for `name`. */
  predicate OwnStep(a: Action, name: string, basis: Basis) {
    && name in basis.candidates
    && var (idle, window) := basis.candidates[name];
       if basis.registered.Some? && name !in basis.registered.value then a == BeginStop(name, None) || a == Forget(name)
       else window.Some? && idle >= window.value && a == BeginStop(name, window)
  }

  ghost predicate Accounted(a: Action, order: seq<string>, basis: Basis, env: nat -> Schedule) {
    exists i :: 0 <= i < |order| && (OwnStep(a, order[i], basis) || Meanwhile(a, env(i)))
  }

  /** Every candidate gets what it is owed, */
  ghost predicate SweptAll(acts: seq<Action>, order: seq<string>, basis: Basis) {
    forall n <- order :: Owed(acts, n, basis)
  }

  /** and nothing else is done to anybody. */
  ghost predicate SweptOnly(acts: seq<Action>, order: seq<string>, basis: Basis, env: nat -> Schedule) {
    forall a <- acts :: Accounted(a, order, basis, env)
  }

  lemma StopMeanwhile(s: SupState, name: string, minIdle: Option<nat>, env: Schedule)
    ensures forall a <- StopActs(s, name, minIdle, env) :: a == BeginStop(name, minIdle) || Meanwhile(a, env)
    ensures BeginStop(name, minIdle) in StopActs(s, name, minIdle, env)
  {
    PolledMeanwhile(s, name, minIdle, env);
  }

  lemma VisitSteps(s: SupState, name: string, basis: Basis, env: Schedule)
    requires name in basis.candidates
    ensures VisitOnly(VisitActs(s, name, basis, env), name, basis, env)
    ensures Owed(VisitActs(s, name, basis, env), name, basis)
  {
    StopMeanwhile(s, name, None, env);
    StopMeanwhile(s, name, basis.candidates[name].1, env);
  }

  ghost predicate VisitOnly(acts: seq<Action>, name: string, basis: Basis, env: Schedule) {
    forall a <- acts :: OwnStep(a, name, basis) || Meanwhile(a, env)
  }

  lemma {:induction false} SweepSteps(s: SupState, order: seq<string>, basis: Basis, env: nat -> Schedule)
    requires forall n <- order :: n in basis.candidates
    ensures SweptAll(SweepActs(s, order, basis, env), order, basis)
    ensures SweptOnly(SweepActs(s, order, basis, env), order, basis, env)
    decreases |order|
  {
    if order != [] {
      var i := |order| - 1;
      SweepSteps(s, order[..i], basis, env);
      var front, visit := LastVisit(s, order, i, basis, env);
      OneMoreSwept(front, visit, order[..i], order[i], basis, env);
      LastOne(order);
    }
  }

  lemma LastVisit(s: SupState, order: seq<string>, i: nat, basis: Basis, env: nat -> Schedule)
    returns (front: seq<Action>, visit: seq<Action>)
    requires |order| == i + 1 && forall n <- order :: n in basis.candidates
    ensures front == SweepActs(s, order[..i], basis, env)
    ensures SweepActs(s, order, basis, env) == front + visit
    ensures VisitOnly(visit, order[i], basis, env(i)) && Owed(visit, order[i], basis)
  {
    front := SweepActs(s, order[..i], basis, env);
    visit := VisitActs(Run(s, front), order[i], basis, env(i));
    VisitSteps(Run(s, front), order[i], basis, env(i));
  }

  lemma LastOne(order: seq<string>)
    requires order != []
    ensures order[..|order| - 1] + [order[|order| - 1]] == order
  {}

  lemma OneMoreSwept(front: seq<Action>, visit: seq<Action>, order: seq<string>, name: string, basis: Basis,
                     env: nat -> Schedule)
    requires SweptAll(front, order, basis) && Owed(visit, name, basis)
    requires SweptOnly(front, order, basis, env) && VisitOnly(visit, name, basis, env(|order|))
    ensures SweptAll(front + visit, order + [name], basis)
    ensures SweptOnly(front + visit, order + [name], basis, env)
  {
    forall n <- order + [name] ensures Owed(front + visit, n, basis) {
      MoreOwed(front, visit, n, basis);
    }
    forall a <- front + visit ensures Accounted(a, order + [name], basis, env) {
      MoreAccounted(a, order, name, basis, env);
    }
  }

  lemma MoreAccounted(a: Action, order: seq<string>, name: string, basis: Basis, env: nat -> Schedule)
    requires Accounted(a, order, basis, env) || OwnStep(a, name, basis) || Meanwhile(a, env(|order|))
    ensures Accounted(a, order + [name], basis, env)
  {
    var more := order + [name];
    if Accounted(a, order, basis, env) {
      var i :| 0 <= i < |order| && (OwnStep(a, order[i], basis) || Meanwhile(a, env(i)));
      assert more[i] == order[i];
    } else {
      assert more[|order|] == name;
    }
  }

  lemma MoreOwed(a: seq<Action>, b: seq<Action>, name: string, basis: Basis)
    requires Owed(a, name, basis) || Owed(b, name, basis)
    ensures Owed(a + b, name, basis)
  {}

  /** The keys of a hash map in the order it happens to yield them. */
  method AnyOrder(keys: set<string>) returns (order: seq<string>)
    ensures NoRepeats(order) && Elements(order) == keys
  {
    order := [];
    var todo := keys;
    while todo != {}
      invariant NoRepeats(order) && Elements(order) == keys - todo && todo <= keys
    {
      var k :| k in todo;
      assert k !in Elements(order);
      InElements(order);
      ghost var was := order;
      order := order + [k];
      assert Elements(order) == Elements(was) + {k};
      todo := todo - {k};
    }
  }
}
