/**
 The per-name boot locks of one listener. The table holds weak references: an entry says which lock
 was last made for a name, not that anyone still holds it. Holders come and go without the table's
 mutex, so the set of live locks may shrink between the sweep and the upgrade, but cannot grow: new
 references come only from `LockFor`, which holds the mutex.
 */
module BootLocks {
  /** Drop every entry whose lock nobody holds. */
  function Retain(table: map<string, nat>, live: set<nat>): map<string, nat> {
    map n | n in table && table[n] in live :: table[n]
  }

  ghost predicate Injective(table: map<string, nat>) {
    forall m, n :: m in table && n in table && m != n ==> table[m] != table[n]
  }

  lemma SweepBound(table: map<string, nat>, live: set<nat>)
    requires Injective(table)
    ensures |Retain(table, live)| <= |live|
  {
    var r := Retain(table, live);
    ValuesCount(r);
    SubsetCount(r.Values, live);
  }

  lemma {:induction false} SubsetCount(a: set<nat>, b: set<nat>)
    requires a <= b
    ensures |a| <= |b|
  {
    if a != {} {
      var x :| x in a;
      SubsetCount(a - {x}, b - {x});
    }
  }

  lemma {:induction false} ValuesCount(r: map<string, nat>)
    requires Injective(r)
    ensures |r| == |r.Values|
    decreases |r|
  {
    if r.Keys == {} {
      assert r == map[];
      assert r.Values == {};
    } else {
      var n :| n in r;
      ValuesCount(r - {n});
      ValuesSplit(r, n);
    }
  }

  lemma ValuesSplit(r: map<string, nat>, n: string)
    requires Injective(r) && n in r
    ensures r.Values == (r - {n}).Values + {r[n]} && r[n] !in (r - {n}).Values
    ensures |r| == |r - {n}| + 1
  {
    assert r == (r - {n})[n := r[n]];
    forall v | v in r.Values ensures v in (r - {n}).Values + {r[n]} {
      var m :| m in r && r[m] == v;
      assert m != n ==> m in r - {n};
    }
  }

  /** The lock handed out for `name`: the entry's if it is still live, else the fresh one. */
  function Chosen(table: map<string, nat>, name: string, live: set<nat>, spare: nat): nat {
    if name in table && table[name] in live then table[name] else spare
  }

  /** Locks are made once and for one name; every lock still held is its name's entry. */
  ghost predicate Coherent(table: map<string, nat>, next: nat, held: map<nat, string>) {
    && Injective(table)
    && (forall n <- table :: table[n] < next)
    && (forall l <- held :: held[l] in table && table[held[l]] == l)
  }

  ghost function Keep(held: map<nat, string>, live: set<nat>): map<nat, string> {
    map l | l in held && l in live :: held[l]
  }

  lemma SweepCoherent(table: map<string, nat>, next: nat, held: map<nat, string>, atSweep: set<nat>,
                      atUpgrade: set<nat>)
    requires Coherent(table, next, held) && atUpgrade <= atSweep
    ensures Coherent(Retain(table, atSweep), next, Keep(held, atUpgrade))
  {}

  /** Handing out a lock: whoever still holds one for this name holds the same. */
  lemma IssueCoherent(table: map<string, nat>, next: nat, held: map<nat, string>, name: string)
    requires Coherent(table, next, held)
    ensures var lock := Chosen(table, name, held.Keys, next);
            && Coherent(table[name := lock], if lock == next then next + 1 else next, held[lock := name])
            && (forall l <- held :: held[l] == name ==> l == lock)
            && (if lock in held then held[lock] == name else lock == next)
  {}

  /** Sweeping and handing out together. */
  lemma GateKeeps(table: map<string, nat>, next: nat, held: map<nat, string>, atSweep: set<nat>, atUpgrade: set<nat>,
                  name: string)
    requires Coherent(table, next, held) && atUpgrade <= atSweep <= held.Keys
    ensures var lock := Chosen(Retain(table, atSweep), name, atUpgrade, next);
            var next' := if lock == next then next + 1 else next;
            && Coherent(Retain(table, atSweep)[name := lock], next', Keep(held, atUpgrade)[lock := name])
            && (forall l <- atUpgrade :: held[l] == name ==> l == lock)
            && (if lock in atUpgrade then held[lock] == name else lock == next && lock !in held)
  {
    SweepCoherent(table, next, held, atSweep, atUpgrade);
    IssueCoherent(Retain(table, atSweep), next, Keep(held, atUpgrade), name);
    assert Keep(held, atUpgrade).Keys == atUpgrade;
    assert forall l <- atUpgrade :: Keep(held, atUpgrade)[l] == held[l];
  }

  class BootGate {
    var locks: map<string, nat>
    // lock ids already handed out are below this
    var next: nat
    // the strongly held locks and the name each was issued for
    ghost var held: map<nat, string>

    ghost predicate Valid()
      reads this
    {
      Coherent(locks, next, held)
    }

    constructor ()
      ensures Valid() && locks == map[] && held == map[]
    {
      locks, next, held := map[], 0, map[];
    }

    /**
     A lock for `name`. `atSweep` and `atUpgrade` are the locks somebody holds at those two moments.
     Every holder for one name has the same lock, and the table keeps at most one entry that is not
     one of the locks live at the sweep.
     */
    method LockFor(name: string, atSweep: set<nat>, atUpgrade: set<nat>) returns (lock: nat)
      requires Valid() && atUpgrade <= atSweep <= held.Keys
      modifies this
      ensures Valid()
      ensures held == Keep(old(held), atUpgrade)[lock := name]
      ensures forall l <- atUpgrade :: old(held)[l] == name ==> l == lock
      ensures if lock in atUpgrade then old(held)[lock] == name else lock == old(next) && lock !in old(held)
      ensures locks == Retain(old(locks), atSweep)[name := lock]
      ensures |locks| <= |atSweep| + 1
    {
      GateKeeps(locks, next, held, atSweep, atUpgrade, name);
      locks := Retain(locks, atSweep);
      if name in locks && locks[name] in atUpgrade {
        lock := locks[name];
        assert locks[name := lock] == locks;
      } else {
        lock := next;
        next := next + 1;
        locks := locks[name := lock];
      }
      held := Keep(held, atUpgrade)[lock := name];
      IssueBound(old(locks), atSweep, name, lock);
    }
  }

  lemma IssueBound(table: map<string, nat>, live: set<nat>, name: string, lock: nat)
    requires Injective(table)
    ensures |Retain(table, live)[name := lock]| <= |live| + 1
  {
    SweepBound(table, live);
    assert Retain(table, live)[name := lock].Keys == Retain(table, live).Keys + {name};
  }
}
