/** Waiting for a booted app: a poll loop against a clock, with the probe as an oracle. */
module Readiness {
  import opened Wrappers
  import opened Lifecycle

  const READY_POLL_INTERVAL: nat := 200

  datatype ReadinessError = Timeout | CrashedDuringBoot(exitCode: int)

  /** What round `k` of the loop meets: the state it reads, and how the probe goes. */
  datatype Round = Round(state: AppState, ready: bool, probeTime: nat)

  /** What the probes of the first `k` rounds take; only a running app is probed. */
  function ProbeTime(rounds: nat -> Round, k: nat): nat {
    if k == 0 then 0
    else ProbeTime(rounds, k - 1) + (if rounds(k - 1).state.Running? then rounds(k - 1).probeTime else 0)
  }

  /** The time once round `k` is over, if it is reached. */
  function TimeAfter(start: nat, rounds: nat -> Round, k: nat): nat {
    start + k * 200 + ProbeTime(rounds, k + 1)
  }

  /**
   Poll until ready, crashed or out of time. The answer is that of the first round that finds the app ready,
   with its port, or crashed, with its code; a timeout means no round so far was either and the deadline has
   passed. Sleeps are exact.
   */
  method WaitReady(start: nat, deadline: nat, rounds: nat -> Round, maxProbe: nat)
    returns (r: Result<nat, ReadinessError>, now: nat, last: nat)
    requires forall k: nat :: rounds(k).probeTime <= maxProbe
    ensures forall k: nat :: k < last ==> !rounds(k).state.Crashed? && !(rounds(k).state.Running? && rounds(k).ready)
    ensures r.Ok? ==> rounds(last).state.Running? && rounds(last).ready && r.value == rounds(last).state.port
    ensures r.Err? && r.error.CrashedDuringBoot? ==> rounds(last).state == Crashed(r.error.exitCode)
    ensures r == Err(Timeout) ==> !rounds(last).state.Crashed? && !(rounds(last).state.Running? && rounds(last).ready)
    ensures r == Err(Timeout) ==> now >= deadline
    ensures now == TimeAfter(start, rounds, last)
    ensures forall k: nat :: k < last ==> TimeAfter(start, rounds, k) < deadline
    ensures start + last * 200 <= now
    ensures now <= (if start >= deadline + 200 then start else deadline + 200) + maxProbe
  {
    now, last := start, 0;
    while true
      invariant forall k: nat :: k < last ==>
                  !rounds(k).state.Crashed? && !(rounds(k).state.Running? && rounds(k).ready)
      invariant now == start + last * READY_POLL_INTERVAL + ProbeTime(rounds, last)
      invariant forall k: nat :: k < last ==> TimeAfter(start, rounds, k) < deadline
      invariant last == 0 ==> now == start
      invariant last > 0 ==> now < deadline + READY_POLL_INTERVAL
      decreases if now < deadline then deadline - now else 0, if last == 0 then 1 else 0
    {
      var round := rounds(last);
      match round.state {
      case Running(_, port) =>
        now := now + round.probeTime;
        if round.ready {
          return Ok(port), now, last;
        }
        if now >= deadline {
          return Err(Timeout), now, last;
        }
      case Crashed(code) =>
        return Err(CrashedDuringBoot(code)), now, last;
      case Stopped =>
        if now >= deadline {
          return Err(Timeout), now, last;
        }
      }
      now := now + READY_POLL_INTERVAL;
      last := last + 1;
    }
  }

  datatype TurnError = BootFailed | BootTimeout | BootCrashed(exitCode: int)

  /** What one request meets once it has the boot lock: whether the app runs, how its boot goes, and the polls. */
  datatype Turn = Turn(running: bool, upOk: bool, upTime: nat, rounds: nat -> Round)

  /** No round before the `k`-th found the app ready or crashed. */
  ghost predicate UndecidedBefore(rounds: nat -> Round, k: nat) {
    forall j: nat :: j < k ==> !rounds(j).state.Crashed? && !(rounds(j).state.Running? && rounds(j).ready)
  }

  ghost predicate ProbesWithin(turn: Turn, maxProbe: nat) {
    forall k: nat :: turn.rounds(k).probeTime <= maxProbe
  }

  /** The app runs on `port` and answers its probe. */
  predicate ReadyAt(r: Round, port: nat) {
    r.state.Running? && r.state.port == port && r.ready
  }

  /** Each answer names its cause, and a timeout is never early. */
  ghost predicate Answered(turn: Turn, r: Result<nat, TurnError>, acquired: nat, released: nat, bootTimeout: nat) {
    && (r == Err(BootFailed) <==> !turn.running && !turn.upOk)
    && (r == Err(BootTimeout) ==>
          released >= acquired + bootTimeout && exists k: nat :: k > 0 && UndecidedBefore(turn.rounds, k))
    && (r.Ok? ==> exists k: nat :: UndecidedBefore(turn.rounds, k) && ReadyAt(turn.rounds(k), r.value))
    && (r.Err? && r.error.BootCrashed? ==>
          exists k: nat :: UndecidedBefore(turn.rounds, k) && turn.rounds(k).state == Crashed(r.error.exitCode))
  }

  function TurnLimit(bootTimeout: nat, maxProbe: nat): nat {
    bootTimeout + READY_POLL_INTERVAL + maxProbe
  }

  /**
   One request's turn on the boot lock: the deadline is fixed before the boot, so a slow boot counts
   against it. With a boot that fits in it, the lock is released by `acquired + bootTimeout + 200 + maxProbe`.
   */
  method BootTurn(acquired: nat, bootTimeout: nat, turn: Turn, maxProbe: nat)
    returns (r: Result<nat, TurnError>, released: nat)
    requires ProbesWithin(turn, maxProbe)
    ensures acquired + (if turn.running then 0 else turn.upTime) <= released
    ensures released <= acquired + TurnLimit(if turn.upTime <= bootTimeout then bootTimeout else turn.upTime, maxProbe)
    ensures Answered(turn, r, acquired, released, bootTimeout)
  {
    var deadline := acquired + bootTimeout;
    var now := acquired;
    if !turn.running {
      now := now + turn.upTime;
      if !turn.upOk {
        return Err(BootFailed), now;
      }
    }
    var answer, last;
    answer, released, last := WaitReady(now, deadline, turn.rounds, maxProbe);
    match answer {
      case Ok(port) =>
        assert UndecidedBefore(turn.rounds, last);
        r := Ok(port);
      case Err(Timeout) =>
        assert UndecidedBefore(turn.rounds, last + 1);
        r := Err(BootTimeout);
      case Err(CrashedDuringBoot(code)) =>
        assert UndecidedBefore(turn.rounds, last);
        r := Err(BootCrashed(code));
    }
  }

  datatype Served = Served(acquired: nat, answer: Result<nat, TurnError>, released: nat)

  /** One entry is a turn on the lock, answered and over within `limit`. */
  ghost predicate TurnServed(turn: Turn, e: Served, bootTimeout: nat, limit: nat) {
    && Answered(turn, e.answer, e.acquired, e.released, bootTimeout)
    && e.acquired <= e.released <= e.acquired + limit
  }

  /** Turns follow one another without a gap. */
  predicate InTurn(start: nat, log: seq<Served>) {
    forall k :: 0 <= k < |log| ==> log[k].acquired == FreeAt(start, log, k)
  }

  /** When the lock is free for the `k`-th in the queue. */
  function FreeAt(start: nat, log: seq<Served>, k: nat): nat
    requires k <= |log|
  {
    if k == 0 then start else log[k - 1].released
  }

  /**
   The requests queued on one boot lock, served first come first served: the k-th has its answer after k
   turn limits, whatever becomes of the others' boots.
   */
  method ServeQueue(start: nat, bootTimeout: nat, turns: seq<Turn>, maxProbe: nat) returns (log: seq<Served>)
    requires forall k :: 0 <= k < |turns| ==> ProbesWithin(turns[k], maxProbe) && turns[k].upTime <= bootTimeout
    ensures |log| == |turns| && InTurn(start, log)
    ensures forall k :: 0 <= k < |turns| ==> TurnServed(turns[k], log[k], bootTimeout, TurnLimit(bootTimeout, maxProbe))
    ensures forall k :: 0 <= k < |turns| ==> log[k].released <= start + (k + 1) * (bootTimeout + 200 + maxProbe)
  {
    log := ServeInTurn(start, bootTimeout, turns, maxProbe);
    forall k | 0 <= k < |turns| ensures log[k].released <= start + (k + 1) * TurnLimit(bootTimeout, maxProbe) {
      TurnsAddUp(start, log, TurnLimit(bootTimeout, maxProbe), k);
    }
  }

  method ServeInTurn(start: nat, bootTimeout: nat, turns: seq<Turn>, maxProbe: nat) returns (log: seq<Served>)
    requires forall k :: 0 <= k < |turns| ==> ProbesWithin(turns[k], maxProbe) && turns[k].upTime <= bootTimeout
    ensures |log| == |turns| && InTurn(start, log)
    ensures forall k :: 0 <= k < |turns| ==> TurnServed(turns[k], log[k], bootTimeout, TurnLimit(bootTimeout, maxProbe))
  {
    log := [];
    for i := 0 to |turns|
      invariant |log| == i && InTurn(start, log)
      invariant forall k :: 0 <= k < i ==>
                  TurnServed(turns[k], log[k], bootTimeout, TurnLimit(bootTimeout, maxProbe))
    {
      var served := ServeOne(FreeAt(start, log, i), bootTimeout, turns[i], maxProbe);
      InTurnMore(start, log, served);
      log := log + [served];
    }
  }

  method ServeOne(acquired: nat, bootTimeout: nat, turn: Turn, maxProbe: nat) returns (served: Served)
    requires ProbesWithin(turn, maxProbe) && turn.upTime <= bootTimeout
    ensures served.acquired == acquired
    ensures TurnServed(turn, served, bootTimeout, TurnLimit(bootTimeout, maxProbe))
  {
    var answer, released := BootTurn(acquired, bootTimeout, turn, maxProbe);
    served := Served(acquired, answer, released);
  }

  lemma InTurnMore(start: nat, log: seq<Served>, served: Served)
    requires InTurn(start, log) && served.acquired == FreeAt(start, log, |log|)
    ensures InTurn(start, log + [served])
  {
    var more := log + [served];
    forall k | 0 <= k < |more| ensures more[k].acquired == FreeAt(start, more, k) {
      assert k < |log| ==> log[k].acquired == FreeAt(start, log, k);
    }
  }

  lemma {:induction false} TurnsAddUp(start: nat, log: seq<Served>, limit: nat, k: nat)
    requires k < |log| && InTurn(start, log)
    requires forall j :: 0 <= j < |log| ==> log[j].released <= log[j].acquired + limit
    ensures log[k].released <= start + (k + 1) * limit
  {
    assert log[k].acquired == FreeAt(start, log, k);
    if k > 0 {
      TurnsAddUp(start, log, limit, k - 1);
      assert (k + 1) * limit == k * limit + limit;
    }
  }
}
