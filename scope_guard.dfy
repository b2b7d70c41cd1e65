/**
 * The scope guard: an object that runs a rollback function when it is
 * destroyed, unless it was unguarded first. Moving a guard hands its armed
 * status over to the destination and disarms the source.
 *
 * A rollback function is identified by a number; running it appends that
 * number to a shared log, so the log tells which rollbacks ran and how often.
 */
module ScopeGuards {

  /** Which rollback functions ran, in the order they ran. */
  class RollbackLog {
    var ran: seq<nat>

    constructor()
      ensures ran == []
    {
      ran := [];
    }
  }

  /** The number of times `rollback` occurs in `ran`. */
  function Runs(ran: seq<nat>, rollback: nat): nat
  {
    if ran == [] then 0
    else Runs(ran[..|ran| - 1], rollback) + (if ran[|ran| - 1] == rollback then 1 else 0)
  }

  lemma RunsAppend(ran: seq<nat>, rollback: nat, x: nat)
    ensures Runs(ran + [x], rollback) == Runs(ran, rollback) + (if x == rollback then 1 else 0)
  {
    assert (ran + [x])[..|ran|] == ran;
  }

  class ScopeGuard {
    var rollback: nat
    var guarded: bool
    const log: RollbackLog

    /** A new guard is armed. */
    constructor(rollback: nat, log: RollbackLog)
      ensures this.rollback == rollback && this.log == log && guarded
    {
      this.rollback := rollback;
      this.log := log;
      guarded := true;
    }

    /** Move construction: the new guard takes the rollback and the armed status; the source is disarmed. */
    constructor Moved(other: ScopeGuard)
      modifies other
      ensures rollback == old(other.rollback) && guarded == old(other.guarded) && log == other.log
      ensures !other.guarded && other.rollback == old(other.rollback)
    {
      rollback := other.rollback;
      guarded := other.guarded;
      log := other.log;
      other.guarded := false;
    }

    /** The destructor runs the rollback exactly once if the guard is armed, and not at all otherwise. */
    method Destroy()
      modifies log
      ensures log.ran == old(log.ran) + (if guarded then [rollback] else [])
    {
      if guarded {
        log.ran := log.ran + [rollback];
      }
    }

    /** Disarms the guard; calling it again changes nothing. */
    method Unguard()
      modifies this`guarded
      ensures !guarded
    {
      guarded := false;
    }

    /**
     * Move assignment: this guard takes the other's rollback and armed status
     * and the other is disarmed. A rollback this guard was still armed with is
     * dropped without running. Moving a guard into itself disarms it.
     */
    method MoveAssign(other: ScopeGuard)
      modifies this, other
      ensures rollback == old(other.rollback)
      ensures !other.guarded
      ensures other != this ==> guarded == old(other.guarded) && other.rollback == old(other.rollback)
    {
      rollback := other.rollback;
      guarded := other.guarded;
      other.guarded := false;
    }
  }

  /** A guard destroyed while armed runs its rollback once. */
  method GuardedScope(rollback: nat, log: RollbackLog)
    modifies log
    ensures log.ran == old(log.ran) + [rollback]
  {
    var guard := new ScopeGuard(rollback, log);
    guard.Destroy();
  }

  /** A guard that was unguarded, once or twice, never runs its rollback. */
  method UnguardedScope(rollback: nat, log: RollbackLog)
    modifies log
    ensures log.ran == old(log.ran)
  {
    var guard := new ScopeGuard(rollback, log);
    guard.Unguard();
    guard.Unguard();
    guard.Destroy();
  }

  /**
   * Moving a guard and destroying both the source and the destination runs
   * the rollback once in all, by the destination, when the source was armed,
   * and not at all when the source had been unguarded before the move.
   */
  method MovedScope(rollback: nat, armed: bool, log: RollbackLog)
    modifies log
    ensures log.ran == old(log.ran) + (if armed then [rollback] else [])
    ensures Runs(log.ran, rollback) == Runs(old(log.ran), rollback) + (if armed then 1 else 0)
  {
    var source := new ScopeGuard(rollback, log);
    if !armed {
      source.Unguard();
    }
    var destination := new ScopeGuard.Moved(source);
    source.Destroy();
    destination.Destroy();
    if armed {
      RunsAppend(old(log.ran), rollback, rollback);
    } else {
      assert log.ran == old(log.ran);
    }
  }

  /**
   * Move-assigning an armed guard over another armed guard, then destroying
   * both: only the moved rollback runs, the overwritten one never does.
   */
  method MoveAssignedScope(first: nat, second: nat, log: RollbackLog)
    modifies log
    ensures log.ran == old(log.ran) + [second]
  {
    var target := new ScopeGuard(first, log);
    var source := new ScopeGuard(second, log);
    target.MoveAssign(source);
    source.Destroy();
    target.Destroy();
  }
}
