/**
 * Reference-counted initialisation of the media engine: only the first
 * successful init call initialises the engine, and only the deinit call that
 * brings the count back to zero deinitialises it.
 */
module InitGStreamer {

  /** The engine calls the counter makes, with the answer of the init check. */
  datatype EngineCall = InitCheck(ok: bool) | DeinitCall

  /** The process-wide counter and what the engine saw of it. */
  class Initializer {
    var refcount: nat
    ghost var initialized: bool
    ghost var calls: seq<EngineCall>

    /** The engine is initialised exactly while the count is positive. */
    ghost predicate Valid()
      reads this
    {
      initialized <==> refcount > 0
    }

    constructor()
      ensures Valid() && refcount == 0 && calls == []
    {
      refcount := 0;
      initialized := false;
      calls := [];
    }

    /**
     * The engine's init check runs only when the count is 0. A failed check
     * returns false and leaves the count as it was; otherwise the count grows by one.
     */
    method Init() returns (ok: bool)
      requires Valid()
      modifies this
      ensures Valid()
      ensures ok ==> refcount == old(refcount) + 1
      ensures !ok ==> refcount == old(refcount) == 0
      ensures calls == old(calls) + (if old(refcount) == 0 then [InitCheck(ok)] else [])
    {
      if refcount == 0 {
        var checked: bool := *;
        calls := calls + [InitCheck(checked)];
        if !checked {
          return false;
        }
        initialized := true;
      }
      refcount := refcount + 1;
      return true;
    }

    /**
     * A zero count stays zero, so the count never goes below zero; otherwise
     * it drops by one, and the engine is deinitialised when it reaches zero.
     */
    method Deinit()
      requires Valid()
      modifies this
      ensures Valid()
      ensures refcount == if old(refcount) == 0 then 0 else old(refcount) - 1
      ensures calls == old(calls) + (if old(refcount) == 1 then [DeinitCall] else [])
    {
      if refcount > 0 {
        refcount := refcount - 1;
        if refcount == 0 {
          calls := calls + [DeinitCall];
          initialized := false;
        }
      }
    }
  }

  /**
   * Two users: the engine is initialised by the first and deinitialised only
   * after both have let go.
   */
  method TwoUsers(engine: Initializer) returns (ok: bool)
    requires engine.Valid() && engine.refcount == 0
    modifies engine
    ensures engine.Valid() && engine.refcount == 0
    ensures ok ==> engine.calls == old(engine.calls) + [InitCheck(true), DeinitCall]
    ensures !ok ==> engine.calls == old(engine.calls) + [InitCheck(false)]
  {
    ok := engine.Init();
    if !ok {
      return;
    }
    var again := engine.Init();
    assert again && engine.refcount == 2;
    engine.Deinit();
    assert engine.initialized;
    engine.Deinit();
  }
}
