/**
 * The parts of the browser window the Live2D code talks to:
 * `requestAnimationFrame` / `cancelAnimationFrame` and the `window.backend`
 * logger. Timing is not modelled: a frame callback fires whenever the
 * environment chooses to call `Fire` on a pending id.
 */
module Browser {

  /**
   * The animation-frame scheduler. `requestAnimationFrame` returns a fresh,
   * nonzero request id; `pending` is the set of ids whose callback has been
   * scheduled and neither fired nor cancelled.
   */
  class AnimationFrames {
    var nextId: int
    ghost var pending: set<int>

    ghost predicate Valid()
      reads this
    {
      && nextId >= 1
      && forall id :: id in pending ==> 0 < id < nextId
    }

    constructor ()
      ensures Valid() && pending == {}
    {
      nextId := 1;
      pending := {};
    }

    /** `requestAnimationFrame(cb)`: a fresh nonzero id, now pending. */
    method Request() returns (id: int)
      requires Valid()
      modifies this
      ensures Valid()
      ensures id != 0 && id !in old(pending) && old(nextId) <= id < nextId
      ensures pending == old(pending) + {id}
    {
      id := nextId;
      nextId := nextId + 1;
      pending := pending + {id};
    }

    /** `cancelAnimationFrame(id)`: harmless for an id that is not pending. */
    method Cancel(id: int)
      requires Valid()
      modifies this
      ensures Valid() && nextId == old(nextId)
      ensures pending == old(pending) - {id}
    {
      pending := pending - {id};
    }

    /** The browser takes a pending callback off the queue to run it. */
    method Fire(id: int)
      requires Valid() && id in pending
      modifies this
      ensures Valid() && nextId == old(nextId)
      ensures pending == old(pending) - {id}
    {
      pending := pending - {id};
    }
  }

  /** `window.backend.logError` / `logInfo`, as two append-only logs. */
  class Backend {
    var errors: seq<string>
    var infos: seq<string>

    constructor ()
      ensures errors == [] && infos == []
    {
      errors := [];
      infos := [];
    }

    method LogError(msg: string)
      modifies this`errors
      ensures errors == old(errors) + [msg]
    {
      errors := errors + [msg];
    }

    method LogInfo(msg: string)
      modifies this`infos
      ensures infos == old(infos) + [msg]
    {
      infos := infos + [msg];
    }
  }
}
