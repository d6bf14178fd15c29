/**
 * The inactivity hook: two single-slot timer handles, one for the warning
 * and one for the timeout, cancelled and re-armed on every touch of the view
 * the handlers are attached to, armed when the hook mounts and cleared when
 * it unmounts.
 */
module Inactivity {
  import opened Wrappers
  import opened Timers

  /** Which of the two callbacks a timer runs. */
  datatype Signal = Warn | Timeout

  const DefaultWarnDelay: nat := 240_000
  const DefaultTimeoutDelay: nat := 300_000

  /**
   * The hook's invariant on its state cells: handles are distinct, positive
   * and already issued, no timer is overdue, and each pending timer is the
   * one its slot names.
   */
  ghost predicate SlotsAgree(pending: seq<Timer<Signal>>, now: int, nextId: nat, warnRef: Option<nat>, timeoutRef: Option<nat>)
  {
    && DistinctIds(pending)
    && NotBefore(pending, now)
    && 0 < nextId
    && (forall k :: 0 <= k < |pending| ==> 0 < pending[k].id < nextId)
    && (forall k :: 0 <= k < |pending| && pending[k].event == Warn ==> warnRef == Some(pending[k].id))
    && (forall k :: 0 <= k < |pending| && pending[k].event == Timeout ==> timeoutRef == Some(pending[k].id))
  }

  /** Clearing both slots of a hook that keeps its invariant leaves nothing pending. */
  lemma ClearSlots(pending: seq<Timer<Signal>>, now: int, nextId: nat, warnRef: Option<nat>, timeoutRef: Option<nat>)
    requires SlotsAgree(pending, now, nextId, warnRef, timeoutRef)
    ensures Clear(Clear(pending, warnRef), timeoutRef) == []
  {
    forall k | 0 <= k < |pending|
      ensures (Some(pending[k].id) == warnRef || Some(pending[k].id) == timeoutRef) && pending[k].id != 0
    {
      match pending[k].event
      case Warn =>
      case Timeout =>
    }
    ClearBoth(pending, warnRef, timeoutRef);
  }

  /** Freshly armed warning and timeout, with the refs naming them, keep the invariant. */
  lemma ArmedAgree(now: int, id: nat, warnDelay: nat, timeoutDelay: nat)
    requires 0 < id
    ensures SlotsAgree([] + [Timer(id, now + warnDelay, Warn), Timer(id + 1, now + timeoutDelay, Timeout)],
                       now, id + 2, Some(id), Some(id + 1))
  {
    assert [] + [Timer(id, now + warnDelay, Warn), Timer(id + 1, now + timeoutDelay, Timeout)]
        == [Timer(id, now + warnDelay, Warn), Timer(id + 1, now + timeoutDelay, Timeout)];
  }

  class InactivityTimer {
    const warnDelay: nat
    const timeoutDelay: nat
    /** The logical clock, in milliseconds. */
    var now: int
    /** `warnRef.current` and `timeoutRef.current`: the last handle stored, which may be stale. */
    var warnRef: Option<nat>
    var timeoutRef: Option<nat>
    /** The runtime's pending timers created by this hook, in creation order. */
    var pending: seq<Timer<Signal>>
    /** The handle the next `setTimeout` returns; handles are positive and never reused. */
    var nextId: nat

    /** Every pending timer is the one its slot names, has a positive handle already issued and is not overdue. */
    ghost predicate Valid()
      reads this
    {
      SlotsAgree(pending, now, nextId, warnRef, timeoutRef)
    }

    /** The hook before its mount effect has run: both refs hold `null`. */
    constructor (warnDelay: nat, timeoutDelay: nat, start: int)
      ensures Valid()
      ensures this.warnDelay == warnDelay && this.timeoutDelay == timeoutDelay
      ensures now == start && warnRef == None && timeoutRef == None && pending == [] && nextId == 1
    {
      this.warnDelay := warnDelay;
      this.timeoutDelay := timeoutDelay;
      now := start;
      warnRef := None;
      timeoutRef := None;
      pending := [];
      nextId := 1;
    }

    /** At most one warning and at most one timeout are pending at any time. */
    lemma AtMostOneOfEach()
      requires Valid()
      ensures forall i, j :: 0 <= i < |pending| && 0 <= j < |pending| && pending[i].event == pending[j].event ==> i == j
    {
    }

    /**
     * `resetTimers`: clears whatever the two refs hold, then arms one warning
     * `warnDelay` and one timeout `timeoutDelay` from now. Whatever was pending
     * before is gone, so a warning armed before this call can never fire.
     */
    method ResetTimers()
      requires Valid()
      modifies this
      ensures Valid()
      ensures pending == [Timer(old(nextId), now + warnDelay, Warn), Timer(old(nextId) + 1, now + timeoutDelay, Timeout)]
      ensures warnRef == Some(old(nextId)) && timeoutRef == Some(old(nextId) + 1)
      ensures nextId == old(nextId) + 2 && now == old(now)
    {
      ClearSlots(pending, now, nextId, warnRef, timeoutRef);
      var q := Clear(Clear(pending, warnRef), timeoutRef);
      var id := nextId;
      warnRef := Some(id);
      timeoutRef := Some(id + 1);
      pending := q + [Timer(id, now + warnDelay, Warn), Timer(id + 1, now + timeoutDelay, Timeout)];
      nextId := id + 2;
      ArmedAgree(now, id, warnDelay, timeoutDelay);
    }

    /** The mount effect: the same reset as a touch. */
    method Mount()
      requires Valid()
      modifies this
      ensures Valid()
      ensures pending == [Timer(old(nextId), now + warnDelay, Warn), Timer(old(nextId) + 1, now + timeoutDelay, Timeout)]
      ensures warnRef == Some(old(nextId)) && timeoutRef == Some(old(nextId) + 1)
      ensures nextId == old(nextId) + 2 && now == old(now)
    {
      ResetTimers();
    }

    /** The mount effect's cleanup: both slots are cleared and nothing stays pending. */
    method Unmount()
      requires Valid()
      modifies this
      ensures Valid()
      ensures pending == []
      ensures warnRef == old(warnRef) && timeoutRef == old(timeoutRef)
      ensures nextId == old(nextId) && now == old(now)
    {
      ClearSlots(pending, now, nextId, warnRef, timeoutRef);
      pending := Clear(Clear(pending, warnRef), timeoutRef);
    }

    /** The touch-start handler. */
    method OnTouchStart()
      requires Valid()
      modifies this
      ensures Valid()
      ensures pending == [Timer(old(nextId), now + warnDelay, Warn), Timer(old(nextId) + 1, now + timeoutDelay, Timeout)]
      ensures warnRef == Some(old(nextId)) && timeoutRef == Some(old(nextId) + 1)
      ensures nextId == old(nextId) + 2 && now == old(now)
    {
      ResetTimers();
    }

    /** The touch-move handler: the same reset as touch-start. */
    method OnTouchMove()
      requires Valid()
      modifies this
      ensures Valid()
      ensures pending == [Timer(old(nextId), now + warnDelay, Warn), Timer(old(nextId) + 1, now + timeoutDelay, Timeout)]
      ensures warnRef == Some(old(nextId)) && timeoutRef == Some(old(nextId) + 1)
      ensures nextId == old(nextId) + 2 && now == old(now)
    {
      ResetTimers();
    }

    /** Time passes up to `t` without reaching any pending timer's deadline. */
    method Advance(t: int)
      requires Valid()
      requires now <= t && NotBefore(pending, t)
      modifies this
      ensures Valid()
      ensures now == t
      ensures pending == old(pending) && warnRef == old(warnRef) && timeoutRef == old(timeoutRef) && nextId == old(nextId)
    {
      now := t;
    }

    /**
     * The event loop runs the next pending timer: the clock moves to its
     * deadline, it leaves the queue, and its callback is reported to the
     * owner. The refs keep the fired handle, as in the source.
     */
    method Fire(k: nat) returns (s: Signal)
      requires Valid()
      requires IsNext(pending, k)
      modifies this
      ensures Valid()
      ensures s == old(pending[k].event) && now == old(pending[k].due)
      ensures pending == Without(old(pending), k)
      ensures warnRef == old(warnRef) && timeoutRef == old(timeoutRef) && nextId == old(nextId)
    {
      s := pending[k].event;
      now := pending[k].due;
      pending := Without(pending, k);
    }
  }

  /**
   * Without activity after the mount, with the default delays: the warning
   * fires first, at 240000 ms, the timeout next, at 300000 ms, and then
   * nothing is left to fire.
   */
  method IdleScenario()
  {
    var timer := new InactivityTimer(DefaultWarnDelay, DefaultTimeoutDelay, 0);
    timer.Mount();
    var first := timer.Fire(0);
    assert first == Warn && timer.now == 240_000;
    var second := timer.Fire(0);
    assert second == Timeout && timer.now == 300_000;
    assert timer.pending == [];
  }

  /** A touch 1 ms before the warning is due: the warning first fires 240000 ms after the touch. */
  method ActivityScenario()
  {
    var timer := new InactivityTimer(DefaultWarnDelay, DefaultTimeoutDelay, 0);
    timer.Mount();
    timer.Advance(239_999);
    timer.OnTouchMove();
    assert timer.pending[0].due == 479_999 && timer.pending[1].due == 539_999;
    var first := timer.Fire(0);
    assert first == Warn && timer.now == 479_999;
  }
}
